/** Where the guarantees of `Runs` end, exactly: a service that changes its name
    can be duplicated. */
module Exceptions {
  import opened Basics
  import opened Compose
  import opened Ports
  import opened Engine
  import opened Retry
  import opened Planner
  import opened Execution
  import opened Blocks
  import opened Agreement
  import opened Runs
  import opened CleanSteps
  import opened CleanBlocks

  ghost predicate FreshIds(w: World) {
    forall id <- w.containers :: id < w.nextId
  }

  lemma StartIsSole(w: World, s: Service)
    requires OnePerService(w) && FreshIds(w) && Vacant(w, Key(s.appId, s.serviceId))
    ensures OnePerService(StartOp(w, s).world)
  {
    hide Report, NamedVolumes, NameTaken;
  }

  lemma StartDuplicates(w: World, s: Service, cid: Cid)
    requires FreshIds(w) && cid in w.containers && w.containers[cid].key == Key(s.appId, s.serviceId)
    requires !NameTaken(w, s.ContainerName()) && Accepted(s, w.networks)
    ensures !OnePerService(StartOp(w, s).world)
  {
    hide Report, NamedVolumes, NameTaken, Accepted;
    var after := StartOp(w, s).world;
    assert after.containers[cid].key == after.containers[w.nextId].key && cid != w.nextId;
  }

  /** Only `cid` can be the container of `k`, and while it is there some
      container bears `name`; so does one if `j` is another container. */
  ghost predicate Guarded(w: World, k: Key, cid: Cid, j: Cid, name: string) {
    && OnePerService(w) && FreshIds(w)
    && (forall id <- w.containers :: w.containers[id].key == k ==> id == cid)
    && (cid in w.containers || j != cid ==> j in w.containers && w.containers[j].Name() == name)
  }

  lemma StopStaysGuarded(sys: Sys, target: Apps, k: Key, cid: Cid, e: Env, j: Cid, name: string)
    requires Guarded(sys.world, k, cid, j, name)
    ensures Guarded(ExecStep(sys, target, StopContainer(k.app, k.svc, cid), e).sys.world, k, cid, j, name)
  {
    hide UpdateState;
  }

  lemma RemoveStaysGuarded(sys: Sys, target: Apps, k: Key, cid: Cid, e: Env, j: Cid, name: string)
    requires Guarded(sys.world, k, cid, j, name)
    ensures Guarded(ExecStep(sys, target, RemoveContainer(k.app, k.svc, cid), e).sys.world, k, cid, j, name)
  {
    hide RemoveService;
  }

  lemma GuardedStart(sys: Sys, target: Apps, k: Key, cid: Cid, s: Service, e: Env, j: Cid)
    requires Guarded(sys.world, k, cid, j, s.ContainerName()) && Key(s.appId, s.serviceId) == k
    ensures OnePerService(ExecStep(sys, target, StartContainer(k.app, s), e).sys.world)
  {
    hide AddService, Accepted, NewContainer, NamedVolumes;
    if cid !in sys.world.containers {
      StartIsSole(sys.world, s);
    } else {
      assert NameTaken(sys.world, s.ContainerName());
    }
    hide OnePerService;
  }

  lemma RefusedStart(sys: Sys, target: Apps, k: Key, s: Service, e: Env)
    requires !Accepted(s, sys.world.networks)
    ensures ExecStep(sys, target, StartContainer(k.app, s), e).sys == sys
  {}

  /** The three steps that replace a container, whatever fails. */
  lemma ReplaceIsSafe(sys: Sys, target: Apps, k: Key, cid: Cid, s: Service, es: seq<Env>)
    requires |es| == 3 && Key(s.appId, s.serviceId) == k
    requires OnePerService(sys.world) && FreshIds(sys.world) && Sole(sys.world, k, cid)
    requires NameTaken(sys.world, s.ContainerName()) || !Accepted(s, sys.world.networks)
    ensures OnePerService(Run(sys, target, [StopContainer(k.app, k.svc, cid), RemoveContainer(k.app, k.svc, cid),
                                            StartContainer(k.app, s)], es).world)
  {
    var stop, remove, start := StopContainer(k.app, k.svc, cid), RemoveContainer(k.app, k.svc, cid), StartContainer(k.app, s);
    RunThree(sys, target, stop, remove, start, es);
    if !Accepted(s, sys.world.networks) {
      var name := sys.world.containers[cid].Name();
      var s1 := ExecStep(sys, target, stop, es[0]).sys;
      StopStaysGuarded(sys, target, k, cid, es[0], cid, name);
      RemoveStaysGuarded(s1, target, k, cid, es[1], cid, name);
      RefusedStart(ExecStep(s1, target, remove, es[1]).sys, target, k, s, es[2]);
      return;
    }
    hide Run, ExecStep;
    var j :| j in sys.world.containers && sys.world.containers[j].Name() == s.ContainerName();
    var s1 := ExecStep(sys, target, stop, es[0]).sys;
    StopStaysGuarded(sys, target, k, cid, es[0], j, s.ContainerName());
    RemoveStaysGuarded(s1, target, k, cid, es[1], j, s.ContainerName());
    GuardedStart(ExecStep(s1, target, remove, es[1]).sys, target, k, cid, s, es[2], j);
  }

  lemma ReplaceCanDuplicate(sys: Sys, target: Apps, k: Key, cid: Cid, s: Service) returns (es: seq<Env>)
    requires Key(s.appId, s.serviceId) == k && FreshIds(sys.world) && Sole(sys.world, k, cid)
    requires !NameTaken(sys.world, s.ContainerName()) && Accepted(s, sys.world.networks)
    ensures |es| == 3
    ensures !OnePerService(Run(sys, target, [StopContainer(k.app, k.svc, cid), RemoveContainer(k.app, k.svc, cid),
                                             StartContainer(k.app, s)], es).world)
  {
    var stop, remove, start := StopContainer(k.app, k.svc, cid), RemoveContainer(k.app, k.svc, cid), StartContainer(k.app, s);
    var fine, lost := Env(false, false, 0, 0), Env(true, false, 0, 0);
    es := [fine, lost, fine];
    RunThree(sys, target, stop, remove, start, es);
    hide Run, UpdateState, AddService, RemoveService, Report, NamedVolumes;
    var s1 := ExecStep(sys, target, stop, fine).sys;
    assert forall id <- s1.world.containers ::
      id in sys.world.containers && s1.world.containers[id].Name() == sys.world.containers[id].Name();
    StartDuplicates(s1.world, s, cid);
  }

  /** Replacing a service's container can leave it with two exactly when the
      target's container name is free beforehand and the engine would take the
      target, that is, when the service is renamed: the old container no longer
      stands in the way of the new one. */
  lemma DuplicateIffRenamed(sys: Sys, target: Apps, k: Key, cid: Cid, s: Service)
    requires Key(s.appId, s.serviceId) == k
    requires OnePerService(sys.world) && FreshIds(sys.world) && Sole(sys.world, k, cid)
    ensures (exists es: seq<Env> :: |es| == 3 &&
               !OnePerService(Run(sys, target, [StopContainer(k.app, k.svc, cid), RemoveContainer(k.app, k.svc, cid),
                                                StartContainer(k.app, s)], es).world))
       <==> !NameTaken(sys.world, s.ContainerName()) && Accepted(s, sys.world.networks)
  {
    hide Run, OnePerService, NameTaken, Accepted;
    if NameTaken(sys.world, s.ContainerName()) || !Accepted(s, sys.world.networks) {
      forall es: seq<Env> | |es| == 3
        ensures OnePerService(Run(sys, target, [StopContainer(k.app, k.svc, cid), RemoveContainer(k.app, k.svc, cid),
                                                StartContainer(k.app, s)], es).world)
      {
        ReplaceIsSafe(sys, target, k, cid, s, es);
      }
    } else {
      var es := ReplaceCanDuplicate(sys, target, k, cid, s);
    }
  }
}
