/** Restarting a container whose liveness probe failed. */
module Restarts {
  import opened Basics
  import opened Compose
  import opened Ports
  import opened Engine
  import opened Retry
  import opened Planner
  import opened Execution
  import opened Blocks
  import opened Agreement
  import opened Robust
  import opened Expectations

  /** Where the id of an entry leads in an agreed state. */
  lemma EntryAgrees(sys: Sys, a: nat, s: Service, cid: Cid, names: Naming)
    requires AllAgree(sys, names) && a in sys.view && s in sys.view[a].services && s.containerId == Some(cid)
    ensures var k := Key(a, s.serviceId);
            && Entries(sys.view, k) == [s] && Sole(sys.world, k, cid) && Claimed(sys.world, k, cid)
            && s.appId == a && s.ContainerName() in names(k)
  {
    var k := Key(a, s.serviceId);
    assert Agree(sys, k) && s in Entries(sys.view, k);
  }

  /** The restart removed the container and could not start its replacement. */
  predicate LosesContainer(sys: Sys, cid: Cid, lost: Losses) {
    var found := FindContainer(sys.view, Ascending(sys.view.Keys), cid);
    && found.Some? && !lost.stop && !lost.remove
    && (lost.start || !StartOp(RemoveOp(StopOp(sys.world, cid).world, cid).world, found.value.1).ok)
  }

  lemma StoppedAgrees(sys: Sys, k: Key, cid: Cid, names: Naming)
    requires AllAgree(sys, names) && Sole(sys.world, k, cid)
    ensures AllAgree(sys.(world := SetStatus(sys.world, cid, StExited)), names)
  {
    var after := sys.(world := SetStatus(sys.world, cid, StExited));
    forall o: Key
      ensures Agree(after, o)
    {
      assert Agree(sys, o);
    }
  }

  /** A restart never duplicates a container, and it keeps the view in agreement
      with Docker exactly when it does not end with the container removed and no
      replacement started. The next sync repairs that case. */
  lemma RestartKeepsAgreement(sys: Sys, cid: Cid, lost: Losses, names: Naming)
    requires AllAgree(sys, names) && Stable(names)
    ensures var after := ExecRestart(sys, cid, lost);
            && OnePerService(after.world) && GoodWorld(after.world, names)
            && (AllAgree(after, names) <==> !LosesContainer(sys, cid, lost))
  {
    AgreementMeans(sys, names);
    var found := FindContainer(sys.view, Ascending(sys.view.Keys), cid);
    if found.Some? {
      var (a, s) := found.value;
      var k := Key(a, s.serviceId);
      EntryAgrees(sys, a, s, cid, names);
      var stopped := sys.(world := SetStatus(sys.world, cid, StExited));
      StoppedAgrees(sys, k, cid, names);
      AgreementMeans(stopped, names);
      var removed := ExecRemove(stopped, a, s.serviceId, cid, false);
      RemoveKeeps(stopped, k, cid, false, names);
      RemoveAgrees(stopped, removed.sys, k, names, cid);
      AgreementMeans(removed.sys, names);
      var started := ExecStart(removed.sys, a, s, false);
      KeptParts(stopped, removed.sys, k, cid, names);
      StartKeeps(removed.sys, k, s, false, cid, names);
      RemoveAgrees(removed.sys, started.sys, k, names, cid);
      AgreementMeans(started.sys, names);
      if LosesContainer(sys, cid, lost) {
        assert !Agree(ExecRestart(sys, cid, lost), k);
      }
      hide AllAgree, OnePerService, SameTriples, StartOp, RemoveService, AddService, Sole, Claimed, GoodWorld, Kept;
    }
  }

  lemma RemoveAgrees(before: Sys, after: Sys, k: Key, names: Naming, cid: Cid)
    requires AllAgree(before, names) && Kept(before, after, k, cid, names)
    ensures AllAgree(after, names)
  {
    hide Entries, Good, Loose;
    forall o: Key
      ensures Agree(after, o)
    {
      if o != k { UntouchedAgree(before, after, o); }
    }
  }

  lemma StopIsSane(sys: Sys, cid: Cid, names: Naming)
    requires Sane(sys, names)
    ensures Sane(sys.(world := StopOp(sys.world, cid).world), names)
    ensures Sane(sys.(world := RemoveOp(StopOp(sys.world, cid).world, cid).world), names)
  {
    hide GoodView;
  }

  lemma ReplaceIsSane(sys: Sys, a: nat, s: Service, names: Naming)
    requires Stable(names) && Sane(sys, names) && GoodEntry(a, s, names) && StartOp(sys.world, s).ok
    ensures Sane(sys.(view := AddService(RemoveService(sys.view, a, s.serviceId), a, s, sys.world.nextId),
                      world := StartOp(sys.world, s).world), names)
  {
    var last := sys.(view := RemoveService(sys.view, a, s.serviceId));
    assert Sane(last, names);
    StartIsSane(last, a, s, false, names);
    hide Sane, StartOp, RemoveService, AddService;
  }

  /** Whatever the view says, a restart leaves one container a service at most. */
  lemma RestartIsSane(sys: Sys, cid: Cid, lost: Losses, names: Naming)
    requires Stable(names) && Sane(sys, names)
    ensures Sane(ExecRestart(sys, cid, lost), names)
  {
    var found := FindContainer(sys.view, Ascending(sys.view.Keys), cid);
    if found.Some? {
      var (a, s) := found.value;
      assert GoodEntry(a, s, names);
      hide Sane, Stable, GoodEntry, StopOp, RemoveOp, StartOp, RemoveService, AddService, FindContainer;
      StopIsSane(sys, cid, names);
      var removed := sys.(world := RemoveOp(StopOp(sys.world, cid).world, cid).world);
      if StartOp(removed.world, s).ok { ReplaceIsSane(removed, a, s, names); }
    }
  }

  // ------------------------------------------------------ what a restart replaces

  /** Service `k` has a new container made for the entry `s`, and the entry under its
      id; every other container and entry is as it was. */
  ghost predicate Replaced(before: Sys, after: Sys, k: Key, s: Service, cid: Cid) {
    var id := before.world.nextId;
    && id in after.world.containers && MadeFor(after.world.containers[id], s, before.world.networks)
    && after.world.containers == (before.world.containers - {cid})[id := after.world.containers[id]]
    && Sole(after.world, k, id)
    && Entries(after.view, k) == [s.(containerId := Some(id), status := Some(StRunning))]
    && forall o: Key :: o != k ==> Entries(after.view, o) == Entries(before.view, o)
  }

  /** The one entry that carries a container's id is what a restart finds. */
  lemma EntryIsFound(sys: Sys, a: nat, s: Service, cid: Cid, names: Naming)
    requires AllAgree(sys, names) && a in sys.view && s in sys.view[a].services && s.containerId == Some(cid)
    ensures FindContainer(sys.view, Ascending(sys.view.Keys), cid) == Some((a, s))
  {
    var found := FindContainer(sys.view, Ascending(sys.view.Keys), cid);
    EntryAgrees(sys, a, s, cid, names);
    var (a', s') := found.value;
    EntryAgrees(sys, a', s', cid, names);
    assert Key(a, s.serviceId) == Key(a', s'.serviceId);
    hide FindContainer, AllAgree, Claimed;
  }

  /** A restart of a container in the view, case by case: nothing; stopped only;
      removed only; or replaced by one made for the very entry that was found. */
  lemma RestartMeans(sys: Sys, a: nat, s: Service, cid: Cid, lost: Losses, names: Naming)
    requires AllAgree(sys, names) && a in sys.view && s in sys.view[a].services && s.containerId == Some(cid)
    ensures var after, w, k := ExecRestart(sys, cid, lost), sys.world, Key(a, s.serviceId);
      && cid in w.containers && after.retries == sys.retries && after.world.networks == w.networks
      && if lost.stop then after == sys
         else if lost.remove then
           && after.view == sys.view
           && after.world == w.(containers := w.containers[cid := w.containers[cid].(status := StExited)])
         else if lost.start || !Takes(WithoutContainer(w, cid), s) then
           && after.view == sys.view && after.world == WithoutContainer(w, cid)
         else cid !in after.world.containers && Replaced(sys, after, k, s, cid)
  {
    EntryIsFound(sys, a, s, cid, names);
    EntryAgrees(sys, a, s, cid, names);
    RestartCases(sys, a, s, cid, lost);
    StartMeans(WithoutContainer(sys.world, cid), s);
    hide ExecRestart, Takes, Replaced, MadeFor, StartOp, Entries, Good, Agree, Claimed;
    if !lost.stop && !lost.remove && !lost.start && Takes(WithoutContainer(sys.world, cid), s) {
      RestartReplaces(sys, ExecRestart(sys, cid, lost), a, s, cid, names);
    }
  }

  lemma RestartReplaces(sys: Sys, after: Sys, a: nat, s: Service, cid: Cid, names: Naming)
    requires Good(sys, names) && Sole(sys.world, Key(a, s.serviceId), cid)
    requires Entries(sys.view, Key(a, s.serviceId)) == [s] && s.appId == a
    requires StartOp(WithoutContainer(sys.world, cid), s).ok
    requires after.view == AddService(RemoveService(sys.view, a, s.serviceId), a, s, sys.world.nextId)
    requires after.world == StartOp(WithoutContainer(sys.world, cid), s).world
    ensures cid !in after.world.containers && Replaced(sys, after, Key(a, s.serviceId), s, cid)
  {
    NextIsNew(sys, Key(a, s.serviceId), cid, names);
    EntryReplaced(sys.view, a, s, sys.world.nextId);
    StartMeans(WithoutContainer(sys.world, cid), s);
    NewIsMadeFor(after.world, s, sys.world.nextId, sys.world.networks);
    hide AddService, RemoveService, StartOp, MadeFor, Takes, Good, Entries;
  }

  lemma NewIsMadeFor(w: World, s: Service, id: Cid, networks: set<NetName>)
    ensures id in w.containers && MadeFor(w.containers[id], s, networks) ==> w.containers[id].key == Key(s.appId, s.serviceId)
  {}

  function WithoutContainer(w: World, cid: Cid): World { w.(containers := w.containers - {cid}) }

  lemma RestartCases(sys: Sys, a: nat, s: Service, cid: Cid, lost: Losses)
    requires FindContainer(sys.view, Ascending(sys.view.Keys), cid) == Some((a, s)) && cid in sys.world.containers
    ensures var after, w := ExecRestart(sys, cid, lost), sys.world;
      after == if lost.stop then sys
        else if lost.remove then sys.(world := w.(containers := w.containers[cid := w.containers[cid].(status := StExited)]))
        else if lost.start || !StartOp(WithoutContainer(w, cid), s).ok then sys.(world := WithoutContainer(w, cid))
        else sys.(view := AddService(RemoveService(sys.view, a, s.serviceId), a, s, w.nextId),
                  world := StartOp(WithoutContainer(w, cid), s).world)
  {
    hide FindContainer, StartOp, StopOp, RemoveOp, AddService, RemoveService, Ascending;
    StoppedRemoved(sys.world, cid);
  }

  lemma StoppedRemoved(w: World, cid: Cid)
    requires cid in w.containers
    ensures StopOp(w, cid) == Reply(SetStatus(w, cid, StExited), true)
    ensures RemoveOp(StopOp(w, cid).world, cid) == Reply(WithoutContainer(w, cid), true)
  {
    assert w.containers[cid := w.containers[cid].(status := StExited)] - {cid} == w.containers - {cid};
  }

  lemma NextIsNew(sys: Sys, k: Key, cid: Cid, names: Naming)
    requires Good(sys, names) && Sole(sys.world, k, cid)
    ensures sys.world.nextId !in sys.world.containers && sys.world.nextId != cid
    ensures forall id <- WithoutContainer(sys.world, cid).containers :: sys.world.containers[id].key != k
  {}

  lemma EntryReplaced(view: Apps, a: nat, s: Service, id: Cid)
    requires Entries(view, Key(a, s.serviceId)) == [s]
    ensures var after, k := AddService(RemoveService(view, a, s.serviceId), a, s, id), Key(a, s.serviceId);
      && Entries(after, k) == [s.(containerId := Some(id), status := Some(StRunning))]
      && forall o: Key :: o != k ==> Entries(after, o) == Entries(view, o)
  {
    forall o: Key
      ensures Entries(AddService(RemoveService(view, a, s.serviceId), a, s, id), o)
           == if o == Key(a, s.serviceId) then [s.(containerId := Some(id), status := Some(StRunning))] else Entries(view, o)
    {
      RemovedEntries(view, a, s.serviceId, o);
      AddedEntries(RemoveService(view, a, s.serviceId), a, s, id, o);
      hide *;
    }
    hide *;
  }
}
