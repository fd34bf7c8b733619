/** What one step does to Docker and to the view, and what it leaves alone. */
module StepEffects {
  import opened Basics
  import opened Compose
  import opened Engine
  import opened Retry
  import opened Planner
  import opened Execution
  import opened Blocks
  import opened Agreement
  import opened Restarts
  import opened Expectations

  /** Only the entries of `k` may have changed. */
  ghost predicate OnlyEntries(before: Sys, after: Sys, k: Key) {
    && after.retries == before.retries
    && forall o: Key :: o != k ==> Entries(after.view, o) == Entries(before.view, o)
  }

  /** Only container `cid` may have changed. */
  ghost predicate OnlyContainer(before: World, after: World, cid: Cid) {
    && after.networks == before.networks && after.volumes == before.volumes && after.nextId == before.nextId
    && after.containers - {cid} == before.containers - {cid}
  }

  /** The status a stop, pause or resume leads to, with the state the view notes. */
  ghost function Leads(step: AppStep): (Status, Mode) {
    if step.StopContainer? then (StExited, Stopped) else if step.PauseContainer? then (StPaused, Paused) else (StRunning, Running)
  }

  /** A container is stopped whatever its condition, paused if it runs, and resumed if
      it is paused. Its configuration stays. */
  lemma StatusStepMeans(sys: Sys, target: Apps, step: AppStep, e: Env)
    requires step.StopContainer? || step.PauseContainer? || step.UnpauseContainer?
    ensures var (after, cid, w) := (ExecStep(sys, target, step, e), step.containerId, sys.world);
      && (after.ok <==>
           && !e.first && cid in w.containers
           && (step.PauseContainer? ==> w.containers[cid].status == StRunning)
           && (step.UnpauseContainer? ==> w.containers[cid].status == StPaused))
      && (!after.ok ==> after.sys == sys)
      && OnlyContainer(w, after.sys.world, cid)
      && (after.ok ==>
        cid in after.sys.world.containers
        && after.sys.world.containers[cid] == w.containers[cid].(status := Leads(step).0))
  {
    hide UpdateState;
  }

  /** Its entry, the first of its service, notes the new state, and nothing else changes. */
  lemma StatusStepNotes(sys: Sys, target: Apps, step: AppStep, e: Env)
    requires step.StopContainer? || step.PauseContainer? || step.UnpauseContainer?
    ensures var (after, k) := (ExecStep(sys, target, step, e), Key(step.appId, step.serviceId));
      var (noted, were) := (Entries(after.sys.view, k), Entries(sys.view, k));
      && OnlyEntries(sys, after.sys, k)
      && |noted| == |were|
      && forall i | 0 <= i < |were| :: noted[i] == if i == 0 && after.ok then were[i].(state := Some(Leads(step).1)) else were[i]
  {
    StatusStepView(sys, target, step, e);
    var after, state := ExecStep(sys, target, step, e), Leads(step).1;
    hide *;
    forall o: Key
      ensures Entries(UpdateState(sys.view, step.appId, step.serviceId, state), o)
           == if o == Key(step.appId, step.serviceId) then FirstGets(Entries(sys.view, o), state) else Entries(sys.view, o)
    {
      UpdatedEntries(sys.view, step.appId, step.serviceId, state, o);
    }
    FirstNoted(Entries(sys.view, Key(step.appId, step.serviceId)), state);
    NothingNoted(sys, after.sys, Key(step.appId, step.serviceId));
  }

  lemma FirstNoted(es: seq<Service>, state: Mode)
    ensures |FirstGets(es, state)| == |es|
    ensures forall i | 0 <= i < |es| :: FirstGets(es, state)[i] == if i == 0 then es[i].(state := Some(state)) else es[i]
  {}

  lemma NothingNoted(before: Sys, after: Sys, k: Key)
    ensures OnlyEntries(before, after, k) <==>
      after.retries == before.retries && forall o: Key :: o != k ==> Entries(after.view, o) == Entries(before.view, o)
  {}

  lemma StatusStepView(sys: Sys, target: Apps, step: AppStep, e: Env)
    requires step.StopContainer? || step.PauseContainer? || step.UnpauseContainer?
    ensures var after := ExecStep(sys, target, step, e);
      && after.sys.retries == sys.retries
      && after.sys.view == if after.ok then UpdateState(sys.view, step.appId, step.serviceId, Leads(step).1) else sys.view
  {
    hide UpdateState, StopOp, PauseOp, UnpauseOp;
  }

  /** An exited or unknown container is removed, and with it the service's entries. */
  lemma RemoveStepMeans(sys: Sys, target: Apps, a: nat, id: nat, cid: Cid, e: Env)
    ensures var (after, k) := (ExecStep(sys, target, RemoveContainer(a, id, cid), e), Key(a, id));
      && (after.ok <==> !e.first && (cid in sys.world.containers ==> sys.world.containers[cid].status == StExited))
      && (!after.ok ==> after.sys == sys)
      && OnlyEntries(sys, after.sys, k) && OnlyContainer(sys.world, after.sys.world, cid)
      && (after.ok ==> cid !in after.sys.world.containers && Entries(after.sys.view, k) == [])
  {
    forall o: Key
      ensures Entries(RemoveService(sys.view, a, id), o) == if o == Key(a, id) then [] else Entries(sys.view, o)
    {
      RemovedEntries(sys.view, a, id, o);
    }
    hide RemoveService, Entries;
  }

  /** A start adds one container made for the service, and an entry under its id. */
  lemma StartStepMeans(sys: Sys, target: Apps, a: nat, s: Service, e: Env)
    ensures var (after, k, id) := (ExecStep(sys, target, StartContainer(a, s), e), Key(a, s.serviceId), sys.world.nextId);
      && (after.ok <==> !e.first && Takes(sys.world, s))
      && (!after.ok ==> after.sys == sys)
      && OnlyEntries(sys, after.sys, k)
      && (after.ok ==>
        && id in after.sys.world.containers && MadeFor(after.sys.world.containers[id], s, sys.world.networks)
        && after.sys.world.containers == sys.world.containers[id := after.sys.world.containers[id]]
        && after.sys.world.networks == sys.world.networks
        && Entries(after.sys.view, k) == Entries(sys.view, k) + [s.(containerId := Some(id), status := Some(StRunning))])
  {
    StartMeans(sys.world, s);
    forall o: Key
      ensures Entries(AddService(sys.view, a, s, sys.world.nextId), o)
           == Entries(sys.view, o)
              + if o == Key(a, s.serviceId) then [s.(containerId := Some(sys.world.nextId), status := Some(StRunning))] else []
    {
      AddedEntries(sys.view, a, s, sys.world.nextId, o);
    }
    hide AddService, Entries, StartOp, MadeFor, Takes;
  }

  /** An exited container's place is taken by one made for the entry as it was noted;
      a refused or lost start leaves the service without container and entry. */
  lemma StartStoppedStepMeans(sys: Sys, target: Apps, a: nat, id: nat, cid: Cid, s: Service, e: Env)
    requires Entries(sys.view, Key(a, id)) == [s]
    ensures var step := StartStoppedContainer(a, id, cid);
      var removed := ExecStep(sys, target, RemoveContainer(a, id, cid), e);
      var started := ExecStep(removed.sys, target, StartContainer(a, s), e.(first := e.second));
      ExecStep(sys, target, step, e) == if removed.ok then started else removed
  {
    FirstEntry(ServicesOf(sys.view, a), id);
    hide ExecRemove, ExecStart;
  }

  lemma {:induction false} FirstEntry(services: seq<Service>, id: nat)
    ensures FirstById(services, id) == if WithId(services, id) == [] then None else Some(WithId(services, id)[0])
  {
    if services != [] {
      var s, rest := services[0], services[1..];
      assert services == [s] + rest;
      WithIdCons(s, rest, id);
      FirstEntry(rest, id);
      hide WithId;
    }
  }

  /** The name under which an app's networks are created: its uuid, or else its id. */
  ghost function Prefix(app: Option<App>, a: nat): string {
    if app.Some? && app.value.appUuid.Some? && app.value.appUuid.value != "" then app.value.appUuid.value else Decimal(a)
  }

  /** The step acts on networks and volumes only. */
  ghost predicate OnlyResources(before: Sys, after: Sys) {
    && after.view == before.view && after.retries == before.retries
    && after.world.containers == before.world.containers && after.world.nextId == before.world.nextId
  }

  /** Networks are created under the wanted app's prefix, or else the current one's. */
  lemma CreateNetworkMeans(sys: Sys, target: Apps, a: nat, n: string, e: Env)
    ensures var after := ExecStep(sys, target, CreateNetwork(a, n), e);
      var app := if a in target then Some(target[a]) else if a in sys.view then Some(sys.view[a]) else None;
      && OnlyResources(sys, after.sys) && after.sys.world.volumes == sys.world.volumes
      && (after.ok <==> !e.first)
      && after.sys.world.networks == sys.world.networks + if e.first then {} else {NetName(Prefix(app, a), n)}
  {}

  /** A running or paused container of the app lists the network. */
  ghost predicate Uses(w: World, a: nat, n: string) {
    exists id <- w.containers ::
      w.containers[id].key.app == a && w.containers[id].status != StExited && n in Given(w.containers[id].config.networks, [])
  }

  /** A network in use is not removed; any other goes, under the app's id and its prefix. */
  lemma RemoveNetworkMeans(sys: Sys, target: Apps, a: nat, n: string, e: Env)
    ensures var after := ExecStep(sys, target, RemoveNetwork(a, n), e);
      var app := if a in sys.view then Some(sys.view[a]) else None;
      var goes := !e.first && !Uses(sys.world, a, n);
      && OnlyResources(sys, after.sys) && after.sys.world.volumes == sys.world.volumes
      && (after.ok <==> goes)
      && after.sys.world.networks
         == sys.world.networks - if goes then {NetName(Decimal(a), n), NetName(Prefix(app, a), n)} else {}
  {
    assert NetworkInUse(sys.world, a, n) <==> Uses(sys.world, a, n);
    hide NetworkInUse, Uses;
  }

  /** Volumes are created and removed under app id and name; one that a container
      mounts stays, and that is no error. */
  lemma VolumeStepsMean(sys: Sys, target: Apps, a: nat, v: string, e: Env)
    ensures var after := ExecStep(sys, target, CreateVolume(a, v), e);
      && OnlyResources(sys, after.sys) && after.sys.world.networks == sys.world.networks
      && (after.ok <==> !e.first)
      && after.sys.world.volumes == sys.world.volumes + if e.first then {} else {Decimal(a) + "_" + v}
    ensures var (after, name) := (ExecStep(sys, target, RemoveVolume(a, v), e), Decimal(a) + "_" + v);
      var mounted := exists c <- sys.world.containers.Values :: exists m <- Given(c.config.volumes, []) :: NamesVolume(m, name);
      && OnlyResources(sys, after.sys) && after.sys.world.networks == sys.world.networks
      && (after.ok <==> !e.first)
      && after.sys.world.volumes == sys.world.volumes - if e.first || mounted then {} else {name}
  {
    MountedMeans(sys.world, VolumeDockerName(a, v));
    hide VolumeInUse, NamesVolume;
  }

  lemma MountedMeans(w: World, name: string)
    ensures VolumeInUse(w, name) <==>
      exists c <- w.containers.Values :: exists m <- Given(c.config.volumes, []) :: NamesVolume(m, name)
  {
    forall c: Container
      ensures name in NamedVolumes(c.config.Volumes()) <==> exists m <- Given(c.config.volumes, []) :: NamesVolume(m, name)
    {
      NamedVolumesMean(c.config.Volumes(), name);
    }
    if VolumeInUse(w, name) {
      var id :| id in w.containers && name in NamedVolumes(w.containers[id].config.Volumes());
      assert w.containers[id] in w.containers.Values;
    }
    hide NamesVolume, NamedVolumes;
    if c :| c in w.containers.Values && exists m <- Given(c.config.volumes, []) :: NamesVolume(m, name) {
      var id :| id in w.containers && w.containers[id] == c;
      assert name in NamedVolumes(w.containers[id].config.Volumes());
    }
  }

  // -------------------------------------------------------------------- what fails

  /** Step `i` throws, in the state that the steps before it led to. */
  ghost predicate Fails(sys: Sys, target: Apps, steps: seq<AppStep>, es: seq<Env>, i: nat)
    requires |es| == |steps| && i < |steps|
  {
    !ExecStep(Run(sys, target, steps[..i], es[..i]), target, steps[i], es[i]).ok
  }

  ghost function Failing(sys: Sys, target: Apps, steps: seq<AppStep>, es: seq<Env>): set<nat>
    requires |es| == |steps|
  {
    set i: nat | i < |steps| && Fails(sys, target, steps, es, i)
  }

  /** A run reports exactly its failing steps, one for one. */
  lemma {:induction false} FailuresMean(sys: Sys, target: Apps, steps: seq<AppStep>, es: seq<Env>)
    requires |es| == |steps|
    ensures Reports(FailedSteps(sys, target, steps, es), steps, Failing(sys, target, steps, es))
  {
    if steps == [] {
      assert Failing(sys, target, steps, es) == {};
    } else {
      FailuresMean(sys, target, Init(steps), Init(es));
      FailingSnoc(sys, target, steps, es);
      LastReported(sys, target, steps, es);
      FailuresAddUp(steps, FailedSteps(sys, target, Init(steps), Init(es)), Failing(sys, target, Init(steps), Init(es)),
        Fails(sys, target, steps, es, |steps| - 1));
      hide *;
    }
  }

  /** One step for each of these positions, and no other. */
  ghost predicate Reports(reported: seq<AppStep>, steps: seq<AppStep>, at: set<nat>) {
    && |reported| == |at|
    && (forall i <- at :: i < |steps|)
    && forall step :: step in reported <==> exists i <- at :: i < |steps| && steps[i] == step
  }

  lemma FailuresAddUp(steps: seq<AppStep>, reported: seq<AppStep>, at: set<nat>, fails: bool)
    requires steps != [] && Reports(reported, Init(steps), at)
    ensures var n := |steps| - 1;
      Reports(reported + (if fails then [Last(steps)] else []), steps, at + if fails then {n} else {})
  {
    var n := |steps| - 1;
    var more, longer := reported + (if fails then [Last(steps)] else []), at + if fails then {n} else {};
    assert n !in at;
    forall step
      ensures step in more <==> exists i <- longer :: i < |steps| && steps[i] == step
    {
      if step in reported {
        var i :| i in at && i < n && Init(steps)[i] == step;
        assert i in longer && steps[i] == step;
      }
      if fails && step == Last(steps) { assert n in longer && steps[n] == step; }
      if i :| i in longer && i < |steps| && steps[i] == step {
        if i != n { assert i in at && Init(steps)[i] == step; }
      }
    }
  }

  lemma FailingSnoc(sys: Sys, target: Apps, steps: seq<AppStep>, es: seq<Env>)
    requires |es| == |steps| && steps != []
    ensures var n := |steps| - 1;
      Failing(sys, target, steps, es)
      == Failing(sys, target, Init(steps), Init(es)) + if Fails(sys, target, steps, es, n) then {n} else {}
  {
    var n := |steps| - 1;
    forall i: nat | i < n
      ensures Fails(sys, target, steps, es, i) <==> Fails(sys, target, Init(steps), Init(es), i)
    {
      assert steps[..i] == Init(steps)[..i] && es[..i] == Init(es)[..i];
    }
    hide Fails;
  }

  lemma LastReported(sys: Sys, target: Apps, steps: seq<AppStep>, es: seq<Env>)
    requires |es| == |steps| && steps != []
    ensures FailedSteps(sys, target, steps, es)
         == FailedSteps(sys, target, Init(steps), Init(es))
            + if Fails(sys, target, steps, es, |steps| - 1) then [Last(steps)] else []
  {
    assert steps[..|steps| - 1] == Init(steps) && es[..|es| - 1] == Init(es);
    hide Run, ExecStep;
  }

  // -------------------------------------------------------------- reading Docker back

  /** The entry shows the container: its labels, image, configuration and condition. */
  ghost predicate Shows(s: Service, id: Cid, c: Container) {
    && s.serviceId == c.key.svc && s.appId == c.key.app
    && s.serviceName == c.serviceName && s.appName == c.appName
    && s.imageName == c.image && s.config == c.config
    && s.containerId == Some(id) && s.status == Some(c.status)
    && s.state == match c.status
                  case StRunning => Some(Running)
                  case StPaused => Some(Paused)
                  case StExited => Some(Stopped)
  }

  lemma ShowsIff(s: Service, id: Cid, c: Container)
    ensures Shows(s, id, c) <==> s == ViewOf(id, c)
  {}

  ghost predicate ShownBy(w: World, listing: seq<Cid>, a: nat, s: Service) {
    exists id <- listing :: id in w.containers && w.containers[id].key.app == a && Shows(s, id, w.containers[id])
  }

  /** A synced view has exactly one entry for each listed container, under its app; no
      app of it has a uuid. */
  lemma {:induction false} SyncShows(w: World, listing: seq<Cid>, a: nat, s: Service)
    requires forall id <- listing :: id in w.containers
    ensures s in ServicesOf(SyncView(w, listing), a) <==> ShownBy(w, listing, a, s)
    ensures a in SyncView(w, listing) <==> exists id <- listing :: w.containers[id].key.app == a
    ensures a in SyncView(w, listing) ==> SyncView(w, listing)[a].appId == a && SyncView(w, listing)[a].appUuid == None
  {
    if listing != [] {
      var earlier, id := Init(listing), Last(listing);
      var c := w.containers[id];
      SyncShows(w, earlier, a, s);
      ShowsIff(s, id, c);
      assert listing == earlier + [id];
      assert ShownBy(w, listing, a, s) <==> ShownBy(w, earlier, a, s) || (c.key.app == a && Shows(s, id, c)) by {
        hide Shows, SyncView;
      }
      hide Shows, ShownBy, ViewOf;
    }
  }
}
