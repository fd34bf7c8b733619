/** What every step keeps, however the engine fails: no service ever has two
    containers, and the in-memory view names exactly the containers Docker has.
    The assumptions are those of the engine (create and start are one step, a
    name in use is refused) and one on names: a service keeps its container
    name over the whole run. */
module Agreement {
  import opened Basics
  import opened Compose
  import opened Ports
  import opened Engine
  import opened Retry
  import opened Planner
  import opened Execution
  import opened Blocks

  /** The container names each service may use in the course of a run. */
  type Naming = Key -> set<string>

  /** A service keeps one container name over the whole run. */
  ghost predicate Stable(names: Naming) {
    forall k: Key :: forall x <- names(k), y <- names(k) :: x == y
  }

  /** As an engine lists a container: ports as numbers, none where it has no namespace
      of its own, and with the network its mode attaches it to. */
  ghost predicate Listed(c: Container) {
    && (forall p <- c.config.Ports() :: PlainPort(p))
    && (SharesNamespace(NetworkMode(c.config)) ==> c.config.Ports() == [])
    && (OwnNetwork(c.key.app, NetworkMode(c.config)).Some? ==>
          OwnNetwork(c.key.app, NetworkMode(c.config)).value in c.config.Networks())
  }

  /** Ids are handed out in order, containers are listed as an engine does, and each
      service has container names of its own. */
  ghost predicate GoodWorld(w: World, names: Naming) {
    && 0 < w.nextId
    && forall id <- w.containers ::
         && 0 < id < w.nextId
         && Listed(w.containers[id])
         && w.containers[id].Name() in names(w.containers[id].key)
  }

  ghost predicate GoodEntry(a: nat, s: Service, names: Naming) {
    s.appId == a && s.containerId.Some? && s.ContainerName() in names(Key(a, s.serviceId))
  }

  ghost predicate GoodView(view: Apps, names: Naming) {
    forall a <- view ::
      && view[a].appId == a && view[a].appUuid == None
      && forall s <- view[a].services :: GoodEntry(a, s, names)
  }

  ghost predicate GoodTarget(target: Apps, names: Naming) {
    && WellKeyed(target)
    && forall a <- target :: forall s <- target[a].services :: s.ContainerName() in names(Key(a, s.serviceId))
  }

  ghost predicate Good(sys: Sys, names: Naming) {
    GoodWorld(sys.world, names) && GoodView(sys.view, names)
  }

  /** Container `id` is the one container of service `k`. */
  ghost predicate Sole(w: World, k: Key, id: Cid) {
    && id in w.containers && w.containers[id].key == k
    && forall j <- w.containers :: w.containers[j].key == k ==> j == id
  }

  ghost predicate Vacant(w: World, k: Key) {
    forall j <- w.containers :: w.containers[j].key != k
  }

  /** View and world agree on service `k`: no entry and no container, or one
      entry carrying the id of the only container. */
  ghost predicate Agree(sys: Sys, k: Key) {
    var es := Entries(sys.view, k);
    if es == [] then Vacant(sys.world, k)
    else |es| == 1 && es[0].containerId.Some? && Sole(sys.world, k, es[0].containerId.value)
  }

  /** Neither the entries nor the containers of `k` differ. */
  ghost predicate Untouched(s1: Sys, s2: Sys, k: Key) {
    && Entries(s1.view, k) == Entries(s2.view, k)
    && (forall id <- s1.world.containers :: s1.world.containers[id].key == k ==>
          id in s2.world.containers && s2.world.containers[id] == s1.world.containers[id])
    && (forall id <- s2.world.containers :: s2.world.containers[id].key == k ==>
          id in s1.world.containers && s1.world.containers[id] == s2.world.containers[id])
  }

  lemma UntouchedAgree(s1: Sys, s2: Sys, k: Key)
    requires Untouched(s1, s2, k)
    ensures Agree(s1, k) <==> Agree(s2, k)
  {}

  lemma UntouchedTransitive(s1: Sys, s2: Sys, s3: Sys, k: Key)
    requires Untouched(s1, s2, k) && Untouched(s2, s3, k)
    ensures Untouched(s1, s3, k)
  {}

  // --------------------------------------------------- the view's own helpers

  lemma {:induction false} WithoutIdEntries(services: seq<Service>, id: nat, other: nat)
    ensures WithId(WithoutId(services, id), other) == if other == id then [] else WithId(services, other)
  {
    if services != [] {
      WithoutIdEntries(Init(services), id, other);
      if Last(services).serviceId != id {
        assert Init(WithoutId(services, id)) == WithoutId(Init(services), id);
      }
    }
  }

  lemma RemovedEntries(view: Apps, a: nat, id: nat, k: Key)
    ensures Entries(RemoveService(view, a, id), k) == if k == Key(a, id) then [] else Entries(view, k)
  {
    if a in view && k.app == a { WithoutIdEntries(view[a].services, id, k.svc); }
  }

  lemma AddedEntries(view: Apps, a: nat, s: Service, cid: Cid, k: Key)
    ensures Entries(AddService(view, a, s, cid), k)
         == Entries(view, k)
            + if k == Key(a, s.serviceId)
              then [s.(containerId := Some(cid), status := Some(StRunning))] else []
  {
    if k.app == a {
      var entry := s.(containerId := Some(cid), status := Some(StRunning));
      WithIdSnoc(ServicesOf(view, a), entry, k.svc);
    }
  }

  lemma WithIdSnoc(services: seq<Service>, s: Service, id: nat)
    ensures WithId(services + [s], id) == WithId(services, id) + if s.serviceId == id then [s] else []
  {
    assert Init(services + [s]) == services;
  }

  lemma {:induction false} WithIdCons(s: Service, rest: seq<Service>, id: nat)
    ensures WithId([s] + rest, id) == if s.serviceId == id then [s] + WithId(rest, id) else WithId(rest, id)
  {
    if rest == [] {
      assert [s] + rest == [s] && Init([s]) == [];
    } else {
      assert Init([s] + rest) == [s] + Init(rest) && Last([s] + rest) == Last(rest);
      WithIdCons(s, Init(rest), id);
    }
  }

  function FirstGets(es: seq<Service>, state: Mode): seq<Service> {
    if es == [] then [] else [es[0].(state := Some(state))] + es[1..]
  }

  /** Writing a state changes at most the first entry of that id, and only its state. */
  lemma {:induction false} WithStateEntries(services: seq<Service>, id: nat, state: Mode, other: nat)
    ensures WithId(WithState(services, id, state), other)
         == if other == id then FirstGets(WithId(services, other), state) else WithId(services, other)
  {
    if services != [] {
      hide WithId;
      var s, rest := services[0], services[1..];
      assert services == [s] + rest;
      WithIdCons(s, rest, other);
      if s.serviceId == id {
        WithIdCons(s.(state := Some(state)), rest, other);
      } else {
        WithStateEntries(rest, id, state, other);
        WithIdCons(s, WithState(rest, id, state), other);
      }
    }
  }

  lemma UpdatedEntries(view: Apps, a: nat, id: nat, state: Mode, k: Key)
    ensures Entries(UpdateState(view, a, id, state), k)
         == if k == Key(a, id) then FirstGets(Entries(view, k), state) else Entries(view, k)
  {
    if a in view && k.app == a { WithStateEntries(view[a].services, id, state, k.svc); }
  }

  lemma {:induction false} WithStateGood(services: seq<Service>, id: nat, state: Mode, a: nat, names: Naming)
    requires forall s <- services :: GoodEntry(a, s, names)
    ensures forall s <- WithState(services, id, state) :: GoodEntry(a, s, names)
  {
    if services != [] {
      var s, rest := services[0], services[1..];
      assert s in services;
      assert GoodEntry(a, s.(state := Some(state)), names);
      assert forall x <- rest :: x in services;
      WithStateGood(rest, id, state, a, names);
    }
  }

  lemma {:induction false} FirstIsEntry(services: seq<Service>, id: nat)
    ensures FirstById(services, id)
         == if WithId(services, id) == [] then None else Some(WithId(services, id)[0])
  {
    if services != [] {
      assert services == [services[0]] + services[1..];
      WithIdCons(services[0], services[1..], id);
      if services[0].serviceId != id { FirstIsEntry(services[1..], id); }
    }
  }

  lemma {:induction false} LastIsEntry(services: seq<Service>, id: nat)
    ensures var es := WithId(services, id);
            LastById(services, id) == if es == [] then None else Some(Last(es))
  {
    if services != [] && Last(services).serviceId != id { LastIsEntry(Init(services), id); }
  }

  // --------------------------------------------------------------- one step

  /** Steps that change the containers or the entry of service `k` only. */
  ghost predicate StepAt(step: AppStep, k: Key, names: Naming) {
    match step
    case StartContainer(a, s) => a == k.app == s.appId && s.serviceId == k.svc && s.ContainerName() in names(k)
    case StopContainer(a, id, _) => Key(a, id) == k
    case PauseContainer(a, id, _) => Key(a, id) == k
    case UnpauseContainer(a, id, _) => Key(a, id) == k
    case StartStoppedContainer(a, id, _) => Key(a, id) == k
    case RemoveContainer(a, id, _) => Key(a, id) == k
    case _ => false
  }

  /** No container but `cid` can be the container of `k`, and `cid` is not anyone else's. */
  ghost predicate Claimed(w: World, k: Key, cid: Cid) {
    && cid < w.nextId
    && (cid in w.containers ==> w.containers[cid].key == k)
    && forall j <- w.containers :: w.containers[j].key == k ==> j == cid
  }

  predicate Starts(step: AppStep) { step.StartContainer? || step.StartStoppedContainer? }

  predicate Removes(step: AppStep) { step.RemoveContainer? || step.StartStoppedContainer? }

  predicate NamesContainer(step: AppStep) {
    Removes(step) || step.StopContainer? || step.PauseContainer? || step.UnpauseContainer?
  }

  /** The id in a step is that of its service's container, or of one already gone. */
  ghost predicate Fits(w: World, step: AppStep, k: Key, cid: Cid) {
    && (NamesContainer(step) ==> step.containerId == cid)
    && (Removes(step) || cid in w.containers ==> Claimed(w, k, cid))
  }

  /** If `cid` still exists it is the container of `k`. */
  ghost predicate Loose(w: World, k: Key, cid: Cid) {
    cid < w.nextId && (cid in w.containers ==> Claimed(w, k, cid))
  }

  /** What a step of service `k` leaves true. */
  ghost predicate Kept(before: Sys, after: Sys, k: Key, cid: Cid, names: Naming) {
    && Good(after, names) && Agree(after, k) && Loose(after.world, k, cid)
    && forall o: Key :: o != k ==> Untouched(before, after, o)
  }

  lemma KeptSame(sys: Sys, after: Sys, k: Key, cid: Cid, names: Naming)
    requires Good(sys, names) && Agree(sys, k) && Loose(sys.world, k, cid)
    requires after.view == sys.view && after.world == sys.world
    ensures Kept(sys, after, k, cid, names)
  {}

  lemma KeptTransitive(s1: Sys, s2: Sys, s3: Sys, k: Key, cid: Cid, names: Naming)
    requires Kept(s1, s2, k, cid, names) && Kept(s2, s3, k, cid, names)
    ensures Kept(s1, s3, k, cid, names)
  {
    forall o: Key | o != k
      ensures Untouched(s1, s3, o)
    {
      hide Entries, Good, Agree, Loose;
      UntouchedTransitive(s1, s2, s3, o);
    }
  }

  lemma StatusKeeps(sys: Sys, k: Key, cid: Cid, r: Reply, state: Mode, lost: bool, names: Naming)
    requires Good(sys, names) && Agree(sys, k) && Loose(sys.world, k, cid)
    requires r.ok ==> cid in sys.world.containers && exists status :: r.world == SetStatus(sys.world, cid, status)
    ensures var after := ExecStatus(sys, k.app, k.svc, r, state, lost).sys;
            && Kept(sys, after, k, cid, names)
            && (Claimed(sys.world, k, cid) ==> Claimed(after.world, k, cid))
  {
    var after := ExecStatus(sys, k.app, k.svc, r, state, lost).sys;
    if !lost && r.ok {
      forall o: Key {:trigger Untouched(sys, after, o)}
        ensures o != k ==> Untouched(sys, after, o)
      {
        UpdatedEntries(sys.view, k.app, k.svc, state, o);
      }
      UpdatedEntries(sys.view, k.app, k.svc, state, k);
      if k.app in sys.view { WithStateGood(sys.view[k.app].services, k.svc, state, k.app, names); }
    }
  }

  lemma RemoveKeeps(sys: Sys, k: Key, cid: Cid, lost: bool, names: Naming)
    requires Good(sys, names) && Agree(sys, k) && Claimed(sys.world, k, cid)
    ensures var r := ExecRemove(sys, k.app, k.svc, cid, lost);
            && Kept(sys, r.sys, k, cid, names) && Claimed(r.sys.world, k, cid)
            && (r.ok ==> Entries(r.sys.view, k) == [] && Vacant(r.sys.world, k))
  {
    var r := ExecRemove(sys, k.app, k.svc, cid, lost);
    RemovedEntries(sys.view, k.app, k.svc, k);
    forall o: Key {:trigger Untouched(sys, r.sys, o)}
      ensures o != k ==> Untouched(sys, r.sys, o)
    {
      RemovedEntries(sys.view, k.app, k.svc, o);
    }
  }

  lemma NewIsListed(s: Service, networks: set<NetName>)
    requires PortsTaken(s)
    ensures Listed(NewContainer(s, networks))
  {
    ReportedIsPlain(PortBindings(s.config.Ports()));
    OwnIsNoShared(s.appId, NetworkMode(s.config));
    ReportedMode(s, networks);
    hide ReportedPorts, ReportedEnv, ReportedMounts, JoinedNetworks, SharesNamespace, OwnNetwork, PlainPort;
  }

  lemma StartedWorld(w: World, k: Key, s: Service, names: Naming)
    requires GoodWorld(w, names) && StartOp(w, s).ok && (Stable(names) || Vacant(w, k))
    requires Key(s.appId, s.serviceId) == k && s.ContainerName() in names(k)
    ensures var after := StartOp(w, s).world;
            && GoodWorld(after, names) && Vacant(w, k) && Sole(after, k, w.nextId) && after.nextId == w.nextId + 1
            && after.containers == w.containers[w.nextId := NewContainer(s, w.networks)]
  {
    NewIsListed(s, w.networks);
    hide Report, NamedVolumes, Accepted, Listed;
    if Stable(names) { assert Vacant(w, k); }
  }

  lemma StartedView(view: Apps, k: Key, s: Service, cid: Cid, names: Naming)
    requires GoodView(view, names)
    requires Key(s.appId, s.serviceId) == k && s.ContainerName() in names(k)
    ensures GoodView(AddService(view, k.app, s, cid), names)
  {
    assert GoodEntry(k.app, s.(containerId := Some(cid), status := Some(StRunning)), names);
  }

  /** A start succeeds only where the service has no container: its name would be taken. */
  lemma StartKeeps(sys: Sys, k: Key, s: Service, lost: bool, cid: Cid, names: Naming)
    requires Good(sys, names) && Agree(sys, k) && Loose(sys.world, k, cid)
    requires Stable(names) || Vacant(sys.world, k)
    requires Key(s.appId, s.serviceId) == k && s.ContainerName() in names(k)
    ensures var r := ExecStart(sys, k.app, s, lost);
            Kept(sys, r.sys, k, cid, names) && (r.ok ==> Vacant(sys.world, k))
  {
    hide StartOp, NewContainer, AddService, Entries;
    var r := ExecStart(sys, k.app, s, lost);
    if r.ok {
      StartedWorld(sys.world, k, s, names);
      StartedView(sys.view, k, s, sys.world.nextId, names);
      StartedKey(s, sys.world.networks);
      AddedEntries(sys.view, k.app, s, sys.world.nextId, k);
      forall o: Key {:trigger Untouched(sys, r.sys, o)}
        ensures o != k ==> Untouched(sys, r.sys, o)
      {
        AddedEntries(sys.view, k.app, s, sys.world.nextId, o);
      }
    }
  }

  lemma StartedKey(s: Service, networks: set<NetName>)
    ensures NewContainer(s, networks).key == Key(s.appId, s.serviceId)
    ensures NewContainer(s, networks).status == StRunning
  {}

  lemma StartStoppedKeeps(sys: Sys, k: Key, cid: Cid, e: Env, names: Naming)
    requires Good(sys, names) && Agree(sys, k) && Claimed(sys.world, k, cid)
    ensures Kept(sys, ExecStartStopped(sys, k.app, k.svc, cid, e).sys, k, cid, names)
  {
    var found := FirstById(ServicesOf(sys.view, k.app), k.svc);
    if found.Some? {
      hide ExecRemove, ExecStart, FirstById, Kept, Agree, Entries, Loose;
      var removed := ExecRemove(sys, k.app, k.svc, cid, e.first);
      RemoveKeeps(sys, k, cid, e.first, names);
      if removed.ok {
        KeptParts(sys, removed.sys, k, cid, names);
        StartKeeps(removed.sys, k, found.value, e.second, cid, names);
        KeptTransitive(sys, removed.sys, ExecStart(removed.sys, k.app, found.value, e.second).sys, k, cid, names);
      }
    } else {
      KeptSame(sys, sys, k, cid, names);
    }
  }

  lemma KeptParts(before: Sys, after: Sys, k: Key, cid: Cid, names: Naming)
    requires Kept(before, after, k, cid, names)
    ensures Good(after, names) && Agree(after, k) && Loose(after.world, k, cid)
  {}

  /** Every container step keeps agreement, whether its engine calls succeed or not. */
  lemma StepKeeps(sys: Sys, target: Apps, step: AppStep, e: Env, k: Key, cid: Cid, names: Naming)
    requires Good(sys, names) && Agree(sys, k) && Loose(sys.world, k, cid)
    requires Stable(names) && StepAt(step, k, names) && Fits(sys.world, step, k, cid)
    ensures var after := ExecStep(sys, target, step, e).sys;
            && Kept(sys, after, k, cid, names)
            && (!Starts(step) && Claimed(sys.world, k, cid) ==> Claimed(after.world, k, cid))
  {
    hide Kept, Good, Agree, Loose, ExecStart, ExecRemove, ExecStartStopped, ExecStatus;
    match step
    case StartContainer(_, s) => StartKeeps(sys, k, s, e.first, cid, names);
    case RemoveContainer(_, _, _) => RemoveKeeps(sys, k, cid, e.first, names);
    case StartStoppedContainer(_, _, _) => StartStoppedKeeps(sys, k, cid, e, names);
    case StopContainer(_, _, _) => StatusKeeps(sys, k, cid, StopOp(sys.world, cid), Stopped, e.first, names);
    case PauseContainer(_, _, _) => StatusKeeps(sys, k, cid, PauseOp(sys.world, cid), Paused, e.first, names);
    case UnpauseContainer(_, _, _) => StatusKeeps(sys, k, cid, UnpauseOp(sys.world, cid), Running, e.first, names);
    case _ =>
  }

  // -------------------------------------------------------------- one block

  /** The shape of a service's block: its steps are its own, name one container,
      and remove nothing once they have started something. */
  ghost predicate Chain(steps: seq<AppStep>, k: Key, cid: Cid, names: Naming) {
    && (forall step <- steps :: step.DownloadImage? || StepAt(step, k, names))
    && (forall step <- steps :: NamesContainer(step) ==> step.containerId == cid)
    && (forall i, j | 0 <= i < j < |steps| :: Starts(steps[i]) ==> !Removes(steps[j]))
  }

  ghost predicate Started(steps: seq<AppStep>) { exists step <- steps :: Starts(step) }

  ghost predicate Removing(steps: seq<AppStep>) { exists step <- steps :: Removes(step) }

  lemma {:induction false} ChainKeeps(sys: Sys, target: Apps, steps: seq<AppStep>, es: seq<Env>,
                                      k: Key, cid: Cid, names: Naming)
    requires Stable(names) && |es| == |steps| && Chain(steps, k, cid, names)
    requires Good(sys, names) && Agree(sys, k) && Loose(sys.world, k, cid)
    requires Removing(steps) ==> Claimed(sys.world, k, cid)
    ensures var after := Run(sys, target, steps, es);
            && Kept(sys, after, k, cid, names)
            && (Claimed(sys.world, k, cid) && !Started(steps) ==> Claimed(after.world, k, cid))
  {
    if steps == [] {
      KeptSame(sys, sys, k, cid, names);
    } else {
      hide ExecStep, StepAt, Good, Agree, Kept, Loose, Claimed;
      var before, step := Init(steps), Last(steps);
      var mid := Run(sys, target, before, Init(es));
      ChainPrefix(steps, k, cid, names);
      ChainKeeps(sys, target, before, Init(es), k, cid, names);
      KeptParts(sys, mid, k, cid, names);
      if step.DownloadImage? {
        DownloadKeeps(mid, target, step, Last(es), k, cid, names);
      } else {
        assert Removes(step) ==> Claimed(mid.world, k, cid);
        LooseFits(mid.world, step, k, cid);
        StepKeeps(mid, target, step, Last(es), k, cid, names);
      }
      KeptTransitive(sys, mid, Run(sys, target, steps, es), k, cid, names);
    }
  }

  lemma LooseFits(w: World, step: AppStep, k: Key, cid: Cid)
    requires Loose(w, k, cid) && (NamesContainer(step) ==> step.containerId == cid)
    requires Removes(step) ==> Claimed(w, k, cid)
    ensures Fits(w, step, k, cid)
  {}

  lemma DownloadKeeps(sys: Sys, target: Apps, step: AppStep, e: Env, k: Key, cid: Cid, names: Naming)
    requires step.DownloadImage?
    requires Good(sys, names) && Agree(sys, k) && Loose(sys.world, k, cid)
    ensures var after := ExecStep(sys, target, step, e).sys;
            Kept(sys, after, k, cid, names) && after.world == sys.world
  {
    KeptSame(sys, ExecStep(sys, target, step, e).sys, k, cid, names);
  }

  lemma ChainPrefix(steps: seq<AppStep>, k: Key, cid: Cid, names: Naming)
    requires steps != [] && Chain(steps, k, cid, names)
    ensures Chain(Init(steps), k, cid, names)
    ensures Removing(Init(steps)) ==> Removing(steps)
    ensures Started(Init(steps)) ==> Started(steps)
    ensures Removes(Last(steps)) ==> Removing(steps) && !Started(Init(steps))
    ensures Starts(Last(steps)) ==> Started(steps)
    ensures Last(steps) in steps
  {
    hide StepAt;
    assert forall step <- Init(steps) :: step in steps;
  }

  lemma TransitionIsChain(a: nat, id: nat, cid: Cid, from: Mode, to: Mode, names: Naming)
    requires from != to
    ensures Chain(TransitionSteps(a, id, cid, from, to), Key(a, id), cid, names)
  {}

  lemma RecreateIsChain(a: nat, id: nat, cid: Cid, cur: Service, tgt: Service, names: Naming)
    requires tgt.appId == a && tgt.serviceId == id && tgt.ContainerName() in names(Key(a, id))
    ensures Chain(RecreateSteps(a, a, id, cid, cur, tgt), Key(a, id), cid, names)
  {}

  lemma EdgeIsChain(a: nat, id: nat, cid: Cid, tgt: Service, names: Naming)
    ensures Chain(DropSteps(a, id, Some(cid)), Key(a, id), cid, names)
    ensures tgt.appId == a && tgt.serviceId == id && tgt.ContainerName() in names(Key(a, id)) ==>
              Chain(AddSteps(a, tgt), Key(a, id), 0, names) && !Removing(AddSteps(a, tgt))
  {}

  lemma FoundTarget(target: Apps, k: Key, names: Naming)
    requires GoodTarget(target, names) && Find(target, k).Some?
    ensures var s := Find(target, k).value;
            s.appId == k.app && s.serviceId == k.svc && s.ContainerName() in names(k)
  {}

  lemma FoundEntry(view: Apps, k: Key, names: Naming)
    requires GoodView(view, names) && |Entries(view, k)| <= 1
    ensures Entries(view, k) == if Find(view, k).Some? then [Find(view, k).value] else []
    ensures Find(view, k).Some? ==> GoodEntry(k.app, Find(view, k).value, names)
  {
    LastIsEntry(ServicesOf(view, k.app), k.svc);
  }

  lemma BlockIsChain(view: Apps, target: Apps, gate: Gate, k: Key, names: Naming)
    requires GoodView(view, names) && GoodTarget(target, names)
    requires |Entries(view, k)| <= 1
    ensures var es := Entries(view, k);
            var steps := BlockSteps(One(k), view, target, gate);
            if es == [] then Chain(steps, k, 0, names) && !Removing(steps)
            else es[0].containerId.Some? && Chain(steps, k, es[0].containerId.value, names)
  {
    var cur, tgt := Find(view, k), Find(target, k);
    FoundEntry(view, k, names);
    if tgt.Some? { FoundTarget(target, k, names); }
    hide Chain, Removing, Entries, Find, TransitionSteps, RecreateSteps, DropSteps, AddSteps;
    var cid := if cur.Some? then cur.value.containerId.value else 0;
    EmptyIsChain(k, cid, names);
    if cur.Some? && tgt.Some? {
      if cur.value.Desired() != tgt.value.Desired() {
        TransitionIsChain(k.app, k.svc, cid, cur.value.Desired(), tgt.value.Desired(), names);
      }
      RecreateIsChain(k.app, k.svc, cid, cur.value, tgt.value, names);
    } else if tgt.Some? {
      EdgeIsChain(k.app, k.svc, cid, tgt.value, names);
    } else if cur.Some? {
      EdgeIsChain(k.app, k.svc, cid, cur.value, names);
    }
  }

  lemma EmptyIsChain(k: Key, cid: Cid, names: Naming)
    ensures Chain([], k, cid, names) && !Removing([])
  {}

  lemma ChainTake(steps: seq<AppStep>, m: nat, k: Key, cid: Cid, names: Naming)
    requires m <= |steps| && Chain(steps, k, cid, names)
    ensures Chain(steps[..m], k, cid, names) && (Removing(steps[..m]) ==> Removing(steps))
  {
    hide StepAt;
    assert forall step <- steps[..m] :: step in steps;
  }

  /** The first `m` steps of a service's block keep agreement on that service
      and touch no other. */
  lemma BlockKeeps(view: Apps, sys: Sys, target: Apps, gate: Gate, k: Key, m: nat, es: seq<Env>, names: Naming)
    requires Stable(names) && GoodView(view, names) && GoodTarget(target, names)
    requires Good(sys, names) && Agree(sys, k) && Entries(sys.view, k) == Entries(view, k)
    requires |es| == m <= |BlockSteps(One(k), view, target, gate)|
    ensures var after := Run(sys, target, BlockSteps(One(k), view, target, gate)[..m], es);
            && Good(after, names) && Agree(after, k)
            && forall o: Key :: o != k ==> Untouched(sys, after, o)
  {
    hide BlockSteps, Run, GoodTarget, GoodView, Chain, Removing;
    BlockIsChain(view, target, gate, k, names);
    var cid := if Entries(view, k) == [] then 0 else Entries(view, k)[0].containerId.value;
    ChainTake(BlockSteps(One(k), view, target, gate), m, k, cid, names);
    ChainKeeps(sys, target, BlockSteps(One(k), view, target, gate)[..m], es, k, cid, names);
  }

  // --------------------------------------------------------------- one pass

  predicate ResourceOnly(steps: seq<AppStep>) {
    forall step <- steps :: step.CreateVolume? || step.CreateNetwork? || step.RemoveNetwork? || step.RemoveVolume?
  }

  ghost predicate SameContainers(s1: Sys, s2: Sys) {
    s1.view == s2.view && s1.world.containers == s2.world.containers && s1.world.nextId == s2.world.nextId
  }

  lemma {:induction false} ResourcesKeep(sys: Sys, target: Apps, steps: seq<AppStep>, es: seq<Env>)
    requires |es| == |steps| && ResourceOnly(steps)
    ensures SameContainers(sys, Run(sys, target, steps, es))
  {
    if steps != [] {
      assert Last(steps) in steps && forall step <- Init(steps) :: step in steps;
      ResourcesKeep(sys, target, Init(steps), Init(es));
    }
  }

  lemma EachIsResource(action: ResourceAction, a: nat, names: seq<string>)
    ensures ResourceOnly(Each(action, a, names))
  {}

  lemma ResourceConcat(s1: seq<AppStep>, s2: seq<AppStep>)
    requires ResourceOnly(s1) && ResourceOnly(s2)
    ensures ResourceOnly(s1 + s2)
  {}

  lemma ResourceBlocks(b: Block, view: Apps, target: Apps, gate: Gate)
    requires !b.One?
    ensures ResourceOnly(BlockSteps(b, view, target, gate))
  {
    hide ResourceOnly, Each, Missing, ServiceSteps;
    var cur, tgt := ServicesOf(view, AppOf(b)), ServicesOf(target, AppOf(b));
    EachIsResource(MakeVolume, AppOf(b), Missing(VolumeNames(cur), VolumeNames(tgt)));
    EachIsResource(MakeNetwork, AppOf(b), Missing(NetworkNames(cur), NetworkNames(tgt)));
    EachIsResource(DropNetwork, AppOf(b), Missing(NetworkNames(tgt), NetworkNames(cur)));
    EachIsResource(DropVolume, AppOf(b), Missing(VolumeNames(tgt), VolumeNames(cur)));
    if b.Before? {
      ResourceConcat(Each(MakeVolume, AppOf(b), Missing(VolumeNames(cur), VolumeNames(tgt))),
                     Each(MakeNetwork, AppOf(b), Missing(NetworkNames(cur), NetworkNames(tgt))));
    } else {
      ResourceConcat(Each(DropNetwork, AppOf(b), Missing(NetworkNames(tgt), NetworkNames(cur))),
                     Each(DropVolume, AppOf(b), Missing(VolumeNames(tgt), VolumeNames(cur))));
    }
  }

  lemma SameKeeps(s1: Sys, s2: Sys, names: Naming)
    requires Good(s1, names) && SameContainers(s1, s2)
    ensures Good(s2, names) && forall k: Key :: Untouched(s1, s2, k)
  {}

  /** Every service is agreed upon. */
  ghost predicate AllAgree(sys: Sys, names: Naming) {
    Good(sys, names) && forall k: Key :: Agree(sys, k)
  }

  lemma {:induction false} BlocksKeep(sys: Sys, target: Apps, gate: Gate, bs: seq<Block>, n: nat, es: seq<Env>, names: Naming)
    requires Stable(names) && AllAgree(sys, names) && GoodTarget(target, names) && NoDup(bs)
    requires |es| == n <= |StepsOf(bs, sys.view, target, gate)|
    ensures var after := Run(sys, target, StepsOf(bs, sys.view, target, gate)[..n], es);
            && AllAgree(after, names)
            && forall k: Key :: One(k) !in bs ==> Untouched(sys, after, k)
  {
    hide BlockSteps, GoodTarget, Good, Agree, Untouched, ResourceOnly;
    var steps := StepsOf(bs, sys.view, target, gate);
    if bs == [] {
      SameKeeps(sys, sys, names);
    } else {
      LastIsNew(bs);
      var earlier, b := Init(bs), Last(bs);
      var first := StepsOf(earlier, sys.view, target, gate);
      if n <= |first| {
        BlocksKeep(sys, target, gate, earlier, n, es, names);
        assert steps[..n] == first[..n];
      } else {
        var m := n - |first|;
        var last := BlockSteps(b, sys.view, target, gate)[..m];
        assert steps[..n] == first + last && first[..|first|] == first && es == es[..|first|] + es[|first|..];
        var mid := Run(sys, target, first, es[..|first|]);
        BlocksKeep(sys, target, gate, earlier, |first|, es[..|first|], names);
        RunConcat(sys, target, first, last, es[..|first|], es[|first|..]);
        PartBlockKeeps(sys, mid, target, gate, b, m, es[|first|..], names);
        forall k: Key | One(k) !in bs
          ensures Untouched(sys, Run(mid, target, last, es[|first|..]), k)
        {
          assert One(k) !in earlier && One(k) != b;
          UntouchedTransitive(sys, mid, Run(mid, target, last, es[|first|..]), k);
        }
      }
    }
  }

  lemma PartBlockKeeps(start: Sys, sys: Sys, target: Apps, gate: Gate, b: Block, m: nat, es: seq<Env>, names: Naming)
    requires Stable(names) && AllAgree(start, names) && AllAgree(sys, names) && GoodTarget(target, names)
    requires b.One? ==> Untouched(start, sys, b.key)
    requires |es| == m <= |BlockSteps(b, start.view, target, gate)|
    ensures var after := Run(sys, target, BlockSteps(b, start.view, target, gate)[..m], es);
            && AllAgree(after, names)
            && forall k: Key :: b != One(k) ==> Untouched(sys, after, k)
  {
    hide BlockSteps, Run, Entries, GoodTarget, GoodWorld, GoodView;
    var steps := BlockSteps(b, start.view, target, gate)[..m];
    var after := Run(sys, target, steps, es);
    if b.One? {
      BlockKeeps(start.view, sys, target, gate, b.key, m, es, names);
    } else {
      ResourceBlocks(b, start.view, target, gate);
      ResourcesKeep(sys, target, steps, es);
      SameKeeps(sys, after, names);
    }
    forall k: Key
      ensures Agree(after, k)
    {
      if b != One(k) { UntouchedAgree(sys, after, k); }
    }
  }

  lemma {:induction false} FewEntriesNoDup(services: seq<Service>)
    requires forall id: nat :: |WithId(services, id)| <= 1
    ensures NoDup(Ids(services))
  {
    if services != [] {
      var earlier, s := Init(services), Last(services);
      forall id: nat
        ensures |WithId(earlier, id)| <= 1
      {
        assert |WithId(services, id)| <= 1;
      }
      FewEntriesNoDup(earlier);
      assert |WithId(services, s.serviceId)| <= 1;
      assert WithId(earlier, s.serviceId) == [];
      assert forall i | 0 <= i < |earlier| :: earlier[i] in earlier && services[i] == earlier[i];
      forall i, j | 0 <= i < j < |services|
        ensures Ids(services)[i] != Ids(services)[j]
      {
        if j < |earlier| { assert Ids(earlier)[i] != Ids(earlier)[j]; }
      }
    }
  }

  lemma AgreedIsWellKeyed(sys: Sys, names: Naming)
    requires AllAgree(sys, names)
    ensures WellKeyed(sys.view)
  {
    forall a | a in sys.view
      ensures NoDup(Ids(sys.view[a].services))
    {
      forall id: nat
        ensures |WithId(sys.view[a].services, id)| <= 1
      {
        assert Agree(sys, Key(a, id));
      }
      FewEntriesNoDup(sys.view[a].services);
    }
  }

  /** After every executed step of every pass, whatever failed so far, each
      service has at most one container and the view names exactly the
      containers there are. */
  lemma PassKeepsAgreement(sys: Sys, target: Apps, gate: Gate, n: nat, es: seq<Env>, names: Naming)
    requires Stable(names) && AllAgree(sys, names) && GoodTarget(target, names)
    requires |es| == n <= |Plan(sys.view, target, gate)|
    ensures AllAgree(Run(sys, target, Plan(sys.view, target, gate)[..n], es), names)
  {
    hide Plan, StepsOf, GoodTarget, Run, Good, Agree;
    AgreedIsWellKeyed(sys, names);
    TargetWellKeyed(target, names);
    PlanIsBlocks(sys.view, target, gate);
    BlocksOrdered(sys.view, target);
    BlocksKeep(sys, target, gate, BlocksOf(sys.view, target), n, es, names);
  }

  lemma TargetWellKeyed(target: Apps, names: Naming)
    requires GoodTarget(target, names)
    ensures WellKeyed(target)
  {}

  // ------------------------------------------------------- what agreement means

  ghost predicate OnePerService(w: World) {
    forall i <- w.containers, j <- w.containers :: w.containers[i].key == w.containers[j].key ==> i == j
  }

  ghost predicate InView(view: Apps, k: Key, id: Cid) {
    exists s <- ServicesOf(view, k.app) :: s.serviceId == k.svc && s.containerId == Some(id)
  }

  ghost predicate InDocker(w: World, k: Key, id: Cid) {
    id in w.containers && w.containers[id].key == k
  }

  /** The triples (app, service, container) of the view and of Docker are the same. */
  ghost predicate SameTriples(sys: Sys) {
    forall k: Key, id: Cid :: InView(sys.view, k, id) <==> InDocker(sys.world, k, id)
  }

  lemma AgreementMeans(sys: Sys, names: Naming)
    requires AllAgree(sys, names)
    ensures OnePerService(sys.world) && SameTriples(sys)
  {
    forall i, j | i in sys.world.containers && j in sys.world.containers
                  && sys.world.containers[i].key == sys.world.containers[j].key
      ensures i == j
    {
      assert Agree(sys, sys.world.containers[i].key);
    }
    forall k: Key, id: Cid
      ensures InView(sys.view, k, id) <==> InDocker(sys.world, k, id)
    {
      assert Agree(sys, k);
      if InView(sys.view, k, id) {
        var s :| s in ServicesOf(sys.view, k.app) && s.serviceId == k.svc && s.containerId == Some(id);
        assert s in Entries(sys.view, k);
      }
      if InDocker(sys.world, k, id) {
        assert Entries(sys.view, k)[0] in Entries(sys.view, k);
      }
    }
  }
}
