/** What every step keeps however wrong the view is: names stop a second container
    of a service, so that agreement is not needed for that. */
module Robust {
  import opened Basics
  import opened Compose
  import opened Ports
  import opened Engine
  import opened Retry
  import opened Planner
  import opened Execution
  import opened Blocks
  import opened Agreement

  /** The engine is in order and the view well formed, whether or not they agree. */
  ghost predicate Sane(sys: Sys, names: Naming) {
    Good(sys, names) && OnePerService(sys.world)
  }

  /** A start is for the service it names. */
  ghost predicate GoodStart(step: AppStep, names: Naming) {
    step.StartContainer? ==>
      && step.service.appId == step.appId
      && step.service.ContainerName() in names(Key(step.appId, step.service.serviceId))
  }

  lemma StartIsSane(sys: Sys, a: nat, s: Service, lost: bool, names: Naming)
    requires Stable(names) && Sane(sys, names)
    requires s.appId == a && s.ContainerName() in names(Key(a, s.serviceId))
    ensures Sane(ExecStart(sys, a, s, lost).sys, names)
  {
    var r := ExecStart(sys, a, s, lost);
    if r.ok {
      hide StartOp, NewContainer, AddService;
      StartedWorld(sys.world, Key(a, s.serviceId), s, names);
      StartedView(sys.view, Key(a, s.serviceId), s, sys.world.nextId, names);
      StartedKey(s, sys.world.networks);
    }
  }

  lemma RemoveIsSane(sys: Sys, a: nat, id: nat, cid: Cid, lost: bool, names: Naming)
    requires Sane(sys, names)
    ensures Sane(ExecRemove(sys, a, id, cid, lost).sys, names)
  {}

  lemma StartStoppedIsSane(sys: Sys, a: nat, id: nat, cid: Cid, e: Env, names: Naming)
    requires Stable(names) && Sane(sys, names)
    ensures Sane(ExecStartStopped(sys, a, id, cid, e).sys, names)
  {
    var found := FirstById(ServicesOf(sys.view, a), id);
    if found.Some? {
      assert GoodEntry(a, found.value, names);
      var removed := ExecRemove(sys, a, id, cid, e.first);
      RemoveIsSane(sys, a, id, cid, e.first, names);
      hide ExecRemove, ExecStart, Sane;
      if removed.ok { StartIsSane(removed.sys, a, found.value, e.second, names); }
    }
  }

  lemma StatusIsSane(sys: Sys, a: nat, id: nat, cid: Cid, r: Reply, state: Mode, lost: bool, names: Naming)
    requires Sane(sys, names)
    requires r.ok ==> cid in sys.world.containers && exists status :: r.world == SetStatus(sys.world, cid, status)
    ensures Sane(ExecStatus(sys, a, id, r, state, lost).sys, names)
  {
    if a in sys.view { WithStateGood(sys.view[a].services, id, state, a, names); }
  }

  lemma AnyStepIsSane(sys: Sys, target: Apps, step: AppStep, e: Env, names: Naming)
    requires Stable(names) && Sane(sys, names) && GoodStart(step, names)
    ensures Sane(ExecStep(sys, target, step, e).sys, names)
  {
    hide ExecStart, ExecRemove, ExecStartStopped, ExecStatus, Stable;
    match step
    case StartContainer(a, s) => StartIsSane(sys, a, s, e.first, names);
    case RemoveContainer(a, id, cid) => RemoveIsSane(sys, a, id, cid, e.first, names);
    case StartStoppedContainer(a, id, cid) => StartStoppedIsSane(sys, a, id, cid, e, names);
    case StopContainer(a, id, cid) => StatusIsSane(sys, a, id, cid, StopOp(sys.world, cid), Stopped, e.first, names);
    case PauseContainer(a, id, cid) => StatusIsSane(sys, a, id, cid, PauseOp(sys.world, cid), Paused, e.first, names);
    case UnpauseContainer(a, id, cid) => StatusIsSane(sys, a, id, cid, UnpauseOp(sys.world, cid), Running, e.first, names);
    case _ =>
  }

  lemma {:induction false} RunIsSane(sys: Sys, target: Apps, steps: seq<AppStep>, es: seq<Env>, names: Naming)
    requires Stable(names) && Sane(sys, names) && |es| == |steps| && forall step <- steps :: GoodStart(step, names)
    ensures Sane(Run(sys, target, steps, es), names)
  {
    if steps != [] {
      hide Sane, Stable, ExecStep, GoodStart;
      assert Last(steps) in steps && forall step <- Init(steps) :: step in steps;
      RunIsSane(sys, target, Init(steps), Init(es), names);
      AnyStepIsSane(Run(sys, target, Init(steps), Init(es)), target, Last(steps), Last(es), names);
    }
  }

  // ------------------------------------------------- the starts of any plan at all

  ghost predicate GoodStarts(steps: seq<AppStep>, names: Naming) {
    forall step <- steps :: GoodStart(step, names)
  }

  lemma StartsJoin(s1: seq<AppStep>, s2: seq<AppStep>, names: Naming)
    requires GoodStarts(s1, names) && GoodStarts(s2, names)
    ensures GoodStarts(s1 + s2, names)
  {}

  ghost predicate GoodService(a: nat, s: Service, names: Naming) {
    s.appId == a && s.ContainerName() in names(Key(a, s.serviceId))
  }

  lemma ServiceStarts(curApp: nat, a: nat, id: nat, cur: Option<Service>, tgt: Option<Service>, gate: Gate, names: Naming)
    requires tgt.Some? ==> GoodService(a, tgt.value, names)
    ensures GoodStarts(ServiceSteps(curApp, a, id, cur, tgt, gate), names)
  {
    hide Drifted, Allows;
  }

  lemma {:induction false} AddStarts(a: nat, services: seq<Service>, names: Naming)
    requires forall s <- services :: GoodService(a, s, names)
    ensures GoodStarts(AddAppSteps(a, services), names)
  {
    if services != [] {
      assert Last(services) in services && forall s <- Init(services) :: s in services;
      AddStarts(a, Init(services), names);
    }
  }

  lemma {:induction false} UpdateStarts(cur: App, tgt: App, ids: seq<nat>, gate: Gate, names: Naming)
    requires forall s <- tgt.services :: GoodService(tgt.appId, s, names)
    ensures GoodStarts(UpdateAppSteps(cur, tgt, ids, gate), names)
  {
    if ids != [] {
      hide ServiceSteps, GoodStart;
      var id := Last(ids);
      UpdateStarts(cur, tgt, Init(ids), gate, names);
      ServiceStarts(cur.appId, tgt.appId, id, LastById(cur.services, id), LastById(tgt.services, id), gate, names);
    }
  }

  lemma {:induction false} RemoveStarts(a: nat, services: seq<Service>, names: Naming)
    ensures GoodStarts(RemoveAppSteps(a, services), names)
  {
    if services != [] { RemoveStarts(a, Init(services), names); }
  }

  lemma EachStarts(action: ResourceAction, a: nat, ns: seq<string>, names: Naming)
    ensures GoodStarts(Each(action, a, ns), names)
  {}

  lemma ContainerStarts(cur: Option<App>, tgt: Option<App>, gate: Gate, names: Naming)
    requires tgt.Some? ==> forall s <- tgt.value.services :: GoodService(tgt.value.appId, s, names)
    ensures GoodStarts(ContainerSteps(cur, tgt, gate), names)
  {
    match (cur, tgt)
    case (None, None) =>
    case (Some(x), None) => RemoveStarts(x.appId, x.services, names);
    case (None, Some(y)) => AddStarts(y.appId, y.services, names);
    case (Some(x), Some(y)) => UpdateStarts(x, y, Dedup(Ids(x.services) + Ids(y.services)), gate, names);
  }

  lemma AppStarts(a: nat, cur: Option<App>, tgt: Option<App>, gate: Gate, names: Naming)
    requires tgt.Some? ==> forall s <- tgt.value.services :: GoodService(tgt.value.appId, s, names)
    ensures GoodStarts(AppSteps(a, cur, tgt, gate), names)
  {
    hide GoodStarts, Each, ContainerSteps;
    var c, t := Services(cur), Services(tgt);
    var makeV, makeN := Each(MakeVolume, a, Missing(VolumeNames(c), VolumeNames(t))), Each(MakeNetwork, a, Missing(NetworkNames(c), NetworkNames(t)));
    var dropN, dropV := Each(DropNetwork, a, Missing(NetworkNames(t), NetworkNames(c))), Each(DropVolume, a, Missing(VolumeNames(t), VolumeNames(c)));
    EachStarts(MakeVolume, a, Missing(VolumeNames(c), VolumeNames(t)), names);
    EachStarts(MakeNetwork, a, Missing(NetworkNames(c), NetworkNames(t)), names);
    EachStarts(DropNetwork, a, Missing(NetworkNames(t), NetworkNames(c)), names);
    EachStarts(DropVolume, a, Missing(VolumeNames(t), VolumeNames(c)), names);
    StartsJoin(makeV, makeN, names);
    StartsJoin(dropN, dropV, names);
    ContainerStarts(cur, tgt, gate, names);
    StartsJoin(makeV + makeN, ContainerSteps(cur, tgt, gate), names);
    StartsJoin(makeV + makeN + ContainerSteps(cur, tgt, gate), dropN + dropV, names);
  }

  lemma {:induction false} PlanForStarts(view: Apps, target: Apps, order: seq<nat>, gate: Gate, names: Naming)
    requires GoodTarget(target, names)
    ensures GoodStarts(PlanFor(view, target, order, gate), names)
  {
    if order != [] {
      hide AppSteps;
      var a := Last(order);
      PlanForStarts(view, target, Init(order), gate, names);
      AppStarts(a, AppAt(view, a), AppAt(target, a), gate, names);
    }
  }

  /** No prefix of any plan, made from whatever view and whatever fails, gives a
      service two containers. */
  lemma PlanIsSane(sys: Sys, target: Apps, gate: Gate, n: nat, es: seq<Env>, names: Naming)
    requires Stable(names) && Sane(sys, names) && GoodTarget(target, names)
    requires |es| == n <= |Plan(sys.view, target, gate)|
    ensures Sane(Run(sys, target, Plan(sys.view, target, gate)[..n], es), names)
  {
    hide PlanFor, GoodStart, Sane, Stable, GoodTarget, AppOrder;
    PlanForStarts(sys.view, target, AppOrder(sys.view, target), gate, names);
    var steps := Plan(sys.view, target, gate)[..n];
    assert forall step <- steps :: step in Plan(sys.view, target, gate);
    RunIsSane(sys, target, steps, es, names);
  }
}
