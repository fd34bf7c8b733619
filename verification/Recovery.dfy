/** Reconciliation recovers: whatever has failed before, a few failure-free passes
    bring the engine to any sound target. */
module Recovery {
  import opened Basics
  import opened Compose
  import opened Ports
  import opened Engine
  import opened Retry
  import opened Planner
  import opened Execution
  import opened Blocks
  import opened Agreement
  import opened Robust
  import opened Restarts
  import opened Runs
  import opened CleanSteps
  import opened CleanPass
  import opened Convergence
  import opened Stabilisation

  /** Every network that a running or paused container lists exists. */
  ghost predicate Joined(w: World) {
    forall id <- w.containers :: Active(w.containers[id]) ==>
      forall n <- w.containers[id].config.Networks() :: NetName(Decimal(w.containers[id].key.app), n) in w.networks
  }

  lemma StartJoins(w: World, s: Service)
    requires Joined(w)
    ensures Joined(StartOp(w, s).world)
  {
    if Accepted(s, w.networks) { AttachedExist(s, w.networks); }
    hide NamedVolumes, NameTaken, Accepted, Report;
  }

  lemma StatusJoins(w: World, cid: Cid, status: Status)
    requires Joined(w) && cid in w.containers && (status == StExited || Active(w.containers[cid]))
    ensures Joined(SetStatus(w, cid, status))
  {}

  lemma RemovalSparesJoined(w: World, a: nat, n: string)
    requires Joined(w)
    ensures Joined(RemoveNetworkOp(w, a, Decimal(a), n).world)
  {
    var after := RemoveNetworkOp(w, a, Decimal(a), n).world;
    forall id, x | id in w.containers && Active(w.containers[id]) && x in w.containers[id].config.Networks()
      ensures NetName(Decimal(w.containers[id].key.app), x) in after.networks
    {
      var b := w.containers[id].key.app;
      if NetName(Decimal(b), x) == NetName(Decimal(a), n) { DecimalInjective(a, b); }
    }
  }

  /** No step, whether its calls are lost or not, takes a network from under an
      active container. */
  lemma StepKeepsJoined(sys: Sys, target: Apps, step: AppStep, e: Env, names: Naming)
    requires Joined(sys.world) && Good(sys, names)
    ensures Joined(ExecStep(sys, target, step, e).sys.world)
  {
    var w := sys.world;
    match step
    case RemoveNetwork(a, n) => RemovalSparesJoined(w, a, n);
    case StartContainer(_, s) => StartJoins(w, s);
    case StartStoppedContainer(a, id, cid) =>
      var found := FirstById(ServicesOf(sys.view, a), id);
      if found.Some? { StartJoins(RemoveOp(w, cid).world, found.value); }
      hide StartOp, RemoveService, AddService, GoodWorld, GoodView;
    case StopContainer(_, _, cid) =>
      if cid in w.containers { StatusJoins(w, cid, StExited); }
    case PauseContainer(_, _, cid) =>
      if cid in w.containers && w.containers[cid].status == StRunning { StatusJoins(w, cid, StPaused); }
    case UnpauseContainer(_, _, cid) =>
      if cid in w.containers && w.containers[cid].status == StPaused { StatusJoins(w, cid, StRunning); }
    case _ =>
  }

  lemma {:induction false} RunKeepsJoined(sys: Sys, target: Apps, steps: seq<AppStep>, es: seq<Env>, names: Naming)
    requires Stable(names) && Sane(sys, names) && Joined(sys.world)
    requires |es| == |steps| && forall step <- steps :: GoodStart(step, names)
    ensures Joined(Run(sys, target, steps, es).world)
  {
    if steps != [] {
      assert Last(steps) in steps && forall step <- Init(steps) :: step in steps;
      RunKeepsJoined(sys, target, Init(steps), Init(es), names);
      RunIsSane(sys, target, Init(steps), Init(es), names);
      hide Joined, Stable, ExecStep, GoodStart, Good, OnePerService;
      StepKeepsJoined(Run(sys, target, Init(steps), Init(es)), target, Last(steps), Last(es), names);
    }
  }

  lemma PlanKeepsJoined(sys: Sys, target: Apps, gate: Gate, es: seq<Env>, names: Naming)
    requires Stable(names) && Sane(sys, names) && Joined(sys.world) && GoodTarget(target, names)
    requires |es| <= |Plan(sys.view, target, gate)|
    ensures Joined(Run(sys, target, Plan(sys.view, target, gate)[..|es|], es).world)
  {
    hide PlanFor, GoodStart, Sane, Stable, GoodTarget, AppOrder, Joined;
    PlanForStarts(sys.view, target, AppOrder(sys.view, target), gate, names);
    var steps := Plan(sys.view, target, gate)[..|es|];
    assert forall step <- steps :: step in Plan(sys.view, target, gate);
    RunKeepsJoined(sys, target, steps, es, names);
  }

  lemma RestartKeepsJoined(sys: Sys, cid: Cid, lost: Losses)
    requires Joined(sys.world)
    ensures Joined(ExecRestart(sys, cid, lost).world)
  {
    var found := FindContainer(sys.view, Ascending(sys.view.Keys), cid);
    if found.Some? {
      var stopped := StopOp(sys.world, cid).world;
      if cid in sys.world.containers { StatusJoins(sys.world, cid, StExited); }
      assert Joined(stopped) && Joined(RemoveOp(stopped, cid).world);
      StartJoins(RemoveOp(stopped, cid).world, found.value.1);
    }
    hide Joined, StartOp, StopOp, RemoveOp, FindContainer, RemoveService, AddService;
  }

  lemma EventKeepsJoined(m: Manager, event: Event, names: Naming)
    requires Stable(names) && Sane(m.sys, names) && Joined(m.sys.world)
    requires GoodTarget(m.target, names) && Enabled(m, event, names)
    ensures Joined(Happen(m, event, names).sys.world)
  {
    hide Joined, GoodTarget, Plan, Run, SyncView, IsListing;
    match event
    case Reconcile(now, es) =>
      var plan := Plan(m.sys.view, m.target, Gate(m.sys.retries, now));
      assert plan[..|plan|] == plan;
      PlanKeepsJoined(m.sys, m.target, Gate(m.sys.retries, now), es, names);
    case Restart(cid, lost) => RestartKeepsJoined(m.sys, cid, lost);
    case _ =>
  }

  lemma {:induction false} RunsKeepJoined(ms: seq<Manager>, events: seq<Event>, names: Naming, n: nat)
    requires Stable(names) && IsRun(ms, events, names) && n < |ms|
    requires AllAgree(ms[0].sys, names) && GoodTarget(ms[0].target, names) && Joined(ms[0].sys.world)
    ensures Joined(ms[n].sys.world)
  {
    if n > 0 {
      hide AllAgree, GoodTarget, Joined, Sane, Trusted, Stable;
      RunsKeepJoined(ms, events, names, n - 1);
      RunAgrees(ms, events, names, n - 1);
      EventKeepsJoined(ms[n - 1], events[n - 1], names);
    }
  }

  /** Recovery. After any run of syncs, new targets, failing passes and failing
      restarts, even one broken off inside a pass, two failure-free passes (four if
      paused services are wanted) bring the engine to any sound target. */
  lemma RecoversFromAnyRun(ms: seq<Manager>, events: seq<Event>, names: Naming, w: World, listing: seq<Cid>, n: nat,
                           now: int, es: seq<Env>, target: Apps, ws: seq<World>, i: nat)
    requires Stable(names) && IsRun(ms, events, names) && n < |ms| && Initial(ms[0], names, w, listing) && Joined(w)
    requires |es| <= |Plan(ms[n].sys.view, ms[n].target, Gate(ms[n].sys.retries, now))|
    requires IsTrace(ws, target) && ws[0] == Midway(ms[n], now, es).world
    requires WellPosed(target, names) && Sound(target) && AllSupported(ws[0], target)
    requires Passes(AllRunning(target)) <= i < |ws|
    ensures AtTarget(ws[i], target) && Done(ws[i], target)
  {
    hide Plan, Run, GoodTarget, Joined, SyncView, IsListing, AllAgree, Stable, Sane, IsTrace, WellPosed, Sound, AllSupported, AtTarget, Done, AllRunning, Trusted;
    SyncAgrees(w, listing, ms[0].sys.retries, names);
    RunAgrees(ms, events, names, n);
    RunsKeepJoined(ms, events, names, n);
    PlanIsSane(ms[n].sys, ms[n].target, Gate(ms[n].sys.retries, now), |es|, es, names);
    PlanKeepsJoined(ms[n].sys, ms[n].target, Gate(ms[n].sys.retries, now), es, names);
    SaneIsAdmissible(Midway(ms[n], now, es), target, names);
    Stabilises(ws, target, names, i);
  }

  lemma SaneIsAdmissible(sys: Sys, target: Apps, names: Naming)
    requires Sane(sys, names) && Joined(sys.world)
    ensures Admissible(sys.world, target, names)
  {}
}
