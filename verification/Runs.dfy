/** Whole runs of the manager: syncs, new targets, reconciliation passes and
    restarts in any order, with any engine calls failing. */
module Runs {
  import opened Basics
  import opened Compose
  import opened Ports
  import opened Engine
  import opened Retry
  import opened Planner
  import opened Execution
  import opened Blocks
  import opened Agreement
  import opened Robust
  import opened Restarts

  // -------------------------------------------------------- reading Docker back

  /** What the sync enters for service `k`: its container, if it has been listed. */
  ghost predicate Mirrors(view: Apps, w: World, listing: seq<Cid>, k: Key) {
    && (forall id <- listing :: id in w.containers && w.containers[id].key == k ==>
          Entries(view, k) == [ViewOf(id, w.containers[id])])
    && ((forall id <- listing :: id in w.containers ==> w.containers[id].key != k) ==> Entries(view, k) == [])
  }

  lemma {:induction false} SyncMirrors(w: World, listing: seq<Cid>, k: Key)
    requires OnePerService(w) && NoDup(listing) && forall id <- listing :: id in w.containers
    ensures Mirrors(SyncView(w, listing), w, listing, k)
  {
    if listing != [] {
      LastIsNew(listing);
      var earlier, id := Init(listing), Last(listing);
      var c := w.containers[id];
      SyncMirrors(w, earlier, k);
      SyncedEntries(SyncView(w, earlier), id, c, k);
      assert forall x :: x in listing <==> x in earlier || x == id;
      if c.key == k {
        assert forall x <- earlier :: w.containers[x].key != k;
      }
    }
  }

  lemma SyncedEntries(view: Apps, id: Cid, c: Container, k: Key)
    ensures Entries(SyncOne(view, id, c), k)
         == Entries(view, k) + if c.key == k then [ViewOf(id, c)] else []
  {
    if k.app == c.key.app { WithIdSnoc(ServicesOf(view, k.app), ViewOf(id, c), k.svc); }
  }

  lemma {:induction false} SyncIsGood(w: World, listing: seq<Cid>, names: Naming)
    requires GoodWorld(w, names) && forall id <- listing :: id in w.containers
    ensures GoodView(SyncView(w, listing), names)
  {
    if listing != [] {
      var id := Last(listing);
      SyncIsGood(w, Init(listing), names);
      assert GoodEntry(w.containers[id].key.app, ViewOf(id, w.containers[id]), names);
    }
  }

  /** A sync restores agreement whatever the view said before. */
  lemma SyncAgrees(w: World, listing: seq<Cid>, retries: Retries, names: Naming)
    requires GoodWorld(w, names) && OnePerService(w) && IsListing(listing, w)
    ensures AllAgree(Sys(SyncView(w, listing), w, retries), names)
  {
    var sys := Sys(SyncView(w, listing), w, retries);
    SyncIsGood(w, listing, names);
    forall k: Key
      ensures Agree(sys, k)
    {
      SyncMirrors(w, listing, k);
      if id :| id in w.containers && w.containers[id].key == k {
        assert id in listing;
        assert Sole(w, k, id);
      }
    }
  }

  // ---------------------------------------------------------------------- runs

  datatype Manager = Manager(sys: Sys, target: Apps)

  datatype Event =
    | Sync(listing: seq<Cid>)
    | Retarget(target: Apps)
    | Reconcile(now: int, es: seq<Env>)
    | Restart(cid: Cid, lost: Losses)

  ghost predicate Enabled(m: Manager, event: Event, names: Naming) {
    match event
    case Sync(listing) => IsListing(listing, m.sys.world)
    case Retarget(target) => GoodTarget(target, names)
    case Reconcile(now, es) => |es| == |Plan(m.sys.view, m.target, Gate(m.sys.retries, now))|
    case Restart(_, _) => true
  }

  ghost function Happen(m: Manager, event: Event, names: Naming): Manager
    requires Enabled(m, event, names)
  {
    match event
    case Sync(listing) => m.(sys := m.sys.(view := SyncView(m.sys.world, listing)))
    case Retarget(target) => m.(target := target)
    case Reconcile(now, es) =>
      m.(sys := Run(m.sys, m.target, Plan(m.sys.view, m.target, Gate(m.sys.retries, now)), es))
    case Restart(cid, lost) => m.(sys := ExecRestart(m.sys, cid, lost))
  }

  ghost predicate IsRun(ms: seq<Manager>, events: seq<Event>, names: Naming) {
    && |ms| == |events| + 1
    && forall i | 0 <= i < |events| ::
         Enabled(ms[i], events[i], names) && ms[i + 1] == Happen(ms[i], events[i], names)
  }

  /** No restart since the last sync has removed a container without replacing it. */
  ghost predicate Trusted(ms: seq<Manager>, events: seq<Event>, n: nat)
    requires |ms| == |events| + 1 && n < |ms|
  {
    n == 0 ||
    match events[n - 1]
    case Sync(_) => true
    case Restart(cid, lost) => Trusted(ms, events, n - 1) && !LosesContainer(ms[n - 1].sys, cid, lost)
    case _ => Trusted(ms, events, n - 1)
  }

  lemma {:induction false} RunAgrees(ms: seq<Manager>, events: seq<Event>, names: Naming, n: nat)
    requires Stable(names) && IsRun(ms, events, names) && n < |ms|
    requires AllAgree(ms[0].sys, names) && GoodTarget(ms[0].target, names)
    ensures Sane(ms[n].sys, names) && GoodTarget(ms[n].target, names)
    ensures Trusted(ms, events, n) ==> AllAgree(ms[n].sys, names)
  {
    hide AllAgree, GoodTarget, Plan, Run, SyncView, IsListing, LosesContainer, Sane;
    if n == 0 {
      AgreedIsSane(ms[0].sys, names);
    } else {
      RunAgrees(ms, events, names, n - 1);
      EventIsSane(ms[n - 1], events[n - 1], names);
      EventAgrees(ms[n - 1], events[n - 1], names);
    }
  }

  lemma AgreedIsSane(sys: Sys, names: Naming)
    requires AllAgree(sys, names)
    ensures Sane(sys, names)
  {
    AgreementMeans(sys, names);
  }

  lemma EventIsSane(m: Manager, event: Event, names: Naming)
    requires Stable(names) && Sane(m.sys, names) && GoodTarget(m.target, names) && Enabled(m, event, names)
    ensures var after := Happen(m, event, names);
            Sane(after.sys, names) && GoodTarget(after.target, names)
  {
    hide GoodTarget, Plan, Run, SyncView, IsListing;
    match event
    case Sync(listing) =>
      SyncAgrees(m.sys.world, listing, m.sys.retries, names);
      AgreedIsSane(Happen(m, event, names).sys, names);
    case Retarget(_) =>
    case Reconcile(now, es) =>
      var plan := Plan(m.sys.view, m.target, Gate(m.sys.retries, now));
      assert plan[..|plan|] == plan;
      PlanIsSane(m.sys, m.target, Gate(m.sys.retries, now), |plan|, es, names);
    case Restart(cid, lost) => RestartIsSane(m.sys, cid, lost, names);
  }

  /** A sync agrees whatever was before; any other event keeps agreement, but for a
      restart that loses its container. */
  lemma EventAgrees(m: Manager, event: Event, names: Naming)
    requires Stable(names) && Sane(m.sys, names) && GoodTarget(m.target, names) && Enabled(m, event, names)
    ensures event.Sync? ==> AllAgree(Happen(m, event, names).sys, names)
    ensures AllAgree(m.sys, names) && (event.Restart? ==> !LosesContainer(m.sys, event.cid, event.lost)) ==>
      AllAgree(Happen(m, event, names).sys, names)
  {
    hide GoodTarget, Plan, Run, SyncView, IsListing, LosesContainer, AllAgree;
    match event
    case Sync(listing) => SyncAgrees(m.sys.world, listing, m.sys.retries, names);
    case Retarget(_) =>
    case Reconcile(now, es) =>
      var plan := Plan(m.sys.view, m.target, Gate(m.sys.retries, now));
      assert plan[..|plan|] == plan;
      if AllAgree(m.sys, names) {
        PassKeepsAgreement(m.sys, m.target, Gate(m.sys.retries, now), |plan|, es, names);
      }
    case Restart(cid, lost) =>
      if AllAgree(m.sys, names) { RestartKeepsAgreement(m.sys, cid, lost, names); }
  }

  /** The state part-way through a reconcile. */
  ghost function Midway(m: Manager, now: int, es: seq<Env>): Sys
    requires |es| <= |Plan(m.sys.view, m.target, Gate(m.sys.retries, now))|
  {
    Run(m.sys, m.target, Plan(m.sys.view, m.target, Gate(m.sys.retries, now))[..|es|], es)
  }

  /** Where runs start: one container a service, and a view read from the engine. */
  ghost predicate Initial(m: Manager, names: Naming, w: World, listing: seq<Cid>) {
    && GoodWorld(w, names) && OnePerService(w) && IsListing(listing, w)
    && m.sys.view == SyncView(w, listing) && m.sys.world == w
    && GoodTarget(m.target, names)
  }

  /** Safety over every run of syncs, new targets, failing passes and failing
      restarts, and part-way through each pass: no service ever has two containers;
      and the view names exactly the containers there are, unless a restart since
      the last sync has removed a container without replacing it. */
  lemma EveryRunIsSafe(ms: seq<Manager>, events: seq<Event>, names: Naming,
                       w: World, listing: seq<Cid>, n: nat)
    requires Stable(names) && IsRun(ms, events, names) && n < |ms| && Initial(ms[0], names, w, listing)
    ensures OnePerService(ms[n].sys.world)
    ensures Trusted(ms, events, n) ==> SameTriples(ms[n].sys)
    ensures forall now: int, es: seq<Env> ::
      |es| <= |Plan(ms[n].sys.view, ms[n].target, Gate(ms[n].sys.retries, now))| ==>
        && OnePerService(Midway(ms[n], now, es).world)
        && (Trusted(ms, events, n) ==> SameTriples(Midway(ms[n], now, es)))
  {
    hide AllAgree, GoodTarget, Plan, Run, SyncView, IsListing, OnePerService, SameTriples, Trusted;
    SyncAgrees(w, listing, ms[0].sys.retries, names);
    RunAgrees(ms, events, names, n);
    if Trusted(ms, events, n) { AgreementMeans(ms[n].sys, names); }
    forall now: int, es: seq<Env>
      | |es| <= |Plan(ms[n].sys.view, ms[n].target, Gate(ms[n].sys.retries, now))|
      ensures OnePerService(Midway(ms[n], now, es).world)
      ensures Trusted(ms, events, n) ==> SameTriples(Midway(ms[n], now, es))
    {
      var gate := Gate(ms[n].sys.retries, now);
      PlanIsSane(ms[n].sys, ms[n].target, gate, |es|, es, names);
      if Trusted(ms, events, n) {
        PassKeepsAgreement(ms[n].sys, ms[n].target, gate, |es|, es, names);
        AgreementMeans(Midway(ms[n], now, es), names);
      }
    }
  }
}
