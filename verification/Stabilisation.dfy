/** The convergence theorems: two passes suffice for running targets and four
    with paused ones; what never settles; and the exact condition on a target
    under which reconciliation settles from every world. */
module Stabilisation {
  import opened Basics
  import opened Compose
  import opened Ports
  import opened Engine
  import opened Retry
  import opened Planner
  import opened Execution
  import opened Blocks
  import opened Agreement
  import opened Runs
  import opened CleanSteps
  import opened CleanBlocks
  import opened CleanPass
  import opened Convergence
  import opened Expectations

  ghost predicate AllRunning(target: Apps) {
    forall k: Key :: Find(target, k).Some? ==> Find(target, k).value.Desired() == Running
  }

  /** Nothing is left to do, whatever order Docker lists its containers in. */
  ghost predicate Done(w: World, target: Apps) {
    forall listing: seq<Cid>, gate: Gate :: IsListing(listing, w) && AllAllowed(target, gate) ==>
      Plan(SyncView(w, listing), target, gate) == []
  }

  function Passes(allRunning: bool): (n: nat)
    ensures n == 2 || n == 4
  {
    if allRunning then 2 else 4
  }

  lemma {:induction false} TraceRanks(ws: seq<World>, target: Apps, names: Naming, bound: nat, i: nat)
    requires IsTrace(ws, target) && i < |ws| && WellPosed(target, names) && Sound(target)
    requires Admissible(ws[0], target, names) && AllSupported(ws[0], target) && Stocked(ws[0], target)
    requires RanksWithin(ws[0], target, bound)
    ensures Admissible(ws[i], target, names) && AllSupported(ws[i], target) && Stocked(ws[i], target)
    ensures RanksWithin(ws[i], target, if i <= bound then bound - i else 0)
  {
    if i > 0 {
      TraceRanks(ws, target, names, bound, i - 1);
      assert PassTo(ws[i - 1], target, ws[i - 1 + 1]);
      hide *;
      RanksFall(ws[i - 1], target, ws[i], names, if i - 1 <= bound then bound - (i - 1) else 0);
    }
  }

  lemma RanksFall(w: World, target: Apps, w': World, names: Naming, bound: nat)
    requires PassTo(w, target, w') && Admissible(w, target, names) && WellPosed(target, names) && Sound(target)
    requires AllSupported(w, target) && Stocked(w, target) && RanksWithin(w, target, bound)
    ensures Admissible(w', target, names) && AllSupported(w', target) && Stocked(w', target)
    ensures RanksWithin(w', target, if bound > 0 then bound - 1 else 0)
  {
    hide Admissible, WellPosed, Sound, AllSupported, PassTo, Find, ContainerOf, Rank, Stocked;
    PassStocks(w, target, w', names);
    PassLowersRanks(w, target, w', names);
    forall k: Key
      ensures Rank(Find(target, k), ContainerOf(w', k)) <= if bound > 0 then bound - 1 else 0
    {
      assert Rank(Find(target, k), ContainerOf(w, k)) <= bound;
    }
  }

  /** The passes still needed after the first, from any admissible world. */
  lemma RankAfterFirst(w: World, target: Apps, w': World, names: Naming)
    requires PassTo(w, target, w') && Admissible(w, target, names) && WellPosed(target, names) && Sound(target)
    requires AllSupported(w, target)
    ensures RanksWithin(w', target, Passes(AllRunning(target)) - 1)
  {
    hide PassTo, Admissible, WellPosed, Sound, AllSupported, Find, ContainerOf, Rank;
    PassStocks(w, target, w', names);
  }

  lemma RunningSupported(w: World, target: Apps)
    requires AllRunning(target)
    ensures AllSupported(w, target)
  {
    hide Find, ContainerOf;
  }

  /** Each target service has one container, in its desired state and with the image
      and every setting it asks for, and no other container is left. */
  ghost predicate AtTarget(w: World, target: Apps) {
    && OnePerService(w)
    && forall k: Key ::
      match Find(target, k)
      case None => ContainerOf(w, k) == None
      case Some(s) => ContainerOf(w, k).Some? && Serves(ContainerOf(w, k).value, s)
  }

  lemma ServesIff(c: Container, s: Service)
    ensures Serves(c, s) <==> !DriftOf(c, s) && ModeOf(c.status) == s.Desired()
  {
    DriftMeans(ViewOf(0, c), s);
    hide Drifted, Meets;
  }

  /** Once the listed networks exist, ranks of at most `bound` settle in that many
      failure-free passes. */
  lemma SettlesWithin(ws: seq<World>, target: Apps, names: Naming, bound: nat, i: nat)
    requires IsTrace(ws, target) && WellPosed(target, names) && Sound(target)
    requires Admissible(ws[0], target, names) && AllSupported(ws[0], target) && Stocked(ws[0], target)
    requires RanksWithin(ws[0], target, bound) && bound <= i < |ws|
    ensures AtTarget(ws[i], target) && Done(ws[i], target)
    ensures i + 1 < |ws| ==> ws[i + 1] == ws[i]
  {
    hide Find, ContainerOf, Rank, AllAllowed, GoodTarget, Disjoint, Sound, Supported, Ready, DriftOf, Serves, Plan, SyncView, Run;
    TraceRanks(ws, target, names, bound, i);
    assert Goal(ws[i], target);
    forall k: Key
      ensures match Find(target, k)
              case None => ContainerOf(ws[i], k) == None
              case Some(s) => ContainerOf(ws[i], k).Some? && Serves(ContainerOf(ws[i], k).value, s)
    {
      GoalMeans(ws[i], target, k);
      if Find(target, k).Some? { ServesIff(ContainerOf(ws[i], k).value, Find(target, k).value); }
    }
    forall listing: seq<Cid>, gate: Gate | IsListing(listing, ws[i]) && AllAllowed(target, gate)
      ensures Plan(SyncView(ws[i], listing), target, gate) == []
    {
      PlanEmptyIffGoal(ws[i], listing, target, gate, names);
    }
    if i + 1 < |ws| {
      assert PassTo(ws[i], target, ws[i + 1]);
      DoneStays(ws[i], target, ws[i + 1]);
    }
  }

  /** Self-stabilisation. From any admissible world two failure-free passes (four
      if paused services are wanted) reach the target; every later plan is empty
      and every later pass changes nothing. */
  lemma Stabilises(ws: seq<World>, target: Apps, names: Naming, i: nat)
    requires IsTrace(ws, target) && WellPosed(target, names) && Sound(target)
    requires Admissible(ws[0], target, names) && AllSupported(ws[0], target)
    requires Passes(AllRunning(target)) <= i < |ws|
    ensures AtTarget(ws[i], target) && Done(ws[i], target)
    ensures i + 1 < |ws| ==> ws[i + 1] == ws[i]
  {
    hide *;
    TraceTail(ws, target);
    var rest := ws[1..];
    PassStocks(ws[0], target, ws[1], names);
    RankAfterFirst(ws[0], target, ws[1], names);
    SettlesWithin(rest, target, names, Passes(AllRunning(target)) - 1, i - 1);
  }

  lemma TraceTail(ws: seq<World>, target: Apps)
    requires IsTrace(ws, target) && |ws| > 1
    ensures PassTo(ws[0], target, ws[1]) && IsTrace(ws[1..], target)
    ensures forall j | 1 <= j < |ws| :: ws[1..][j - 1] == ws[j]
  {
    hide PassTo;
    assert PassTo(ws[0], target, ws[0 + 1]);
    forall i | 0 <= i < |ws| - 2
      ensures PassTo(ws[1..][i], target, ws[1..][i + 1])
    {
      assert PassTo(ws[i + 1], target, ws[i + 1 + 1]);
    }
  }

  ghost predicate DistinctNames(target: Apps) {
    forall j: Key, k: Key :: j != k && Find(target, j).Some? && Find(target, k).Some? ==>
      Find(target, j).value.ContainerName() != Find(target, k).value.ContainerName()
  }

  /** Deploying for the first time: on an engine without containers, whatever
      networks and volumes it has, one pass is enough. */
  lemma FirstDeployment(ws: seq<World>, target: Apps, i: nat)
    requires IsTrace(ws, target) && WellKeyed(target) && DistinctNames(target) && Sound(target) && AllRunning(target)
    requires ws[0].containers == map[] && 0 < ws[0].nextId && 1 <= i < |ws|
    ensures AtTarget(ws[i], target) && Done(ws[i], target)
  {
    var names: Naming := (k: Key) => if Find(target, k).Some? then {Find(target, k).value.ContainerName()} else {};
    OwnNamesFit(target, names);
    RunningSupported(ws[0], target);
    assert Admissible(ws[0], target, names) && Stocked(ws[0], target);
    assert RanksWithin(ws[0], target, 1) by { hide Find, DriftOf; }
    hide *;
    SettlesWithin(ws, target, names, 1, i);
  }

  lemma OwnNamesFit(target: Apps, names: Naming)
    requires WellKeyed(target) && DistinctNames(target)
    requires forall k: Key ::
      names(k) == if Find(target, k).Some? then {Find(target, k).value.ContainerName()} else {}
    ensures WellPosed(target, names)
  {
    forall a, s | a in target && s in target[a].services
      ensures s.ContainerName() in names(Key(a, s.serviceId))
    {
      var i :| 0 <= i < |target[a].services| && target[a].services[i] == s;
      UniqueIsLast(target[a].services, i);
    }
  }

  lemma DoneStays(w: World, target: Apps, w': World)
    requires PassTo(w, target, w') && Done(w, target)
    ensures w' == w
  {
    hide Plan, SyncView, AllAllowed, Run;
    var retries, listing, now, es :|
      && IsListing(listing, w) && AllAllowed(target, Gate(retries, now)) && IsClean(es)
      && |es| == |Plan(SyncView(w, listing), target, Gate(retries, now))|
      && w' == Pass(w, retries, target, listing, now, es).world;
    NothingRun(Sys(SyncView(w, listing), w, retries), target, es);
  }

  // -------------------------------------------------------- what cannot settle

  lemma RankPlans(w: World, listing: seq<Cid>, target: Apps, gate: Gate, k: Key, names: Naming)
    requires Admissible(w, target, names) && WellPosed(target, names) && IsListing(listing, w)
    requires AllAllowed(target, gate) && Supported(Find(target, k), ContainerOf(w, k))
    requires Rank(Find(target, k), ContainerOf(w, k)) != 0
    ensures Plan(SyncView(w, listing), target, gate) != []
  {
    hide SyncView, Plan, StepsOf, BlocksOf, BlockSteps, GoodTarget, AllAllowed, Disjoint, Ready, Rank, Supported, ContainerOf, Find, Good;
    var sys := Sys(SyncView(w, listing), w, map[]);
    SyncLaunches(w, listing, map[], target, gate, names);
    SyncAgrees(w, listing, map[], names);
    BlockEmptyIff(sys, target, gate, k, names);
    BlockPlans(sys, target, gate, k, names);
  }

  lemma BlockPlans(sys: Sys, target: Apps, gate: Gate, k: Key, names: Naming)
    requires AllAgree(sys, names) && GoodTarget(target, names) && BlockSteps(One(k), sys.view, target, gate) != []
    ensures Plan(sys.view, target, gate) != []
  {
    hide Plan, StepsOf, BlocksOf, BlockSteps, GoodTarget, Find, Good;
    AgreedIsWellKeyed(sys, names);
    TargetWellKeyed(target, names);
    PlanIsBlocks(sys.view, target, gate);
    BlocksOrdered(sys.view, target);
    StepsOfEmptyIff(BlocksOf(sys.view, target), sys.view, target, gate);
    if One(k) !in BlocksOf(sys.view, target) { UnlistedBlock(sys.view, target, gate, k); }
  }

  /** One pass as seen by a single service. */
  lemma ServiceMoves(w: World, target: Apps, w': World, k: Key, names: Naming) returns (networks: set<NetName>)
    requires PassTo(w, target, w') && Admissible(w, target, names) && WellPosed(target, names)
    ensures Admissible(w', target, names)
    ensures Moves(Find(target, k), ContainerOf(w, k), ContainerOf(w', k), networks)
    ensures forall net <- networks :: net in w.networks || MadeBy(target, net)
    ensures forall n :: NetName(Decimal(k.app), n) in w.networks ==> NetName(Decimal(k.app), n) in networks
    ensures forall n :: Wanted(target, k.app, n) && NetName(Decimal(k.app), n) in w.networks ==>
      NetName(Decimal(k.app), n) in w'.networks
    ensures forall net <- w'.networks :: net in w.networks || MadeBy(target, net)
  {
    hide Plan, SyncView, Run, GoodTarget, Disjoint, AllAllowed, Find, ContainerOf, Moves, Admissible, IsClean, Wanted, OwnerOk, MadeBy;
    var retries, listing, now, es :|
      && IsListing(listing, w) && AllAllowed(target, Gate(retries, now)) && IsClean(es)
      && |es| == |Plan(SyncView(w, listing), target, Gate(retries, now))|
      && w' == Pass(w, retries, target, listing, now, es).world;
    PassMoves(w, retries, target, listing, now, es, names);
    var start := Sys(SyncView(w, listing), w, retries);
    assert Moved(start, Pass(w, retries, target, listing, now, es), target, k);
    networks :| Within(start, target, k.app, networks)
      && Moves(Find(target, k), ContainerOf(w, k), ContainerOf(w', k), networks);
  }

  /** The engine takes the service, now and later: its ports are in order, and if its
      mode names a network of the app, that one exists and is wanted. */
  ghost predicate Steady(w: World, target: Apps, s: Service) {
    && PortsTaken(s)
    && var own := OwnNetwork(s.appId, NetworkMode(s.config));
       own.Some? ==> Wanted(target, s.appId, own.value) && NetName(Decimal(s.appId), own.value) in w.networks
  }

  lemma SteadyTakes(w: World, target: Apps, w': World, s: Service, networks: set<NetName>)
    requires Steady(w, target, s)
    requires forall n :: NetName(Decimal(s.appId), n) in w.networks ==> NetName(Decimal(s.appId), n) in networks
    requires forall n :: Wanted(target, s.appId, n) && NetName(Decimal(s.appId), n) in w.networks ==>
      NetName(Decimal(s.appId), n) in w'.networks
    ensures Accepted(s, networks) && Steady(w', target, s)
  {
    hide PortsTaken, OwnNetwork, Wanted;
  }

  /** A service that should be stopped, and that the engine takes, is stopped and
      recreated in turn: every second pass finds it exited and starts it again. */
  lemma {:induction false} StoppedNeverSettles(ws: seq<World>, target: Apps, names: Naming, k: Key, i: nat)
    requires IsTrace(ws, target) && i < |ws| && WellPosed(target, names) && Admissible(ws[0], target, names)
    requires Find(target, k).Some? && Find(target, k).value.Desired() == Stopped && ContainerOf(ws[0], k).Some?
    requires Steady(ws[0], target, Find(target, k).value)
    ensures Admissible(ws[i], target, names) && ContainerOf(ws[i], k).Some?
    ensures Steady(ws[i], target, Find(target, k).value)
    ensures !Done(ws[i], target)
    ensures i + 1 < |ws| ==>
      && Admissible(ws[i + 1], target, names) && ContainerOf(ws[i + 1], k).Some?
      && (ContainerOf(ws[i], k).value.status == StExited <==> ContainerOf(ws[i + 1], k).value.status == StRunning)
      && (ContainerOf(ws[i], k).value.status != StExited <==> ContainerOf(ws[i + 1], k).value.status == StExited)
  {
    hide WellPosed, Find, ContainerOf, Admissible, Done, PassTo, Wanted, OwnerOk, MadeBy, Accepted, Steady;
    if i > 0 {
      StoppedNeverSettles(ws, target, names, k, i - 1);
      assert PassTo(ws[i - 1], target, ws[i - 1 + 1]);
      StoppedMove(ws[i - 1], target, ws[i], k, names);
    }
    StoppedPlans(ws[i], target, k, names);
    if i + 1 < |ws| {
      assert PassTo(ws[i], target, ws[i + 1]);
      StoppedMove(ws[i], target, ws[i + 1], k, names);
    }
  }

  lemma StoppedMove(w: World, target: Apps, w': World, k: Key, names: Naming)
    requires PassTo(w, target, w') && Admissible(w, target, names) && WellPosed(target, names)
    requires Find(target, k).Some? && Find(target, k).value.Desired() == Stopped && ContainerOf(w, k).Some?
    requires Steady(w, target, Find(target, k).value)
    ensures Admissible(w', target, names) && Steady(w', target, Find(target, k).value) && ContainerOf(w', k).Some?
    ensures ContainerOf(w, k).value.status == StExited <==> ContainerOf(w', k).value.status == StRunning
    ensures ContainerOf(w, k).value.status != StExited <==> ContainerOf(w', k).value.status == StExited
  {
    FoundTarget(target, k, names);
    hide WellPosed, Find, ContainerOf, Admissible, PassTo, Wanted, OwnerOk, MadeBy, Accepted, Steady;
    var s := Find(target, k).value;
    var networks := ServiceMoves(w, target, w', k, names);
    SteadyTakes(w, target, w', s, networks);
    StartedKey(s, networks);
  }

  /** One whose ports the engine does not take is removed by two passes, for good. */
  lemma {:induction false} StoppedRefusedIsLost(ws: seq<World>, target: Apps, names: Naming, k: Key, i: nat)
    requires IsTrace(ws, target) && i < |ws| && WellPosed(target, names) && Admissible(ws[0], target, names)
    requires Find(target, k).Some? && Find(target, k).value.Desired() == Stopped
    requires !PortsTaken(Find(target, k).value)
    ensures Admissible(ws[i], target, names)
    ensures i >= 1 && ContainerOf(ws[i], k).Some? ==> ContainerOf(ws[i], k).value.status == StExited
    ensures i >= 2 ==> ContainerOf(ws[i], k) == None
  {
    hide WellPosed, Find, ContainerOf, Admissible, PassTo, Wanted, OwnerOk, MadeBy, PortsTaken;
    if i > 0 {
      StoppedRefusedIsLost(ws, target, names, k, i - 1);
      assert PassTo(ws[i - 1], target, ws[i - 1 + 1]);
      var networks := ServiceMoves(ws[i - 1], target, ws[i], k, names);
    }
  }

  lemma StoppedPlans(w: World, target: Apps, k: Key, names: Naming)
    requires WellPosed(target, names) && Admissible(w, target, names)
    requires Find(target, k).Some? && Find(target, k).value.Desired() == Stopped && ContainerOf(w, k).Some?
    ensures !Done(w, target)
  {
    hide SyncView, Plan, BlockSteps, AllAllowed, GoodTarget, Disjoint, Ready, ContainerOf, Find;
    var listing := Ascending(w.containers.Keys);
    var gate := Gate(map[], 0);
    OpenGateAllows(target);
    var sys := Sys(SyncView(w, listing), w, map[]);
    SyncLaunches(w, listing, map[], target, gate, names);
    SyncAgrees(w, listing, map[], names);
    StoppedBlock(sys, target, gate, k, names);
    BlockPlans(sys, target, gate, k, names);
  }

  lemma OpenGateAllows(target: Apps)
    ensures AllAllowed(target, Gate(map[], 0))
  {}

  lemma StoppedBlock(sys: Sys, target: Apps, gate: Gate, k: Key, names: Naming)
    requires Good(sys, names) && Synced(sys.view, sys, k)
    requires Find(target, k).Some? && Find(target, k).value.Desired() == Stopped && ContainerOf(sys.world, k).Some?
    ensures BlockSteps(One(k), sys.view, target, gate) != []
  {
    LastIsEntry(ServicesOf(sys.view, k.app), k.svc);
    hide ConfigChanged, Allows, Good;
    if Entries(sys.view, k) == [] {
      EmptyAgrees(sys, k);
      assert false;
    } else {
      var cid, c :| At(sys, k, cid, c) && Entries(sys.view, k) == [ViewOf(cid, c)];
      AtAgrees(sys, k, cid, c, names);
      hide At, Entries, ContainerOf;
    }
  }

  /** A service that comes back drifted from its own deployment, or whose app
      names its networks after a uuid. */
  ghost predicate Misfit(target: Apps, k: Key) {
    Find(target, k).Some? &&
    var s := Find(target, k).value;
    && s.Desired() != Stopped
    && if OwnerOk(target, k.app) then !Faithful(s)
       else s.config.Networks() != [] && forall b <- target :: OwnerOf(Some(target[b]), b) != Decimal(k.app)
  }

  ghost predicate Unowned(w: World, a: nat) {
    forall net <- w.networks :: net.owner != Decimal(a)
  }

  /** Absent, or running with drift, or paused with drift where that is wanted. */
  ghost predicate Misfitting(w: World, target: Apps, k: Key) {
    && Find(target, k).Some?
    && (ContainerOf(w, k).Some? ==>
          && (ContainerOf(w, k).value.status == StRunning
              || (ContainerOf(w, k).value.status == StPaused && Find(target, k).value.Desired() == Paused))
          && DriftOf(ContainerOf(w, k).value, Find(target, k).value))
    && (OwnerOk(target, k.app) || Unowned(w, k.app))
  }

  /** Whatever networks there are, a misfit's new container drifts, if it gets one. */
  lemma MisfitDrifts(target: Apps, k: Key, networks: set<NetName>, names: Naming)
    requires GoodTarget(target, names) && Misfit(target, k)
    requires !OwnerOk(target, k.app) ==> forall net <- networks :: net.owner != Decimal(k.app)
    ensures var s := Find(target, k).value;
      Deployed(s, networks).Some? ==>
        DriftOf(Deployed(s, networks).value, s) && Deployed(s, networks).value.status == StRunning
  {
    FoundTarget(target, k, names);
    var s := Find(target, k).value;
    if Accepted(s, networks) {
      assert s.config.Networks() != [] ==> s.config.Networks()[0] in s.config.Networks();
      if Attached(s, networks) == s.config.Networks() {
        AttachedExist(s, networks);
        AttachedAlike(s, networks);
        hide Attached, PublishedPorts, ReportedEnv, ReportedMounts, PortsTaken, ModeThere;
      } else {
        hide Attached, PublishedPorts, ReportedEnv, ReportedMounts, Accepted;
      }
    }
  }

  /** Where a service is attached to just what it lists, it would be as well if there
      were no other networks. */
  lemma AttachedAlike(s: Service, networks: set<NetName>)
    requires Accepted(s, networks) && Attached(s, networks) == s.config.Networks()
    ensures Accepted(s, OwnNetworks(s)) && Attached(s, OwnNetworks(s)) == Attached(s, networks)
  {
    AttachedExist(s, networks);
    var own := OwnNetwork(s.appId, NetworkMode(s.config));
    OwnIsNoShared(s.appId, NetworkMode(s.config));
    if own.Some? { assert own.value in Attached(s, networks); }
    if s.config.Networks() != [] || !SharesNamespace(NetworkMode(s.config)) {
      JoinsAll(s.appId, s.config.Networks(), networks, OwnNetworks(s));
    }
    hide PortsTaken, SharesNamespace, OwnNetwork, JoinedNetworks;
  }

  lemma MisfitMove(w: World, target: Apps, w': World, k: Key, names: Naming)
    requires PassTo(w, target, w') && Admissible(w, target, names) && WellPosed(target, names)
    requires Misfit(target, k) && Misfitting(w, target, k)
    ensures Admissible(w', target, names) && Misfitting(w', target, k)
  {
    hide GoodTarget, Disjoint, Find, ContainerOf, Admissible, PassTo, Wanted, OwnerOk, DriftOf, Deployed, Faithful;
    var networks := ServiceMoves(w, target, w', k, names);
    MisfitDrifts(target, k, networks, names);
    if ContainerOf(w, k).Some? { PauseKeepsDrift(ContainerOf(w, k).value, Find(target, k).value); }
  }

  lemma MisfitPlans(w: World, target: Apps, k: Key, names: Naming)
    requires Admissible(w, target, names) && WellPosed(target, names) && Misfit(target, k) && Misfitting(w, target, k)
    ensures !AtTarget(w, target)
    ensures Find(target, k).value.Desired() == Running || ContainerOf(w, k).Some? ==> !Done(w, target)
  {
    hide SyncView, Plan, AllAllowed, GoodTarget, Disjoint, Ready, Find, ContainerOf, DriftOf, OwnerOk, Faithful, Serves;
    if ContainerOf(w, k).Some? { ServesIff(ContainerOf(w, k).value, Find(target, k).value); }
    if Find(target, k).value.Desired() == Running || ContainerOf(w, k).Some? {
      var listing := Ascending(w.containers.Keys);
      OpenGateAllows(target);
      assert IsListing(listing, w);
      RankPlans(w, listing, target, Gate(map[], 0), k, names);
    }
  }

  /** A misfit never reaches its target: it is redeployed on every pass where it is
      wanted running, and on every second one where it is wanted paused, until the
      engine refuses that and the container is lost. */
  lemma {:induction false} MisfitNeverSettles(ws: seq<World>, target: Apps, names: Naming, k: Key, i: nat)
    requires IsTrace(ws, target) && i < |ws| && WellPosed(target, names) && Admissible(ws[0], target, names)
    requires Misfit(target, k) && Misfitting(ws[0], target, k)
    ensures Admissible(ws[i], target, names) && Misfitting(ws[i], target, k)
    ensures !AtTarget(ws[i], target)
    ensures Find(target, k).value.Desired() == Running || ContainerOf(ws[i], k).Some? ==> !Done(ws[i], target)
  {
    hide WellPosed, Admissible, PassTo, Misfit, Done, AtTarget, ContainerOf, DriftOf, OwnerOk, Unowned;
    if i > 0 {
      MisfitNeverSettles(ws, target, names, k, i - 1);
      assert PassTo(ws[i - 1], target, ws[i - 1 + 1]);
      MisfitMove(ws[i - 1], target, ws[i], k, names);
    }
    MisfitPlans(ws[i], target, k, names);
  }

  // -------------------------------------------------------- the exact condition

  /** No app's network prefix is another app's id. */
  ghost predicate DistinctOwners(target: Apps) {
    forall a <- target, b <- target :: a != b ==> OwnerOf(Some(target[b]), b) != Decimal(a)
  }

  ghost predicate NoneStopped(target: Apps) {
    forall k: Key :: Find(target, k).Some? ==> Find(target, k).value.Desired() != Stopped
  }

  /** Two failure-free passes, or four with paused services, are enough from every
      admissible world. */
  ghost predicate SettlesFromEverywhere(target: Apps, names: Naming) {
    forall ws: seq<World> ::
      (IsTrace(ws, target) && |ws| == Passes(AllRunning(target)) + 1
       && Admissible(ws[0], target, names) && AllSupported(ws[0], target))
      ==> AtTarget(Last(ws), target) && Done(Last(ws), target)
  }

  lemma PassExists(w: World, target: Apps) returns (w': World)
    ensures PassTo(w, target, w')
  {
    hide SyncView, Plan, AllAllowed, Run;
    var listing := Ascending(w.containers.Keys);
    OpenGateAllows(target);
    var n := |Plan(SyncView(w, listing), target, Gate(map[], 0))|;
    var es := seq(n, i => Env(false, false, 0, 0));
    w' := Pass(w, map[], target, listing, 0, es).world;
  }

  lemma MisfitFound(target: Apps, names: Naming) returns (k: Key)
    requires WellPosed(target, names) && NoneStopped(target) && DistinctOwners(target) && !Sound(target)
    ensures Misfit(target, k)
  {
    hide Faithful, NetworkNames;
    var a :| a in target && (!OwnerOk(target, a) || exists s <- target[a].services :: !Faithful(s));
    var s: Service;
    if OwnerOk(target, a) {
      s :| s in target[a].services && !Faithful(s);
    } else {
      var n := NetworkNames(target[a].services)[0];
      NetworkNamesMean(target[a].services, n);
      s :| s in target[a].services && n in s.config.Networks();
    }
    k := Key(a, s.serviceId);
    hide *;
    MisfitAt(target, a, s, names);
  }

  lemma MisfitAt(target: Apps, a: nat, s: Service, names: Naming)
    requires WellPosed(target, names) && NoneStopped(target) && DistinctOwners(target)
    requires a in target && s in target[a].services
    requires if OwnerOk(target, a) then !Faithful(s) else s.config.Networks() != []
    ensures Misfit(target, Key(a, s.serviceId))
  {
    var i :| 0 <= i < |target[a].services| && target[a].services[i] == s;
    UniqueIsLast(target[a].services, i);
    assert Find(target, Key(a, s.serviceId)) == Some(s);
    hide Faithful, NetworkNames, Find, NoDup, Ids;
  }

  lemma {:induction false} TraceFrom(w: World, target: Apps, n: nat) returns (ws: seq<World>)
    ensures IsTrace(ws, target) && ws[0] == w && |ws| == n + 1
    decreases n
  {
    hide PassTo;
    ws := [w];
    if n > 0 {
      var w' := PassExists(w, target);
      var rest := TraceFrom(w', target, n - 1);
      TraceGrows(w, rest, target);
      ws := [w] + rest;
    }
  }

  lemma TraceGrows(w: World, ws: seq<World>, target: Apps)
    requires IsTrace(ws, target) && PassTo(w, target, ws[0])
    ensures IsTrace([w] + ws, target)
  {
    hide PassTo;
    var more := [w] + ws;
    forall i | 0 <= i < |more| - 1
      ensures PassTo(more[i], target, more[i + 1])
    {
      if i > 0 { assert PassTo(ws[i - 1], target, ws[i - 1 + 1]); }
    }
  }

  /** Where no service is wanted stopped, reconciliation settles from every world (that
      can resume the paused ones) if and only if every service survives its own
      read-back and every app that uses networks has them created under its id. */
  lemma SettlesIffSound(target: Apps, names: Naming)
    requires WellPosed(target, names) && NoneStopped(target) && DistinctOwners(target)
    ensures SettlesFromEverywhere(target, names) <==> Sound(target)
  {
    hide Find, Misfit, Misfitting, Sound, Done, AtTarget, PassTo, WellPosed, AllRunning, NoneStopped, DistinctOwners, Admissible, AllSupported;
    if Sound(target) {
      forall ws: seq<World>
        | IsTrace(ws, target) && |ws| == Passes(AllRunning(target)) + 1
          && Admissible(ws[0], target, names) && AllSupported(ws[0], target)
        ensures AtTarget(Last(ws), target) && Done(Last(ws), target)
      {
        Stabilises(ws, target, names, |ws| - 1);
      }
    } else {
      var k := MisfitFound(target, names);
      var w := StrayWorld(target, names, k);
      var ws := TraceFrom(w, target, Passes(AllRunning(target)));
      MisfitNeverSettles(ws, target, names, k, |ws| - 1);
    }
  }

  // ------------------------------------------------ a world to start a misfit from

  function KeyOf(s: Service): Key { Key(s.appId, s.serviceId) }

  /** A container of service `s` with an image that is not wanted. */
  function Stray(s: Service): Container {
    Container(KeyOf(s), s.appName, s.serviceName, s.imageName + "-", StRunning, Config(None, None, None, None, None, None))
  }

  /** One such container for each of these services, and nothing else. */
  ghost predicate Strays(w: World, ss: set<Service>) {
    && 0 < w.nextId && OnePerService(w) && w.networks == {}
    && (forall id <- w.containers :: 0 < id < w.nextId && exists s <- ss :: w.containers[id] == Stray(s))
    && forall s <- ss :: ContainerOf(w, KeyOf(s)) == Some(Stray(s))
  }

  lemma {:induction false} StraysExist(ss: set<Service>) returns (w: World)
    requires forall s <- ss, t <- ss :: KeyOf(s) == KeyOf(t) ==> s == t
    ensures Strays(w, ss)
  {
    if ss == {} {
      w := World(map[], {}, {}, 1);
    } else {
      var s :| s in ss;
      var before := StraysExist(ss - {s});
      w := WithStray(before, s);
      StrayAdded(before, ss - {s}, s);
      assert ss - {s} + {s} == ss;
    }
  }

  lemma StrayAdded(w: World, ss: set<Service>, s: Service)
    requires Strays(w, ss) && forall t <- ss :: KeyOf(t) != KeyOf(s)
    ensures Strays(WithStray(w, s), ss + {s})
  {
    StrayKeys(w, ss, s);
    forall t | t in ss + {s}
      ensures ContainerOf(WithStray(w, s), KeyOf(t)) == Some(Stray(t))
    {
      StrayFound(w, s, KeyOf(t));
    }
    StrayAlone(w, s);
    hide ContainerOf, KeyOf, Stray, OnePerService;
    var after := WithStray(w, s);
    forall id | id in after.containers
      ensures exists t <- ss + {s} :: after.containers[id] == Stray(t)
    {
      if id == w.nextId { assert s in ss + {s}; }
    }
  }

  lemma StrayAlone(w: World, s: Service)
    requires OnePerService(w) && forall id <- w.containers :: id < w.nextId && w.containers[id].key != KeyOf(s)
    ensures OnePerService(WithStray(w, s))
  {
    hide KeyOf;
  }

  lemma StrayKeys(w: World, ss: set<Service>, s: Service)
    requires Strays(w, ss) && forall t <- ss :: KeyOf(t) != KeyOf(s)
    ensures forall id <- w.containers ::
      w.containers[id].key != KeyOf(s) && exists t <- ss + {s} :: w.containers[id] == Stray(t)
  {
    forall id | id in w.containers
      ensures w.containers[id].key != KeyOf(s) && exists t <- ss + {s} :: w.containers[id] == Stray(t)
    {
      var t :| t in ss && w.containers[id] == Stray(t);
      assert t in ss + {s};
    }
  }

  function WithStray(w: World, s: Service): World {
    w.(containers := w.containers[w.nextId := Stray(s)], nextId := w.nextId + 1)
  }

  lemma StrayFound(w: World, s: Service, k: Key)
    requires OnePerService(w) && forall id <- w.containers :: id < w.nextId && w.containers[id].key != KeyOf(s)
    ensures ContainerOf(WithStray(w, s), k) == if k == KeyOf(s) then Some(Stray(s)) else ContainerOf(w, k)
  {
    var after := WithStray(w, s);
    if k == KeyOf(s) {
      assert after.containers[w.nextId].key == k;
    } else if id :| id in w.containers && w.containers[id].key == k {
      assert after.containers[id] == w.containers[id];
    }
  }

  predicate WantedPaused(target: Apps, k: Key) {
    Find(target, k).Some? && Find(target, k).value.Desired() == Paused
  }

  function PausedServices(target: Apps): set<Service> {
    set a, s | a in target && s in target[a].services && s.Desired() == Paused :: s
  }

  lemma PausedMeans(target: Apps, names: Naming, s: Service)
    requires GoodTarget(target, names)
    ensures s in PausedServices(target) <==> WantedPaused(target, KeyOf(s)) && Find(target, KeyOf(s)) == Some(s)
    ensures s in PausedServices(target) ==> s.ContainerName() in names(KeyOf(s))
  {
    if s in PausedServices(target) {
      var a :| a in target && s in target[a].services;
      var i :| 0 <= i < |target[a].services| && target[a].services[i] == s;
      UniqueIsLast(target[a].services, i);
    }
  }

  /** In an admissible world without networks the services wanted paused run, drifted. */
  lemma StrayWorld(target: Apps, names: Naming, k: Key) returns (w: World)
    requires WellPosed(target, names) && NoneStopped(target) && Misfit(target, k)
    ensures Admissible(w, target, names) && AllSupported(w, target) && Misfitting(w, target, k)
  {
    var ss := PausedServices(target);
    forall s, t | s in ss && t in ss && KeyOf(s) == KeyOf(t)
      ensures s == t
    {
      PausedMeans(target, names, s);
      PausedMeans(target, names, t);
    }
    w := StraysExist(ss);
    StraysAdmissible(w, target, names);
    forall j: Key
      ensures Supported(Find(target, j), ContainerOf(w, j)) && Resumable(w, Find(target, j), ContainerOf(w, j))
    {
      StraysAt(w, target, names, j);
      StraysLackNetworks(w, ss);
      hide ContainerOf, Find, OwnNetwork, Strays, PausedServices;
    }
    StraysAt(w, target, names, k);
    hide Find, ContainerOf, Admissible, OwnerOk, Strays, Supported, Resumable, PausedServices, WellPosed;
  }

  lemma StraysLackNetworks(w: World, ss: set<Service>)
    requires Strays(w, ss)
    ensures forall id <- w.containers :: w.containers[id].config.Networks() == [] && w.containers[id].config.Ports() == []
    ensures forall id <- w.containers :: NetworkMode(w.containers[id].config) == "bridge"
  {}

  lemma StraysAdmissible(w: World, target: Apps, names: Naming)
    requires WellPosed(target, names) && Strays(w, PausedServices(target))
    ensures Admissible(w, target, names)
  {
    var ss := PausedServices(target);
    StraysLackNetworks(w, ss);
    forall id | id in w.containers
      ensures Listed(w.containers[id]) && w.containers[id].Name() in names(w.containers[id].key)
    {
      var s :| s in ss && w.containers[id] == Stray(s);
      PausedMeans(target, names, s);
      BridgeIsShared(w.containers[id].key.app);
    }
  }

  lemma BridgeIsShared(a: nat)
    ensures OwnNetwork(a, "bridge") == None
  {
    var prefix := Decimal(a) + "_";
    assert IsDigit(prefix[0]) by { assert Decimal(a)[0] in Decimal(a) && prefix[0] == Decimal(a)[0]; }
    StartsWithAt("bridge", prefix, 0);
  }

  lemma StraysAt(w: World, target: Apps, names: Naming, k: Key)
    requires WellPosed(target, names) && Strays(w, PausedServices(target))
    ensures ContainerOf(w, k) == if WantedPaused(target, k) then Some(Stray(Find(target, k).value)) else None
  {
    if WantedPaused(target, k) {
      FoundTarget(target, k, names);
      PausedMeans(target, names, Find(target, k).value);
    } else if ContainerOf(w, k).Some? {
      var id :| id in w.containers && w.containers[id].key == k;
      var s :| s in PausedServices(target) && w.containers[id] == Stray(s);
      PausedMeans(target, names, s);
    }
  }
}
