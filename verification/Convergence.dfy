/** Self-stabilisation of failure-free reconciliation: a measure on every
    service falls with each pass, and a plan is empty exactly when all measures
    are zero. */
module Convergence {
  import opened Basics
  import opened Compose
  import opened Ports
  import opened Engine
  import opened Retry
  import opened Planner
  import opened Execution
  import opened Blocks
  import opened Agreement
  import opened Runs
  import opened CleanSteps
  import opened CleanBlocks
  import opened CleanPass

  // --------------------------------------------------------------- the measure

  /** How many passes a service may still need: zero at its goal. */
  function Rank(tgt: Option<Service>, c: Option<Container>): nat {
    match (tgt, c)
    case (None, None) => 0
    case (None, Some(_)) => 1
    case (Some(s), None) => 1
    case (Some(s), Some(c)) =>
      if s.Desired() == Running then
        (if c.status != StRunning then 2 else if DriftOf(c, s) then 1 else 0)
      else
        match c.status
        case StExited => 4
        case StRunning => if DriftOf(c, s) then 3 else 1
        case StPaused => if DriftOf(c, s) then 2 else 0
  }

  /** Desired states a pass can work towards: running, or paused for a service
      that has a container. */
  ghost predicate Supported(tgt: Option<Service>, c: Option<Container>) {
    tgt.Some? ==> tgt.value.Desired() == Running || (tgt.value.Desired() == Paused && c.Some?)
  }

  /** The networks that modes name are there to resume from a pause: the target's when
      its turn comes, and that of an exited container already. */
  ghost predicate Resumable(w: World, tgt: Option<Service>, c: Option<Container>) {
    tgt.Some? && tgt.value.Desired() == Paused && c.Some? ==>
      && (var own := OwnNetwork(tgt.value.appId, NetworkMode(tgt.value.config));
          own.Some? ==> Obtainable(w, tgt.value.appId, own.value))
      && (c.value.status == StExited ==> ModeThere(c.value.key.app, NetworkMode(c.value.config), w.networks))
  }

  lemma MoveLowersRank(tgt: Option<Service>, before: Option<Container>, after: Option<Container>, networks: set<NetName>)
    requires Moves(tgt, before, after, networks) && Supported(tgt, before)
    requires tgt.Some? ==> Faithful(tgt.value) && OwnNetworks(tgt.value) <= networks
    requires Revives(tgt, before, networks)
    ensures Supported(tgt, after)
    ensures Rank(tgt, after) < Rank(tgt, before) || (Rank(tgt, before) == 0 && after == before)
  {
    if tgt.Some? {
      FaithfulStart(tgt.value, networks);
      if before.Some? { PauseKeepsDrift(before.value, tgt.value); }
    }
    hide Drifted, ViewOf, Report, Accepted, Faithful, OwnNetworks;
  }

  lemma PauseKeepsDrift(c: Container, s: Service)
    ensures c.status == StRunning ==> (DriftOf(c.(status := StPaused), s) <==> DriftOf(c, s))
  {
    hide ConfigChanged;
  }

  /** A paused service's exited container can be started again from what it lists. */
  ghost predicate Revives(tgt: Option<Service>, c: Option<Container>, networks: set<NetName>) {
    tgt.Some? && tgt.value.Desired() == Paused && c.Some? && c.value.status == StExited ==>
      forall cid :: Accepted(ViewOf(cid, c.value), networks)
  }

  // -------------------------------------------------------------------- targets

  /** Every service survives a read-back and every app owns its networks. */
  ghost predicate Sound(target: Apps) {
    forall a <- target :: OwnerOk(target, a) && forall s <- target[a].services :: Faithful(s)
  }

  /** A target together with the names its services may use. */
  ghost predicate WellPosed(target: Apps, names: Naming) {
    GoodTarget(target, names) && Disjoint(names)
  }

  ghost predicate RanksWithin(w: World, target: Apps, n: nat) {
    forall k: Key :: Rank(Find(target, k), ContainerOf(w, k)) <= n
  }

  ghost predicate AllSupported(w: World, target: Apps) {
    forall k: Key ::
      Supported(Find(target, k), ContainerOf(w, k)) && Resumable(w, Find(target, k), ContainerOf(w, k))
  }

  /** Some failure-free pass leads from `w` to `w'`. */
  ghost predicate PassTo(w: World, target: Apps, w': World) {
    exists retries: Retries, listing: seq<Cid>, now: int, es: seq<Env> ::
      && IsListing(listing, w) && AllAllowed(target, Gate(retries, now)) && IsClean(es)
      && |es| == |Plan(SyncView(w, listing), target, Gate(retries, now))|
      && w' == Pass(w, retries, target, listing, now, es).world
  }

  /** Successive worlds of a run of failure-free passes against one target. */
  ghost predicate IsTrace(ws: seq<World>, target: Apps) {
    ws != [] && forall i | 0 <= i < |ws| - 1 :: PassTo(ws[i], target, ws[i + 1])
  }

  lemma TargetNetworks(target: Apps, k: Key, names: Naming, start: Sys, networks: set<NetName>)
    requires Sound(target) && GoodTarget(target, names) && Within(start, target, k.app, networks)
    requires Stocked(start.world, target)
    ensures Find(target, k).Some? ==> Faithful(Find(target, k).value) && OwnNetworks(Find(target, k).value) <= networks
  {
    hide Faithful, MadeBy;
    if Find(target, k).Some? {
      FoundTarget(target, k, names);
      var s := Find(target, k).value;
      assert s in target[k.app].services && OwnerOk(target, k.app);
      forall n | n in s.config.Networks()
        ensures NetName(Decimal(k.app), n) in networks
      {
        NetworkNamesMean(target[k.app].services, n);
        StockedObtains(start.world, target, k.app, n);
      }
    }
  }

  /** What a container lists can be started again where its mode's network is. */
  lemma ListedRevives(start: Sys, target: Apps, k: Key, networks: set<NetName>, names: Naming)
    requires GoodWorld(start.world, names) && Within(start, target, k.app, networks)
    requires Resumable(start.world, Find(target, k), ContainerOf(start.world, k))
    ensures Revives(Find(target, k), ContainerOf(start.world, k), networks)
  {
    var c := ContainerOf(start.world, k);
    if c.Some? {
      assert Listed(c.value) && c.value.key == k;
      forall cid
        ensures PortsTaken(ViewOf(cid, c.value))
      {
        PlainIsReadable(c.value.config.Ports());
      }
    }
    hide PortsTaken, Listed, OwnNetwork, Obtainable, MadeBy, Find, Wanted, OwnerOk, ContainerOf;
  }

  /** The most a service may still need after any failure-free pass, whatever the
      state of the networks was: its container is active then, or gone. */
  function RankAfterPass(tgt: Option<Service>): nat {
    match tgt
    case None => 0
    case Some(s) => if s.Desired() == Running then 1 else 3
  }

  lemma MoveActivates(tgt: Option<Service>, before: Option<Container>, after: Option<Container>, networks: set<NetName>)
    requires Moves(tgt, before, after, networks) && Supported(tgt, before)
    requires tgt.Some? && tgt.value.Desired() == Paused ==> Accepted(tgt.value, networks)
    requires Revives(tgt, before, networks)
    ensures Supported(tgt, after) && Rank(tgt, after) <= RankAfterPass(tgt)
    ensures after.Some? ==> Active(after.value)
  {
    hide ConfigChanged, Report, Accepted;
  }

  /** One failure-free pass from any admissible world leaves only active containers,
      so that the networks they list exist from then on. */
  lemma PassStocks(w: World, target: Apps, w': World, names: Naming)
    requires PassTo(w, target, w') && Admissible(w, target, names) && WellPosed(target, names) && Sound(target)
    requires AllSupported(w, target)
    ensures Admissible(w', target, names) && AllSupported(w', target) && Stocked(w', target)
    ensures forall k: Key :: Rank(Find(target, k), ContainerOf(w', k)) <= RankAfterPass(Find(target, k))
  {
    hide Plan, SyncView, Run, GoodTarget, Disjoint, AllAllowed, Sound, Find, Moves, Rank, Supported, IsClean, Faithful, Within, Stocked, Ready, ContainerOf, GoodWorld, Revives, Resumable, Accepted;
    var retries, listing, now, es :|
      && IsListing(listing, w) && AllAllowed(target, Gate(retries, now)) && IsClean(es)
      && |es| == |Plan(SyncView(w, listing), target, Gate(retries, now))|
      && w' == Pass(w, retries, target, listing, now, es).world;
    PassIsMoves(w, retries, target, listing, now, es, names);
    forall k: Key
      ensures Supported(Find(target, k), ContainerOf(w', k))
      ensures Rank(Find(target, k), ContainerOf(w', k)) <= RankAfterPass(Find(target, k))
      ensures ContainerOf(w', k).Some? ==> Active(ContainerOf(w', k).value)
    {
      var start := Sys(SyncView(w, listing), w, retries);
      assert Moved(start, Pass(w, retries, target, listing, now, es), target, k);
      var networks :| Within(start, target, k.app, networks)
        && Moves(Find(target, k), ContainerOf(w, k), ContainerOf(w', k), networks);
      ResumesAccepted(start, target, k, networks, names);
      ListedRevives(start, target, k, networks, names);
      MoveActivates(Find(target, k), ContainerOf(w, k), ContainerOf(w', k), networks);
    }
    ActiveIsStocked(w', target);
    forall k: Key
      ensures Resumable(w', Find(target, k), ContainerOf(w', k))
    {
      StockedResumes(w', target, k, names);
    }
  }

  /** The network that a faithful service's mode names is one it lists. */
  lemma OwnNetworkListed(s: Service)
    requires Faithful(s)
    ensures OwnNetwork(s.appId, NetworkMode(s.config)).Some? ==>
      OwnNetwork(s.appId, NetworkMode(s.config)).value in s.config.Networks()
  {
    hide ConfigChanged, PortsTaken, OwnNetwork, NetworkMode;
    if OwnNetwork(s.appId, NetworkMode(s.config)).Some? {
      var n := OwnNetwork(s.appId, NetworkMode(s.config)).value;
      assert NetName(Decimal(s.appId), n) in OwnNetworks(s);
    }
  }

  lemma TargetService(target: Apps, k: Key, names: Naming)
    requires Sound(target) && GoodTarget(target, names) && Find(target, k).Some?
    ensures var s := Find(target, k).value;
      Faithful(s) && s.appId == k.app && OwnerOk(target, k.app) && forall n <- s.config.Networks() :: Wanted(target, k.app, n)
  {
    hide Faithful;
    FoundTarget(target, k, names);
    var s := Find(target, k).value;
    assert s in target[k.app].services;
    forall n | n in s.config.Networks()
      ensures Wanted(target, k.app, n)
    {
      NetworkNamesMean(target[k.app].services, n);
    }
  }

  lemma ResumesAccepted(start: Sys, target: Apps, k: Key, networks: set<NetName>, names: Naming)
    requires Sound(target) && GoodTarget(target, names) && Within(start, target, k.app, networks)
    requires Supported(Find(target, k), ContainerOf(start.world, k))
    requires Resumable(start.world, Find(target, k), ContainerOf(start.world, k))
    ensures Find(target, k).Some? && Find(target, k).value.Desired() == Paused ==>
      Accepted(Find(target, k).value, networks)
  {
    if Find(target, k).Some? {
      TargetService(target, k, names);
      OwnNetworkListed(Find(target, k).value);
      assert PortsTaken(Find(target, k).value);
    }
    hide Find, Sound, GoodTarget, Wanted, OwnerOk, Obtainable, MadeBy, PortsTaken, ContainerOf, OwnNetwork, Faithful;
  }

  lemma StockedResumes(w: World, target: Apps, k: Key, names: Naming)
    requires Sound(target) && GoodTarget(target, names) && Stocked(w, target)
    requires ContainerOf(w, k).Some? ==> Active(ContainerOf(w, k).value)
    ensures Resumable(w, Find(target, k), ContainerOf(w, k))
  {
    if Find(target, k).Some? {
      TargetService(target, k, names);
      var s := Find(target, k).value;
      OwnNetworkListed(s);
      var own := OwnNetwork(s.appId, NetworkMode(s.config));
      if own.Some? { StockedObtains(w, target, k.app, own.value); }
    }
    hide Find, Sound, GoodTarget, Wanted, OwnerOk, Obtainable, ContainerOf, OwnNetwork, Faithful, Stocked;
  }

  lemma ActiveIsStocked(w: World, target: Apps)
    requires Ready(w, target) && OnePerService(w)
    requires forall k: Key :: ContainerOf(w, k).Some? ==> Active(ContainerOf(w, k).value)
    ensures Stocked(w, target)
  {
    forall id | id in w.containers
      ensures Active(w.containers[id])
    {
      assert ContainerOf(w, w.containers[id].key) == Some(w.containers[id]);
    }
  }

  /** Once the listed networks exist every failure-free pass lowers every rank that
      is not yet zero, and leaves services at rank zero exactly as they are. */
  lemma PassLowersRanks(w: World, target: Apps, w': World, names: Naming)
    requires PassTo(w, target, w') && Admissible(w, target, names) && WellPosed(target, names) && Sound(target)
    requires AllSupported(w, target) && Stocked(w, target)
    ensures Admissible(w', target, names) && AllSupported(w', target)
    ensures forall k: Key ::
      var r, r' := Rank(Find(target, k), ContainerOf(w, k)), Rank(Find(target, k), ContainerOf(w', k));
      r' < r || (r == 0 && ContainerOf(w', k) == ContainerOf(w, k))
  {
    assert GoodWorld(w, names);
    hide Plan, SyncView, Run, GoodTarget, Disjoint, AllAllowed, Sound, Find, ContainerOf, Moves, Rank, Supported, Admissible, IsClean, Faithful, Within, Stocked, Revives, Resumable, RankAfterPass;
    var retries, listing, now, es :|
      && IsListing(listing, w) && AllAllowed(target, Gate(retries, now)) && IsClean(es)
      && |es| == |Plan(SyncView(w, listing), target, Gate(retries, now))|
      && w' == Pass(w, retries, target, listing, now, es).world;
    PassStocks(w, target, w', names);
    PassIsMoves(w, retries, target, listing, now, es, names);
    forall k: Key
      ensures var r, r' := Rank(Find(target, k), ContainerOf(w, k)), Rank(Find(target, k), ContainerOf(w', k));
              r' < r || (r == 0 && ContainerOf(w', k) == ContainerOf(w, k))
    {
      var start := Sys(SyncView(w, listing), w, retries);
      assert Moved(start, Pass(w, retries, target, listing, now, es), target, k);
      var networks :| Within(start, target, k.app, networks)
        && Moves(Find(target, k), ContainerOf(w, k), ContainerOf(w', k), networks);
      TargetNetworks(target, k, names, start, networks);
      ListedRevives(start, target, k, networks, names);
      MoveLowersRank(Find(target, k), ContainerOf(w, k), ContainerOf(w', k), networks);
    }
  }

  lemma PassIsMoves(w: World, retries: Retries, target: Apps, listing: seq<Cid>, now: int, es: seq<Env>, names: Naming)
    requires Admissible(w, target, names) && WellPosed(target, names) && IsListing(listing, w)
    requires AllAllowed(target, Gate(retries, now)) && IsClean(es)
    requires |es| == |Plan(SyncView(w, listing), target, Gate(retries, now))|
    ensures var after := Pass(w, retries, target, listing, now, es);
            && Admissible(after.world, target, names)
            && forall k: Key :: Moved(Sys(SyncView(w, listing), w, retries), after, target, k)
  {
    hide Moved;
    PassMoves(w, retries, target, listing, now, es, names);
  }

  // ------------------------------------------------ empty plans and the goal

  /** Exactly the target's services have containers, each in its desired state
      and without drift. */
  ghost predicate Goal(w: World, target: Apps) {
    forall k: Key :: Rank(Find(target, k), ContainerOf(w, k)) == 0
  }

  lemma GoalMeans(w: World, target: Apps, k: Key)
    requires Goal(w, target) && AllSupported(w, target)
    ensures match Find(target, k)
            case None => ContainerOf(w, k) == None
            case Some(s) =>
              && ContainerOf(w, k).Some? && !DriftOf(ContainerOf(w, k).value, s)
              && ModeOf(ContainerOf(w, k).value.status) == s.Desired()
  {
    assert Supported(Find(target, k), ContainerOf(w, k));
    assert Rank(Find(target, k), ContainerOf(w, k)) == 0;
  }

  lemma BlockEmptyIff(sys: Sys, target: Apps, gate: Gate, k: Key, names: Naming)
    requires Good(sys, names) && Synced(sys.view, sys, k) && AllAllowed(target, gate)
    requires Supported(Find(target, k), ContainerOf(sys.world, k))
    ensures BlockSteps(One(k), sys.view, target, gate) == []
       <==> Rank(Find(target, k), ContainerOf(sys.world, k)) == 0
  {
    LastIsEntry(ServicesOf(sys.view, k.app), k.svc);
    TargetAllowed(target, gate, k, sys.view);
    if Entries(sys.view, k) == [] {
      EmptyAgrees(sys, k);
    } else {
      var cid, c :| At(sys, k, cid, c) && Entries(sys.view, k) == [ViewOf(cid, c)];
      AtAgrees(sys, k, cid, c, names);
    }
    hide ConfigChanged, At, Empty, Entries, ContainerOf, LastById, Allows;
  }

  /** At the goal, view entries and target services correspond one to one, with
      the same networks and volumes. */
  lemma GoalEntry(sys: Sys, target: Apps, a: nat, s: Service, names: Naming)
    requires Good(sys, names) && Synced(sys.view, sys, Key(a, s.serviceId))
    requires Goal(sys.world, target) && AllSupported(sys.world, target)
    requires s in ServicesOf(sys.view, a)
    ensures exists t <- ServicesOf(target, a) ::
      t.config.Networks() == s.config.Networks() && t.config.Volumes() == s.config.Volumes()
  {
    var k := Key(a, s.serviceId);
    assert s in Entries(sys.view, k);
    var cid, c :| At(sys, k, cid, c) && Entries(sys.view, k) == [ViewOf(cid, c)];
    AtAgrees(sys, k, cid, c, names);
    GoalMeans(sys.world, target, k);
    assert Find(target, k).value in ServicesOf(target, a);
  }

  lemma GoalService(sys: Sys, target: Apps, a: nat, t: Service, names: Naming)
    requires Good(sys, names) && GoodTarget(target, names) && Synced(sys.view, sys, Key(a, t.serviceId))
    requires Goal(sys.world, target) && AllSupported(sys.world, target)
    requires t in ServicesOf(target, a)
    ensures exists s <- ServicesOf(sys.view, a) ::
      t.config.Networks() == s.config.Networks() && t.config.Volumes() == s.config.Volumes()
  {
    var k := Key(a, t.serviceId);
    var i :| 0 <= i < |target[a].services| && target[a].services[i] == t;
    UniqueIsLast(target[a].services, i);
    GoalMeans(sys.world, target, k);
    if Entries(sys.view, k) == [] {
      EmptyAgrees(sys, k);
    } else {
      var cid, c :| At(sys, k, cid, c) && Entries(sys.view, k) == [ViewOf(cid, c)];
      AtAgrees(sys, k, cid, c, names);
      assert ViewOf(cid, c) in Entries(sys.view, k);
    }
  }

  lemma NothingMissing(cur: seq<string>, tgt: seq<string>)
    requires forall n :: n in cur <==> n in tgt
    ensures Missing(cur, tgt) == [] && Missing(tgt, cur) == []
  {
    AllExcluded(Dedup(tgt), cur);
    AllExcluded(Dedup(cur), tgt);
  }

  lemma GoalNames(sys: Sys, target: Apps, a: nat, n: string, names: Naming)
    requires Good(sys, names) && GoodTarget(target, names) && forall k: Key :: Synced(sys.view, sys, k)
    requires Goal(sys.world, target) && AllSupported(sys.world, target)
    ensures n in NetworkNames(ServicesOf(sys.view, a)) <==> n in NetworkNames(ServicesOf(target, a))
    ensures n in VolumeNames(ServicesOf(sys.view, a)) <==> n in VolumeNames(ServicesOf(target, a))
  {
    hide *;
    var cur, tgt := ServicesOf(sys.view, a), ServicesOf(target, a);
    NetworkNamesMean(cur, n);
    NetworkNamesMean(tgt, n);
    VolumeNamesMean(cur, n);
    VolumeNamesMean(tgt, n);
    forall s | s in cur ensures exists t <- tgt :: t.config.Networks() == s.config.Networks() && t.config.Volumes() == s.config.Volumes() {
      GoalEntry(sys, target, a, s, names);
    }
    forall t | t in tgt ensures exists s <- cur :: t.config.Networks() == s.config.Networks() && t.config.Volumes() == s.config.Volumes() {
      GoalService(sys, target, a, t, names);
    }
  }

  lemma GoalResources(sys: Sys, target: Apps, gate: Gate, a: nat, names: Naming)
    requires Good(sys, names) && GoodTarget(target, names) && forall k: Key :: Synced(sys.view, sys, k)
    requires Goal(sys.world, target) && AllSupported(sys.world, target)
    ensures BlockSteps(Before(a), sys.view, target, gate) == []
    ensures BlockSteps(After(a), sys.view, target, gate) == []
  {
    var cur, tgt := ServicesOf(sys.view, a), ServicesOf(target, a);
    forall n
      ensures n in NetworkNames(cur) <==> n in NetworkNames(tgt)
      ensures n in VolumeNames(cur) <==> n in VolumeNames(tgt)
    {
      GoalNames(sys, target, a, n, names);
    }
    hide Good, GoodTarget, Goal, AllSupported, Synced, NetworkNames, VolumeNames;
    NothingMissing(NetworkNames(cur), NetworkNames(tgt));
    NothingMissing(VolumeNames(cur), VolumeNames(tgt));
  }

  lemma {:induction false} StepsOfEmptyIff(bs: seq<Block>, view: Apps, target: Apps, gate: Gate)
    ensures StepsOf(bs, view, target, gate) == [] <==> forall b <- bs :: BlockSteps(b, view, target, gate) == []
  {
    hide BlockSteps;
    if bs != [] {
      StepsOfEmptyIff(Init(bs), view, target, gate);
      assert forall b :: b in bs <==> b in Init(bs) || b == Last(bs);
    }
  }

  /** A plan made from a fresh view is empty, resource steps included, exactly
      when the world is at its goal. */
  lemma PlanEmptyIffGoal(w: World, listing: seq<Cid>, target: Apps, gate: Gate, names: Naming)
    requires Admissible(w, target, names) && WellPosed(target, names) && IsListing(listing, w)
    requires AllAllowed(target, gate) && AllSupported(w, target)
    ensures Plan(SyncView(w, listing), target, gate) == [] <==> Goal(w, target)
  {
    hide SyncView, Plan, StepsOf, BlocksOf, BlockSteps, GoodTarget, AllAllowed, Disjoint, Ready, Rank, Supported, ContainerOf, Find, Good;
    var sys := Sys(SyncView(w, listing), w, map[]);
    SyncLaunches(w, listing, map[], target, gate, names);
    SyncAgrees(w, listing, map[], names);
    AgreedIsWellKeyed(sys, names);
    TargetWellKeyed(target, names);
    PlanIsBlocks(sys.view, target, gate);
    BlocksOrdered(sys.view, target);
    StepsOfEmptyIff(BlocksOf(sys.view, target), sys.view, target, gate);
    forall k: Key
      ensures BlockSteps(One(k), sys.view, target, gate) == [] <==> Rank(Find(target, k), ContainerOf(w, k)) == 0
      ensures One(k) !in BlocksOf(sys.view, target) ==> BlockSteps(One(k), sys.view, target, gate) == []
    {
      BlockEmptyIff(sys, target, gate, k, names);
      if One(k) !in BlocksOf(sys.view, target) { UnlistedBlock(sys.view, target, gate, k); }
    }
    if Goal(w, target) {
      forall b | b in BlocksOf(sys.view, target)
        ensures BlockSteps(b, sys.view, target, gate) == []
      {
        if !b.One? { GoalResources(sys, target, gate, AppOf(b), names); }
      }
    }
  }

  lemma UnlistedBlock(view: Apps, target: Apps, gate: Gate, k: Key)
    requires Find(view, k) == None && Find(target, k) == None
    ensures BlockSteps(One(k), view, target, gate) == []
  {}
}
