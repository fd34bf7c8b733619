/** One whole failure-free pass refines the automaton `Moves` for every service
    at once. */
module CleanPass {
  import opened Basics
  import opened Compose
  import opened Ports
  import opened Engine
  import opened Retry
  import opened Planner
  import opened Execution
  import opened Blocks
  import opened Agreement
  import opened Runs
  import opened CleanSteps
  import opened CleanBlocks

  /** Some service of the target app `a` uses network `n`. */
  ghost predicate Wanted(target: Apps, a: nat, n: string) {
    n in NetworkNames(ServicesOf(target, a))
  }

  /** If the target app `a` uses networks, it creates them under the name its
      containers join. This fails for an app with a uuid of its own. */
  ghost predicate OwnerOk(target: Apps, a: nat) {
    a in target && NetworkNames(target[a].services) != [] ==> OwnerOf(Some(target[a]), a) == Decimal(a)
  }

  /** A network that some app of the target creates. */
  ghost predicate MadeBy(target: Apps, net: NetName) {
    exists a <- target :: net.owner == OwnerOf(Some(target[a]), a)
  }

  ghost predicate AllAllowed(target: Apps, gate: Gate) {
    forall a <- target :: forall s <- target[a].services :: Allows(gate, s.imageName)
  }

  /** Wanted networks that a running or paused container of the app lists exist.
      An engine keeps this by refusing to remove a network in use. */
  ghost predicate Ready(w: World, target: Apps) {
    forall id <- w.containers :: Active(w.containers[id]) ==>
      forall n <- w.containers[id].config.Networks() ::
        Wanted(target, w.containers[id].key.app, n) ==> NetName(Decimal(w.containers[id].key.app), n) in w.networks
  }

  /** So do those that an exited container lists. An engine does not see to that. */
  ghost predicate Stocked(w: World, target: Apps) {
    forall id <- w.containers :: forall n <- w.containers[id].config.Networks() ::
      Wanted(target, w.containers[id].key.app, n) ==> NetName(Decimal(w.containers[id].key.app), n) in w.networks
  }

  /** The network exists, or no container of the app lists it: then a plan creates it. */
  ghost predicate Obtainable(w: World, a: nat, n: string) {
    || NetName(Decimal(a), n) in w.networks
    || forall id <- w.containers :: w.containers[id].key.app == a ==> n !in w.containers[id].config.Networks()
  }

  lemma StockedObtains(w: World, target: Apps, a: nat, n: string)
    requires Stocked(w, target) && Wanted(target, a, n)
    ensures Obtainable(w, a, n)
  {}

  /** The worlds a run may start from. */
  ghost predicate Admissible(w: World, target: Apps, names: Naming) {
    GoodWorld(w, names) && OnePerService(w) && Ready(w, target)
  }

  lemma {:induction false} NetworkNamesMean(services: seq<Service>, n: string)
    ensures n in NetworkNames(services) <==> exists s <- services :: n in s.config.Networks()
  {
    if services != [] {
      NetworkNamesMean(Init(services), n);
      assert forall s :: s in services <==> s in Init(services) || s == Last(services);
    }
  }

  lemma {:induction false} VolumeNamesMean(services: seq<Service>, v: string)
    ensures v in VolumeNames(services) <==> exists s <- services :: v in NamedVolumes(s.config.Volumes())
  {
    if services != [] {
      VolumeNamesMean(Init(services), v);
      assert forall s :: s in services <==> s in Init(services) || s == Last(services);
    }
  }

  // ---------------------------------------------------------- resource blocks

  lemma EachSnoc(action: ResourceAction, a: nat, ns: seq<string>)
    ensures ns == [] ==> Each(action, a, ns) == []
    ensures ns != [] ==>
      && Each(action, a, ns) != []
      && Init(Each(action, a, ns)) == Each(action, a, Init(ns))
      && Last(Each(action, a, ns)) == ResourceStep(action, a, Last(ns))
  {}

  lemma VolumeIdle(sys: Sys, target: Apps, action: ResourceAction, a: nat, v: string, e: Env)
    requires action == MakeVolume || action == DropVolume
    ensures ExecStep(sys, target, ResourceStep(action, a, v), e).sys.world.networks == sys.world.networks
  {}

  lemma RemoveSpares(sys: Sys, target: Apps, a: nat, n: string, e: Env, net: NetName)
    requires a in sys.view ==> sys.view[a].appUuid == None
    requires net in sys.world.networks && net != NetName(Decimal(a), n)
    ensures var after := ExecStep(sys, target, RemoveNetwork(a, n), e).sys;
            net in after.world.networks && after.view == sys.view
  {}

  lemma {:induction false} VolumesIdle(sys: Sys, target: Apps, action: ResourceAction, a: nat, ns: seq<string>, es: seq<Env>)
    requires |es| == |ns| && (action == MakeVolume || action == DropVolume)
    ensures Run(sys, target, Each(action, a, ns), es).world.networks == sys.world.networks
  {
    hide ExecStep, Each;
    if ns == [] {
      NothingRun(sys, target, es);
    } else {
      EachSnoc(action, a, ns);
      VolumesIdle(sys, target, action, a, Init(ns), Init(es));
      VolumeIdle(Run(sys, target, Each(action, a, Init(ns)), Init(es)), target, action, a, Last(ns), Last(es));
    }
  }

  function OwnedNames(owner: string, ns: seq<string>): set<NetName> { set n | n in ns :: NetName(owner, n) }

  lemma OwnedSnoc(owner: string, ns: seq<string>)
    requires ns != []
    ensures OwnedNames(owner, ns) == OwnedNames(owner, Init(ns)) + {NetName(owner, Last(ns))}
  {
    forall n ensures n in ns <==> n in Init(ns) || n == Last(ns) { InLast(ns, n); }
  }

  lemma {:induction false} CreatesAdd(sys: Sys, target: Apps, a: nat, ns: seq<string>, es: seq<Env>)
    requires a in target && |es| == |ns| && IsClean(es)
    ensures Run(sys, target, Each(MakeNetwork, a, ns), es).world.networks
         == sys.world.networks + OwnedNames(OwnerOf(Some(target[a]), a), ns)
  {
    if ns == [] {
      NothingRun(sys, target, es);
    } else {
      var owner, before := OwnerOf(Some(target[a]), a), Each(MakeNetwork, a, Init(ns));
      CreatesAdd(sys, target, a, Init(ns), Init(es));
      EachSnoc(MakeNetwork, a, ns);
      OwnedSnoc(owner, ns);
      assert Last(es) in es;
      CreateAdds(Run(sys, target, before, Init(es)), target, a, Last(ns), Last(es));
      hide ExecStep, Each, OwnedNames;
    }
  }

  lemma CreateAdds(sys: Sys, target: Apps, a: nat, n: string, e: Env)
    requires a in target && !e.first
    ensures ExecStep(sys, target, ResourceStep(MakeNetwork, a, n), e).sys.world.networks
         == sys.world.networks + {NetName(OwnerOf(Some(target[a]), a), n)}
  {}

  lemma {:induction false} RemovesSpare(sys: Sys, target: Apps, a: nat, ns: seq<string>, es: seq<Env>, net: NetName)
    requires |es| == |ns| && (a in sys.view ==> sys.view[a].appUuid == None)
    requires net in sys.world.networks && forall n <- ns :: net != NetName(Decimal(a), n)
    ensures var after := Run(sys, target, Each(DropNetwork, a, ns), es);
            net in after.world.networks && after.view == sys.view
  {
    hide ExecStep, Each;
    if ns == [] {
      NothingRun(sys, target, es);
    } else {
      EachSnoc(DropNetwork, a, ns);
      RemovesSpare(sys, target, a, Init(ns), Init(es), net);
      RemoveSpares(Run(sys, target, Each(DropNetwork, a, Init(ns)), Init(es)), target, a, Last(ns), Last(es), net);
    }
  }

  lemma {:induction false} RemovesOnlyRemove(sys: Sys, target: Apps, a: nat, ns: seq<string>, es: seq<Env>)
    requires |es| == |ns|
    ensures Run(sys, target, Each(DropNetwork, a, ns), es).world.networks <= sys.world.networks
  {
    hide Each, OwnerOf, NetworkInUse;
    EachSnoc(DropNetwork, a, ns);
    if ns != [] { RemovesOnlyRemove(sys, target, a, Init(ns), Init(es)); }
  }

  lemma RunBoth(sys: Sys, target: Apps, s1: seq<AppStep>, s2: seq<AppStep>, es: seq<Env>)
    requires |es| == |s1| + |s2|
    ensures Run(sys, target, s1 + s2, es)
         == Run(Run(sys, target, s1, es[..|s1|]), target, s2, es[|s1|..])
  {
    assert es == es[..|s1|] + es[|s1|..];
    RunConcat(sys, target, s1, s2, es[..|s1|], es[|s1|..]);
  }

  /** The network exists if an entry of the view for app `a` lists it. */
  ghost predicate ViewedExists(view: Apps, w: World, a: nat, n: string) {
    n in NetworkNames(ServicesOf(view, a)) ==> NetName(Decimal(a), n) in w.networks
  }

  /** After an app's creations the networks its target uses exist, but for those that
      the view lists and that are gone: they are not created again. */
  lemma BeforeProvides(view: Apps, sys: Sys, target: Apps, gate: Gate, a: nat, es: seq<Env>)
    requires |es| == |BlockSteps(Before(a), view, target, gate)| && IsClean(es)
    ensures var after := Run(sys, target, BlockSteps(Before(a), view, target, gate), es);
            && SameContainers(sys, after)
            && sys.world.networks <= after.world.networks
            && (OwnerOk(target, a) ==>
                  forall n :: Wanted(target, a, n) && ViewedExists(view, sys.world, a, n) ==>
                    NetName(Decimal(a), n) in after.world.networks)
            && (forall net <- after.world.networks :: net in sys.world.networks || MadeBy(target, net))
  {
    var cur, tgt := ServicesOf(view, a), ServicesOf(target, a);
    var volumes := Missing(VolumeNames(cur), VolumeNames(tgt));
    var networks := Missing(NetworkNames(cur), NetworkNames(tgt));
    var v := |volumes|;
    ResourceBlocks(Before(a), view, target, gate);
    ResourcesKeep(sys, target, BlockSteps(Before(a), view, target, gate), es);
    RunBoth(sys, target, Each(MakeVolume, a, volumes), Each(MakeNetwork, a, networks), es);
    VolumesIdle(sys, target, MakeVolume, a, volumes, es[..v]);
    var mid := Run(sys, target, Each(MakeVolume, a, volumes), es[..v]);
    if a in target {
      CreatesAdd(mid, target, a, networks, es[v..]);
      forall n | OwnerOk(target, a) && Wanted(target, a, n) && ViewedExists(view, sys.world, a, n)
        ensures NetName(Decimal(a), n) in Run(mid, target, Each(MakeNetwork, a, networks), es[v..]).world.networks
      {
        assert NetworkNames(target[a].services) != [];
        if n !in NetworkNames(cur) { assert n in networks; }
      }
    } else {
      assert networks == [];
      NothingRun(mid, target, es[v..]);
    }
  }

  /** An app's removals leave its wanted networks in place, and all of other apps. */
  lemma AfterSpares(view: Apps, sys: Sys, target: Apps, gate: Gate, a: nat, es: seq<Env>, names: Naming)
    requires |es| == |BlockSteps(After(a), view, target, gate)| && Good(sys, names)
    ensures var after := Run(sys, target, BlockSteps(After(a), view, target, gate), es);
            && SameContainers(sys, after) && after.world.networks <= sys.world.networks
            && forall b: nat, n :: (b != a || Wanted(target, b, n)) && NetName(Decimal(b), n) in sys.world.networks ==>
                 NetName(Decimal(b), n) in after.world.networks
  {
    var cur, tgt := ServicesOf(view, a), ServicesOf(target, a);
    var volumes := Missing(VolumeNames(tgt), VolumeNames(cur));
    var networks := Missing(NetworkNames(tgt), NetworkNames(cur));
    var m := |networks|;
    ResourceBlocks(After(a), view, target, gate);
    ResourcesKeep(sys, target, BlockSteps(After(a), view, target, gate), es);
    RunBoth(sys, target, Each(DropNetwork, a, networks), Each(DropVolume, a, volumes), es);
    var mid := Run(sys, target, Each(DropNetwork, a, networks), es[..m]);
    VolumesIdle(mid, target, DropVolume, a, volumes, es[m..]);
    RemovesOnlyRemove(sys, target, a, networks, es[..m]);
    forall b: nat, n | (b != a || Wanted(target, b, n)) && NetName(Decimal(b), n) in sys.world.networks
      ensures NetName(Decimal(b), n) in mid.world.networks
    {
      forall x | x in networks
        ensures NetName(Decimal(b), n) != NetName(Decimal(a), x)
      {
        if Decimal(a) == Decimal(b) { DecimalInjective(a, b); }
      }
      RemovesSpare(sys, target, a, networks, es[..m], NetName(Decimal(b), n));
    }
  }

  // ------------------------------------------------------------ through a plan

  /** The networks there may be, and those there must be, when app `a` is served. */
  ghost predicate Within(start: Sys, target: Apps, a: nat, networks: set<NetName>) {
    && (OwnerOk(target, a) ==>
          forall n :: Wanted(target, a, n) && Obtainable(start.world, a, n) ==> NetName(Decimal(a), n) in networks)
    && (forall n :: NetName(Decimal(a), n) in start.world.networks ==> NetName(Decimal(a), n) in networks)
    && (forall net <- networks :: net in start.world.networks || MadeBy(target, net))
  }

  /** Service `k` has made its move. */
  ghost predicate Moved(start: Sys, sys: Sys, target: Apps, k: Key) {
    exists networks: set<NetName> ::
      && Within(start, target, k.app, networks)
      && Moves(Find(target, k), ContainerOf(start.world, k), ContainerOf(sys.world, k), networks)
  }

  /** It has made its move, or if not `strict` has no container. */
  ghost predicate Served(start: Sys, sys: Sys, target: Apps, k: Key, strict: bool) {
    Moved(start, sys, target, k) || (!strict && ContainerOf(sys.world, k) == None)
  }

  /** The networks once the blocks `bs` have run. */
  ghost predicate Supply(start: Sys, sys: Sys, target: Apps, bs: seq<Block>) {
    && Ready(sys.world, target)
    && (forall net <- sys.world.networks :: net in start.world.networks || MadeBy(target, net))
    && (forall a: nat, n :: Wanted(target, a, n) && NetName(Decimal(a), n) in start.world.networks ==>
          NetName(Decimal(a), n) in sys.world.networks)
    && (forall a: nat, n :: Before(a) in bs && OwnerOk(target, a) && Wanted(target, a, n) && Obtainable(start.world, a, n) ==>
          NetName(Decimal(a), n) in sys.world.networks)
    && (forall a: nat, n :: After(a) !in bs && NetName(Decimal(a), n) in start.world.networks ==>
          NetName(Decimal(a), n) in sys.world.networks)
  }

  /** What has been achieved once the blocks `bs` have run. */
  ghost predicate Progress(start: Sys, sys: Sys, target: Apps, bs: seq<Block>, names: Naming, strict: bool) {
    && Good(sys, names)
    && Supply(start, sys, target, bs)
    && (forall k: Key :: Settled(sys, k))
    && (forall k: Key :: if One(k) in bs then Served(start, sys, target, k, strict) else Untouched(start, sys, k))
  }

  lemma UntouchedSettled(s1: Sys, s2: Sys, k: Key)
    requires Settled(s1, k) && Untouched(s1, s2, k)
    ensures Settled(s2, k) && ContainerOf(s1.world, k) == ContainerOf(s2.world, k)
  {
    if !Empty(s1, k) {
      var cid, c :| At(s1, k, cid, c);
      assert At(s2, k, cid, c);
    }
  }

  lemma SyncedLater(view: Apps, s1: Sys, s2: Sys, k: Key)
    requires Synced(view, s1, k) && Untouched(s1, s2, k)
    ensures Synced(view, s2, k)
  {
    if Entries(view, k) != [] {
      var cid, c :| At(s1, k, cid, c) && Entries(view, k) == [ViewOf(cid, c)];
      assert At(s2, k, cid, c);
    }
  }

  lemma SyncedSettled(view: Apps, sys: Sys, k: Key)
    requires Synced(view, sys, k)
    ensures Settled(sys, k)
  {}

  lemma TargetAllowed(target: Apps, gate: Gate, k: Key, view: Apps)
    requires AllAllowed(target, gate)
    ensures Find(target, k).Some? ==> Allows(GateFor(view, k.app, gate), Find(target, k).value.imageName)
  {}

  /** An active container has joined what it lists in its move, or was active with
      the same list before. */
  lemma MovedJoins(tgt: Option<Service>, before: Option<Container>, after: Option<Container>, networks: set<NetName>)
    requires Moves(tgt, before, after, networks) && after.Some? && Active(after.value)
    ensures (forall n <- after.value.config.Networks() :: NetName(Decimal(after.value.key.app), n) in networks)
         || (before.Some? && Active(before.value)
             && before.value.config == after.value.config && before.value.key == after.value.key)
  {
    forall s | Accepted(s, networks)
      ensures forall n <- NewContainer(s, networks).config.Networks() :: NetName(Decimal(s.appId), n) in networks
      ensures NewContainer(s, networks).key.app == s.appId
    {
      AttachedExist(s, networks);
    }
    hide DriftOf, ViewOf, NewContainer, Accepted;
  }

  /** A container the engine accepts is attached to networks that are there. */
  lemma AttachedExist(s: Service, networks: set<NetName>)
    requires Accepted(s, networks)
    ensures forall n <- NewContainer(s, networks).config.Networks() :: NetName(Decimal(s.appId), n) in networks
  {
    hide PublishedPorts, ReportedEnv, ReportedMounts, OwnNetwork, SharesNamespace, PortsTaken;
  }

  lemma MovedReady(sys: Sys, after: Sys, target: Apps, k: Key, strict: bool)
    requires Ready(sys.world, target) && after.world.networks == sys.world.networks
    requires Settled(sys, k) && Settled(after, k) && forall o: Key :: o != k ==> Untouched(sys, after, o)
    requires Went(Find(target, k), ContainerOf(sys.world, k), ContainerOf(after.world, k), sys.world.networks, strict)
    ensures Ready(after.world, target)
  {
    hide Find, Entries, Moves;
    forall id | id in after.world.containers && Active(after.world.containers[id])
      ensures forall n <- after.world.containers[id].config.Networks() ::
        Wanted(target, after.world.containers[id].key.app, n) ==>
          NetName(Decimal(after.world.containers[id].key.app), n) in after.world.networks
    {
      var c := after.world.containers[id];
      if c.key != k {
        assert Untouched(sys, after, c.key);
      } else {
        assert ContainerOf(after.world, k) == Some(c);
        MovedJoins(Find(target, k), ContainerOf(sys.world, k), Some(c), sys.world.networks);
      }
    }
  }

  lemma OneProgress(start: Sys, sys: Sys, target: Apps, gate: Gate, bs: seq<Block>, k: Key, es: seq<Env>, names: Naming, strict: bool)
    requires Progress(start, sys, target, bs, names, strict) && One(k) !in bs && Before(k.app) in bs && After(k.app) !in bs
    requires GoodTarget(target, names) && (strict ==> Disjoint(names) && AllAllowed(target, gate))
    requires Good(start, names) && Synced(start.view, start, k) && IsClean(es)
    requires |es| == |BlockSteps(One(k), start.view, target, gate)|
    ensures Progress(start, Run(sys, target, BlockSteps(One(k), start.view, target, gate), es), target, bs + [One(k)], names, strict)
  {
    hide BlockSteps, Run, GoodTarget, GoodView, AllAllowed, Allows, Disjoint, Moves, ContainerOf, Entries, Settled, Wanted, Synced, Find, Ready, MadeBy, OwnerOk;
    var after := Run(sys, target, BlockSteps(One(k), start.view, target, gate), es);
    SyncedLater(start.view, start, sys, k);
    SyncedSettled(start.view, start, k);
    UntouchedSettled(start, sys, k);
    if strict { TargetAllowed(target, gate, k, start.view); }
    BlockMoves(start.view, sys, target, gate, k, es, names, strict);
    MovedReady(sys, after, target, k, strict);
    assert Within(start, target, k.app, sys.world.networks);
    forall o: Key
      ensures Settled(after, o)
      ensures if One(o) in bs + [One(k)] then Served(start, after, target, o, strict) else Untouched(start, after, o)
    {
      if o != k {
        UntouchedSettled(sys, after, o);
        if One(o) !in bs { UntouchedTransitive(start, sys, after, o); }
      }
    }
  }

  lemma ResourceProgress(start: Sys, sys: Sys, after: Sys, target: Apps, bs: seq<Block>, b: Block, names: Naming, strict: bool)
    requires Progress(start, sys, target, bs, names, strict) && !b.One? && SameContainers(sys, after)
    requires forall a: nat, n ::
      (b != After(a) || Wanted(target, a, n)) && NetName(Decimal(a), n) in sys.world.networks ==>
        NetName(Decimal(a), n) in after.world.networks
    requires forall net <- after.world.networks :: net in sys.world.networks || MadeBy(target, net)
    requires b.Before? && OwnerOk(target, b.app) ==>
      forall n :: Wanted(target, b.app, n) && Obtainable(start.world, b.app, n) ==>
        NetName(Decimal(b.app), n) in after.world.networks
    ensures Progress(start, after, target, bs + [b], names, strict)
  {
    hide Moves, ContainerOf, Settled, Wanted, Entries, Find, MadeBy, OwnerOk;
    SameKeeps(sys, after, names);
    forall o: Key
      ensures Settled(after, o)
      ensures if One(o) in bs + [b] then Served(start, after, target, o, strict) else Untouched(start, after, o)
    {
      UntouchedSettled(sys, after, o);
      if One(o) !in bs { UntouchedTransitive(start, sys, after, o); }
    }
  }

  /** Where a failure-free pass starts. */
  ghost predicate Launch(start: Sys, target: Apps, gate: Gate, names: Naming, strict: bool) {
    && Good(start, names) && GoodTarget(target, names) && (strict ==> Disjoint(names) && AllAllowed(target, gate))
    && Ready(start.world, target)
    && (forall k: Key :: Synced(start.view, start, k))
  }

  lemma LastBlock(bs: seq<Block>, view: Apps, target: Apps, gate: Gate, es: seq<Env>)
    requires bs != [] && IsClean(es) && |es| == |StepsOf(bs, view, target, gate)|
    ensures var n := |StepsOf(Init(bs), view, target, gate)|;
      && StepsOf(bs, view, target, gate)
         == StepsOf(Init(bs), view, target, gate) + BlockSteps(Last(bs), view, target, gate)
      && n <= |es| && IsClean(es[..n]) && IsClean(es[n..])
    ensures bs == Init(bs) + [Last(bs)]
  {
    hide BlockSteps;
  }

  lemma {:induction false} BlocksProgress(start: Sys, target: Apps, gate: Gate, bs: seq<Block>, es: seq<Env>, names: Naming, strict: bool)
    requires Launch(start, target, gate, names, strict) && Ordered(bs) && IsClean(es)
    requires |es| == |StepsOf(bs, start.view, target, gate)|
    ensures Progress(start, Run(start, target, StepsOf(bs, start.view, target, gate), es), target, bs, names, strict)
  {
    if bs == [] {
      StartProgress(start, target, gate, names, strict);
      NothingRun(start, target, es);
    } else {
      hide *;
      OrderedPrefix(bs);
      LastBlock(bs, start.view, target, gate, es);
      var earlier, b := Init(bs), Last(bs);
      var first, last := StepsOf(earlier, start.view, target, gate), BlockSteps(b, start.view, target, gate);
      var e1, e2 := es[..|first|], es[|first|..];
      BlocksProgress(start, target, gate, earlier, e1, names, strict);
      var mid := Run(start, target, first, e1);
      RunBoth(start, target, first, last, es);
      BlockProgress(start, mid, target, gate, earlier, b, e2, names, strict);
    }
  }

  lemma StartProgress(start: Sys, target: Apps, gate: Gate, names: Naming, strict: bool)
    requires Launch(start, target, gate, names, strict)
    ensures Progress(start, start, target, [], names, strict)
  {
    hide Entries, Settled, Moves, Wanted, Synced;
    forall k: Key
      ensures Settled(start, k)
    {
      SyncedSettled(start.view, start, k);
    }
  }

  lemma BlockProgress(start: Sys, sys: Sys, target: Apps, gate: Gate, bs: seq<Block>, b: Block, es: seq<Env>, names: Naming, strict: bool)
    requires Launch(start, target, gate, names, strict) && Progress(start, sys, target, bs, names, strict) && IsClean(es)
    requires b !in bs && (b.One? ==> Before(b.key.app) in bs && After(b.key.app) !in bs)
    requires |es| == |BlockSteps(b, start.view, target, gate)|
    ensures Progress(start, Run(sys, target, BlockSteps(b, start.view, target, gate), es), target, bs + [b], names, strict)
  {
    var after := Run(sys, target, BlockSteps(b, start.view, target, gate), es);
    ProgressGood(start, sys, target, bs, names, strict);
    hide BlockSteps, Run, Progress, GoodTarget, GoodView, AllAllowed, Disjoint, Settled, Wanted, Synced, OwnerOk, MadeBy, Ready, Obtainable, ViewedExists;
    match b
    case One(k) => OneProgress(start, sys, target, gate, bs, k, es, names, strict);
    case Before(a) =>
      ViewedNetworks(start, sys, target, bs, a, names, strict);
      BeforeProvides(start.view, sys, target, gate, a, es);
      ResourceProgress(start, sys, after, target, bs, b, names, strict);
    case After(a) =>
      AfterSpares(start.view, sys, target, gate, a, es, names);
      ResourceProgress(start, sys, after, target, bs, b, names, strict);
  }

  lemma ProgressGood(start: Sys, sys: Sys, target: Apps, bs: seq<Block>, names: Naming, strict: bool)
    requires Progress(start, sys, target, bs, names, strict)
    ensures Good(sys, names)
    ensures forall a: nat, n :: Wanted(target, a, n) && NetName(Decimal(a), n) in start.world.networks ==>
              NetName(Decimal(a), n) in sys.world.networks
  {}

  /** What a fresh view lists, some container lists. */
  lemma ViewedNetworks(start: Sys, sys: Sys, target: Apps, bs: seq<Block>, a: nat, names: Naming, strict: bool)
    requires Progress(start, sys, target, bs, names, strict) && forall k: Key :: Synced(start.view, start, k)
    ensures forall n :: Wanted(target, a, n) && Obtainable(start.world, a, n) ==> ViewedExists(start.view, sys.world, a, n)
  {
    forall n | n in NetworkNames(ServicesOf(start.view, a)) && Wanted(target, a, n) && Obtainable(start.world, a, n)
      ensures NetName(Decimal(a), n) in sys.world.networks
    {
      var services := ServicesOf(start.view, a);
      NetworkNamesMean(services, n);
      var s :| s in services && n in s.config.Networks();
      var k := Key(a, s.serviceId);
      assert s in Entries(start.view, k) && Synced(start.view, start, k);
      var cid, c :| At(start, k, cid, c) && Entries(start.view, k) == [ViewOf(cid, c)];
      assert s == ViewOf(cid, c) && start.world.containers[cid] == c;
    }
  }

  // ------------------------------------------------------------- the whole pass

  lemma SyncLaunches(w: World, listing: seq<Cid>, retries: Retries, target: Apps, gate: Gate, names: Naming)
    requires Admissible(w, target, names) && IsListing(listing, w)
    requires GoodTarget(target, names) && Disjoint(names) && AllAllowed(target, gate)
    ensures Launch(Sys(SyncView(w, listing), w, retries), target, gate, names, true)
  {
    var start := Sys(SyncView(w, listing), w, retries);
    hide SyncView, GoodTarget, AllAllowed, Disjoint, Ready;
    SyncAgrees(w, listing, retries, names);
    forall k: Key
      ensures Synced(start.view, start, k)
    {
      SyncMirrors(w, listing, k);
      assert Agree(start, k);
      if id :| id in w.containers && w.containers[id].key == k {
        assert id in listing;
        assert At(start, k, id, w.containers[id]);
      }
    }
  }

  /** A failure-free pass is one step of `Moves` for every service. Where the
      networks that exited containers list still exist, the step is taken with all
      those that the service's app asks for. */
  lemma PassMoves(w: World, retries: Retries, target: Apps, listing: seq<Cid>, now: int, es: seq<Env>, names: Naming)
    requires Admissible(w, target, names) && IsListing(listing, w)
    requires GoodTarget(target, names) && Disjoint(names) && AllAllowed(target, Gate(retries, now)) && IsClean(es)
    requires |es| == |Plan(SyncView(w, listing), target, Gate(retries, now))|
    ensures var after := Pass(w, retries, target, listing, now, es);
            && Admissible(after.world, target, names)
            && (forall k: Key :: Moved(Sys(SyncView(w, listing), w, retries), after, target, k))
            && (forall net <- after.world.networks :: net in w.networks || MadeBy(target, net))
            && (forall a: nat, n :: Wanted(target, a, n) && NetName(Decimal(a), n) in w.networks ==>
                  NetName(Decimal(a), n) in after.world.networks)
  {
    hide SyncView, StepsOf, Plan, Run, GoodTarget, AllAllowed, Disjoint, BlocksOf, Find, Moves, ContainerOf, Ready, Settled, MadeBy;
    var view := SyncView(w, listing);
    var start := Sys(view, w, retries);
    var gate := Gate(retries, now);
    SyncLaunches(w, listing, retries, target, gate, names);
    SyncAgrees(w, listing, retries, names);
    AgreedIsWellKeyed(start, names);
    TargetWellKeyed(target, names);
    PlanIsBlocks(view, target, gate);
    BlocksOrdered(view, target);
    var bs := BlocksOf(view, target);
    BlocksProgress(start, target, gate, bs, es, names, true);
    var after := Pass(w, retries, target, listing, now, es);
    SettledIsOne(after);
    forall k: Key
      ensures Moved(start, after, target, k)
    {
      if One(k) !in bs { IdleMoves(start, after, target, k, names); }
    }
  }

  lemma SettledIsOne(sys: Sys)
    requires forall k: Key :: Settled(sys, k)
    ensures OnePerService(sys.world)
  {
    forall i, j | i in sys.world.containers && j in sys.world.containers
                  && sys.world.containers[i].key == sys.world.containers[j].key
      ensures i == j
    {
      assert Settled(sys, sys.world.containers[i].key);
    }
  }

  /** A service in neither state has no container, and none appears. */
  lemma IdleMoves(start: Sys, after: Sys, target: Apps, k: Key, names: Naming)
    requires Good(start, names) && Synced(start.view, start, k) && Untouched(start, after, k)
    requires Find(start.view, k) == None && Find(target, k) == None && Settled(after, k)
    ensures Moved(start, after, target, k)
  {
    LastIsEntry(ServicesOf(start.view, k.app), k.svc);
    EmptyAgrees(start, k);
    UntouchedSettled(start, after, k);
    var made := set a, n | a in target && n in NetworkNames(target[a].services) :: NetName(OwnerOf(Some(target[a]), a), n);
    var networks := start.world.networks + made;
    forall net | net in made
      ensures MadeBy(target, net)
    {}
    forall n | OwnerOk(target, k.app) && Wanted(target, k.app, n)
      ensures NetName(Decimal(k.app), n) in networks
    {
      assert k.app in target && n in NetworkNames(target[k.app].services);
    }
    assert Within(start, target, k.app, networks);
  }
}
