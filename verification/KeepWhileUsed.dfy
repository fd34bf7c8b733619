/** Resources are removed only once no container of the app refers to them,
    provided no service is waiting for a change of desired state. */
module KeepWhileUsed {
  import opened Basics
  import opened Compose
  import opened Ports
  import opened Engine
  import opened Retry
  import opened Planner
  import opened Execution
  import opened Blocks
  import opened Agreement
  import opened Runs
  import opened CleanSteps
  import opened CleanBlocks
  import opened CleanPass
  import opened StepOrder

  /** No service in both states has a desired state to change. */
  ghost predicate NoTransitions(view: Apps, target: Apps) {
    forall k: Key :: Find(view, k).Some? && Find(target, k).Some? ==>
      Find(view, k).value.Desired() == Find(target, k).value.Desired()
  }

  /** Every mount of the target names its source. */
  ghost predicate Mounted(target: Apps) {
    forall a <- target :: forall s <- target[a].services :: forall e <- s.config.Volumes() :: ':' in e
  }

  lemma {:induction false} ReportKeepsNames(entries: seq<string>)
    requires forall e <- entries :: ':' in e
    ensures NamedVolumes(ReportedMounts(entries)) == NamedVolumes(entries)
  {
    if entries != [] {
      var e := Last(entries);
      assert e in entries && forall x <- Init(entries) :: x in entries;
      ReportKeepsNames(Init(entries));
      assert Init(ReportedMounts(entries)) == ReportedMounts(Init(entries));
      BeforeColonJoin(e, AfterColon(e));
      assert e[0] == ':' || BeforeColon(e)[0] == e[0];
    }
  }

  lemma {:induction false} BeforeColonJoin(e: string, rest: string)
    ensures BeforeColon(BeforeColon(e) + ":" + rest) == BeforeColon(e)
  {
    if e != "" && e[0] != ':' {
      BeforeColonJoin(e[1..], rest);
      assert (BeforeColon(e) + ":" + rest)[1..] == BeforeColon(e[1..]) + ":" + rest;
    }
  }

  /** The network of the app that a service's mode names. */
  function ModeNetwork(s: Option<Service>): Option<string> {
    if s.Some? then OwnNetwork(s.value.appId, NetworkMode(s.value.config)) else None
  }

  /** After its turn a service refers only to what its target asks for, in its lists or
      by its mode, and has the mode its target asks for. */
  lemma MovedUses(tgt: Option<Service>, before: Option<Container>, after: Option<Container>, networks: set<NetName>,
                  kind: Kind, n: string)
    requires Moves(tgt, before, after, networks) && after.Some?
    requires tgt.Some? && before.Some? ==> ModeOf(before.value.status) == tgt.value.Desired()
    requires kind == Vol && tgt.Some? ==> forall e <- tgt.value.config.Volumes() :: ':' in e
    ensures tgt.Some?
    ensures n in ConfigNames(kind, after.value.config) ==>
      n in ConfigNames(kind, tgt.value.config) || (kind == Net && ModeNetwork(tgt) == Some(n))
    ensures ModeNetwork(tgt).Some? ==> NetworkMode(after.value.config) == NetworkMode(tgt.value.config)
  {
    if tgt.Some? {
      if kind == Vol { ReportKeepsNames(tgt.value.config.Volumes()); }
      ReportedMode(tgt.value, networks);
      StartedUses(tgt.value, networks, n);
      OwnIsNoDefault(tgt.value.appId);
      if before.Some? && !DriftOf(before.value, tgt.value) { SameUses(before.value.config, tgt.value, kind); }
    }
    hide NamedVolumes, ConfigChanged, PublishedPorts, ReportedEnv, ReportedMounts, OwnNetwork, Attached, Accepted;
  }

  /** A container without drift refers to what its target does, and has its mode. */
  lemma SameUses(c: Config, s: Service, kind: Kind)
    requires !ConfigChanged(c, s.config)
    ensures ConfigNames(kind, c) == ConfigNames(kind, s.config)
    ensures s.config.networkMode.Some? ==> NetworkMode(c) == NetworkMode(s.config)
  {
    hide FilteredEnvironment;
  }

  lemma StartedUses(s: Service, networks: set<NetName>, n: string)
    ensures n in Attached(s, networks) ==> n in s.config.Networks() || OwnNetwork(s.appId, NetworkMode(s.config)) == Some(n)
  {
    hide OwnNetwork, SharesNamespace;
  }

  lemma OwnIsNoDefault(a: nat)
    ensures OwnNetwork(a, "bridge") == None
  {
    var prefix := Decimal(a) + "_";
    assert IsDigit(prefix[0]) by { assert Decimal(a)[0] in Decimal(a) && prefix[0] == Decimal(a)[0]; }
    StartsWithAt("bridge", prefix, 0);
  }

  /** The blocks of a plan up to an app's removals. */
  function UpToRemovals(view: Apps, target: Apps, order: seq<nat>, a: nat): seq<Block> {
    BlocksFor(view, target, order) + [Before(a)] + Ones(a, AppIds(view, target, a))
  }

  lemma UpToRemovalsIs(view: Apps, target: Apps, order: seq<nat>, i: nat)
    requires i < |order|
    ensures var bs := UpToRemovals(view, target, order[..i], order[i]);
            BlocksFor(view, target, order[..i + 1]) == bs + [After(order[i])] && Init(bs + [After(order[i])]) == bs
  {
    hide AppIds;
    var sub := order[..i + 1];
    assert Init(sub) == order[..i] && Last(sub) == order[i];
  }

  lemma UpToRemovalsOrdered(view: Apps, target: Apps, order: seq<nat>, i: nat)
    requires NoDup(order) && i < |order|
    ensures Ordered(UpToRemovals(view, target, order[..i], order[i]))
    ensures forall k: Key :: k.app == order[i] && (Find(view, k).Some? || Find(target, k).Some?) ==>
      One(k) in UpToRemovals(view, target, order[..i], order[i])
  {
    hide AppIds, Find, BlocksFor, Ordered, UpToRemovals;
    var sub := order[..i + 1];
    var bs := UpToRemovals(view, target, order[..i], order[i]);
    UpToRemovalsIs(view, target, order, i);
    BlocksForOrdered(view, target, sub);
    OrderedPrefix(bs + [After(order[i])]);
    forall k: Key | k.app == order[i] && (Find(view, k).Some? || Find(target, k).Some?)
      ensures One(k) in bs
    {
      ListedIffFound(view, target, k);
      assert k.app in sub;
      assert One(k) in bs + [After(order[i])];
    }
  }

  /** An app's steps before its removals. */
  function Front(view: Apps, target: Apps, a: nat, gate: Gate): seq<AppStep> {
    BeforeContainers(a, ServicesOf(view, a), ServicesOf(target, a))
    + ContainerSteps(AppAt(view, a), AppAt(target, a), gate)
  }

  lemma UpToRemovalsSteps(view: Apps, target: Apps, gate: Gate, order: seq<nat>, i: nat)
    requires WellKeyed(view) && WellKeyed(target) && i < |order| && forall a <- order :: a in view || a in target
    ensures StepsOf(UpToRemovals(view, target, order[..i], order[i]), view, target, gate)
         == PlanFor(view, target, order[..i], gate) + Front(view, target, order[i], gate)
  {
    hide StepsOf, PlanFor, BeforeContainers, ContainerSteps, AppIds, BlocksFor, ServiceSteps, AfterContainers;
    var a := order[i];
    assert a in order && forall b <- order[..i] :: b in order;
    var earlier, ones := BlocksFor(view, target, order[..i]), Ones(a, AppIds(view, target, a));
    PlanForIsBlocks(view, target, order[..i], gate);
    ContainersAreOnes(view, target, a, gate);
    StepsOfBlock(Before(a), view, target, gate);
    StepsOfConcat(earlier, [Before(a)], view, target, gate);
    StepsOfConcat(earlier + [Before(a)], ones, view, target, gate);
  }

  /** Everything that stands before a removal step. */
  lemma RemovalStands(view: Apps, target: Apps, gate: Gate, m: nat) returns (i: nat, part: seq<AppStep>)
    requires WellKeyed(view) && WellKeyed(target) && m < |Plan(view, target, gate)|
    requires IsRemoval(Plan(view, target, gate)[m])
    ensures var order := AppOrder(view, target);
            && i < |order| && order[i] == StepApp(Plan(view, target, gate)[m])
            && Plan(view, target, gate)[..m]
               == StepsOf(UpToRemovals(view, target, order[..i], order[i]), view, target, gate) + part
    ensures ResourceOnly(part)
  {
    hide StepsOf, AppIds, PlanFor, UpToRemovals, WellKeyed, Front, AfterContainers, ResourceOnly, IsRemoval, AppSteps, AppOrder, BlockSteps;
    var order := AppOrder(view, target);
    var off;
    i, off := PlanSegment(view, target, order, gate, m);
    var a := order[i];
    assert a in order;
    AppStepsUniform(view, target, a, gate);
    FrontHasNoRemovals(view, target, a, gate);
    UpToRemovalsSteps(view, target, gate, order, i);
    AppStepsAre(view, target, a, gate);
    var front, after := Front(view, target, a, gate), AfterContainers(a, ServicesOf(view, a), ServicesOf(target, a));
    Tail(front, after, off);
    part := after[..off - |front|];
    AfterIsResource(view, target, gate, a);
    PartIsResource(after, off - |front|);
  }

  lemma AfterIsResource(view: Apps, target: Apps, gate: Gate, a: nat)
    ensures ResourceOnly(AfterContainers(a, ServicesOf(view, a), ServicesOf(target, a)))
  {
    hide AfterContainers, ResourceOnly;
    ResourceBlocks(After(a), view, target, gate);
  }

  predicate IsRemoval(step: AppStep) { step.RemoveNetwork? || step.RemoveVolume? }

  lemma AppStepsAre(view: Apps, target: Apps, a: nat, gate: Gate)
    ensures AppSteps(a, AppAt(view, a), AppAt(target, a), gate)
         == Front(view, target, a, gate) + AfterContainers(a, ServicesOf(view, a), ServicesOf(target, a))
  {
    hide BeforeContainers, ContainerSteps, AfterContainers;
  }

  lemma FrontHasNoRemovals(view: Apps, target: Apps, a: nat, gate: Gate)
    requires WellKeyed(view) && WellKeyed(target) && (a in view || a in target)
    ensures forall step <- Front(view, target, a, gate) :: !IsRemoval(step)
  {
    hide BeforeContainers, ContainerSteps, StepsOf, AppIds, BelongsTo;
    ContainersAreOnes(view, target, a, gate);
    OnesBelong(view, target, a, AppIds(view, target, a), gate);
    BeforeHasNoRemovals(view, target, gate, a);
    forall step | step in ContainerSteps(AppAt(view, a), AppAt(target, a), gate)
      ensures !IsRemoval(step)
    {
      var id :| BelongsTo(step, view, target, Key(a, id));
      BelongingIsNoResource(step, view, target, Key(a, id));
    }
  }

  lemma BeforeHasNoRemovals(view: Apps, target: Apps, gate: Gate, a: nat)
    ensures forall step <- BeforeContainers(a, ServicesOf(view, a), ServicesOf(target, a)) :: !IsRemoval(step)
  {
    hide Missing;
  }

  lemma PartIsResource(steps: seq<AppStep>, n: nat)
    requires ResourceOnly(steps) && n <= |steps|
    ensures ResourceOnly(steps[..n])
  {
    assert forall step <- steps[..n] :: step in steps;
  }

  lemma Tail(front: seq<AppStep>, after: seq<AppStep>, off: nat)
    requires off < |front + after| && IsRemoval((front + after)[off])
    requires forall step <- front :: !IsRemoval(step)
    ensures |front| <= off && (front + after)[..off] == front + after[..off - |front|]
    ensures (front + after)[off] in front + after
  {
    assert forall i | 0 <= i < |front| :: (front + after)[i] == front[i] && front[i] in front;
  }

  /** Keep while used. In a failure-free pass without pending state changes, when a
      network is to be removed the only containers of its app that list it are those
      whose services name it as their mode; and no container of the app mounts a
      volume of the name of a managed one that is to be removed. */
  lemma KeptWhileUsed(start: Sys, target: Apps, gate: Gate, m: nat, es: seq<Env>, names: Naming, kind: Kind, n: string)
    requires Launch(start, target, gate, names, false) && WellKeyed(start.view) && NoTransitions(start.view, target)
    requires IsClean(es) && |es| == m < |Plan(start.view, target, gate)|
    requires Plan(start.view, target, gate)[m] == ResourceStep(DropOf(kind), StepApp(Plan(start.view, target, gate)[m]), n)
    requires kind == Vol ==> Mounted(target)
    ensures var w := Run(start, target, Plan(start.view, target, gate)[..m], es).world;
            forall id <- w.containers :: w.containers[id].key.app == StepApp(Plan(start.view, target, gate)[m]) ==>
              (n in ConfigNames(kind, w.containers[id].config)
               <==> kind == Net && ModeNetwork(Find(target, w.containers[id].key)) == Some(n))
  {
    hide Plan, Run, StepsOf, UpToRemovals, ConfigNames, Find, Progress, Moves, ContainerOf, ResourceOnly, Ordered, NamesOf, ModeNetwork;
    var plan := Plan(start.view, target, gate);
    TargetWellKeyed(target, names);
    assert plan[m] in plan && IsRemoval(plan[m]);
    DropsOnlyUnwanted(start.view, target, gate, kind, StepApp(plan[m]), n);
    var i, part := RemovalStands(start.view, target, gate, m);
    var order := AppOrder(start.view, target);
    var bs := UpToRemovals(start.view, target, order[..i], order[i]);
    var first := StepsOf(bs, start.view, target, gate);
    UpToRemovalsOrdered(start.view, target, order, i);
    RunBoth(start, target, first, part, es);
    var mid := Run(start, target, first, es[..|first|]);
    BlocksProgress(start, target, gate, bs, es[..|first|], names, false);
    ResourcesKeep(mid, target, part, es[|first|..]);
    forall id | id in mid.world.containers && mid.world.containers[id].key.app == order[i]
      ensures n in ConfigNames(kind, mid.world.containers[id].config)
        <==> kind == Net && ModeNetwork(Find(target, mid.world.containers[id].key)) == Some(n)
    {
      UsedIsWanted(start, mid, target, gate, bs, names, id, kind, n);
    }
  }

  lemma UsedIsWanted(start: Sys, mid: Sys, target: Apps, gate: Gate, bs: seq<Block>, names: Naming, id: Cid, kind: Kind, n: string)
    requires Launch(start, target, gate, names, false) && Progress(start, mid, target, bs, names, false)
    requires NoTransitions(start.view, target) && (kind == Vol ==> Mounted(target))
    requires id in mid.world.containers && n !in NamesOf(kind, ServicesOf(target, mid.world.containers[id].key.app))
    requires var k := mid.world.containers[id].key;
             Find(start.view, k).Some? || Find(target, k).Some? ==> One(k) in bs
    ensures var c := mid.world.containers[id];
      n in ConfigNames(kind, c.config) <==> kind == Net && ModeNetwork(Find(target, c.key)) == Some(n)
  {
    hide ConfigNames, Find, Moves, Supply, GoodTarget, AllAllowed, Ready, NamesOf, GoodView, OwnNetwork;
    var c := mid.world.containers[id];
    var k := c.key;
    assert Settled(mid, k) && Listed(c);
    SettledContainer(mid, k, id);
    ViewMatches(start, k, names);
    assert if One(k) in bs then Served(start, mid, target, k, false) else Untouched(start, mid, k);
    StaysVacant(start, mid, k);
    var networks :| Within(start, target, k.app, networks)
      && Moves(Find(target, k), ContainerOf(start.world, k), ContainerOf(mid.world, k), networks);
    if Find(target, k).Some? { FoundService(target, k); }
    MovedUses(Find(target, k), ContainerOf(start.world, k), Some(c), networks, kind, n);
    FoundTarget(target, k, names);
    NamesMean(kind, ServicesOf(target, k.app), n);
    ListedMode(c, Find(target, k), kind, n);
  }

  /** A container with the mode its target asks for lists the network it names. */
  lemma ListedMode(c: Container, tgt: Option<Service>, kind: Kind, n: string)
    requires Listed(c) && tgt.Some? && tgt.value.appId == c.key.app
    requires ModeNetwork(tgt).Some? ==> NetworkMode(c.config) == NetworkMode(tgt.value.config)
    ensures kind == Net && ModeNetwork(tgt) == Some(n) ==> n in ConfigNames(kind, c.config)
  {
    hide OwnNetwork, PlainPort;
  }

  lemma StaysVacant(s1: Sys, s2: Sys, k: Key)
    ensures Untouched(s1, s2, k) && Vacant(s1.world, k) ==> Vacant(s2.world, k)
  {}

  lemma SettledContainer(sys: Sys, k: Key, id: Cid)
    requires Settled(sys, k) && id in sys.world.containers && sys.world.containers[id].key == k
    ensures ContainerOf(sys.world, k) == Some(sys.world.containers[id])
  {}

  /** A fresh view shows a container's condition and nothing where there is none. */
  lemma ViewMatches(start: Sys, k: Key, names: Naming)
    requires Synced(start.view, start, k) && Good(start, names)
    ensures Find(start.view, k) == None ==> ContainerOf(start.world, k) == None && Vacant(start.world, k)
    ensures ContainerOf(start.world, k).Some? ==>
      Find(start.view, k).Some? && Find(start.view, k).value.Desired() == ModeOf(ContainerOf(start.world, k).value.status)
  {
    LastIsEntry(ServicesOf(start.view, k.app), k.svc);
    if Entries(start.view, k) == [] {
      EmptyAgrees(start, k);
    } else {
      var cid, c :| At(start, k, cid, c) && Entries(start.view, k) == [ViewOf(cid, c)];
      AtAgrees(start, k, cid, c, names);
    }
  }
}
