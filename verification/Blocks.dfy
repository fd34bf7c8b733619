/** A plan read as a sequence of blocks: for every application its resource
    creations, one block for each of its services, and its resource removals.
    All later proofs go through a plan block by block. */
module Blocks {
  import opened Basics
  import opened Compose
  import opened Retry
  import opened Planner
  import opened Execution

  datatype Block = Before(app: nat) | One(key: Key) | After(app: nat)

  /** App ids agree with their keys and no app lists a service id twice. */
  ghost predicate WellKeyed(apps: Apps) {
    forall a <- apps ::
      && apps[a].appId == a
      && NoDup(Ids(apps[a].services))
      && forall s <- apps[a].services :: s.appId == a
  }

  function Find(apps: Apps, k: Key): Option<Service> {
    LastById(ServicesOf(apps, k.app), k.svc)
  }

  function AppIds(view: Apps, target: Apps, a: nat): seq<nat> {
    Dedup(Ids(ServicesOf(view, a)) + Ids(ServicesOf(target, a)))
  }

  function Ones(a: nat, ids: seq<nat>): (bs: seq<Block>)
    ensures |bs| == |ids|
    ensures forall i | 0 <= i < |ids| :: bs[i] == One(Key(a, ids[i]))
  {
    seq(|ids|, i requires 0 <= i < |ids| => One(Key(a, ids[i])))
  }

  function AppBlocks(view: Apps, target: Apps, a: nat): seq<Block> {
    [Before(a)] + Ones(a, AppIds(view, target, a)) + [After(a)]
  }

  function BlocksFor(view: Apps, target: Apps, order: seq<nat>): seq<Block> {
    if order == [] then []
    else BlocksFor(view, target, Init(order)) + AppBlocks(view, target, Last(order))
  }

  function BlocksOf(view: Apps, target: Apps): seq<Block> {
    BlocksFor(view, target, AppOrder(view, target))
  }

  /** A new app's images are not held back by the retry table while planning. */
  function GateFor(view: Apps, a: nat, gate: Gate): Gate {
    if a in view then gate else Gate(map[], 0)
  }

  function BlockSteps(b: Block, view: Apps, target: Apps, gate: Gate): seq<AppStep> {
    match b
    case Before(a) => BeforeContainers(a, ServicesOf(view, a), ServicesOf(target, a))
    case One(k) => ServiceSteps(k.app, k.app, k.svc, Find(view, k), Find(target, k), GateFor(view, k.app, gate))
    case After(a) => AfterContainers(a, ServicesOf(view, a), ServicesOf(target, a))
  }

  function StepsOf(bs: seq<Block>, view: Apps, target: Apps, gate: Gate): seq<AppStep> {
    if bs == [] then []
    else StepsOf(Init(bs), view, target, gate) + BlockSteps(Last(bs), view, target, gate)
  }

  lemma {:induction false} StepsOfConcat(b1: seq<Block>, b2: seq<Block>, view: Apps, target: Apps, gate: Gate)
    ensures StepsOf(b1 + b2, view, target, gate) == StepsOf(b1, view, target, gate) + StepsOf(b2, view, target, gate)
  {
    hide BlockSteps;
    if b2 == [] {
      assert b1 + b2 == b1;
    } else {
      assert Init(b1 + b2) == b1 + Init(b2);
      StepsOfConcat(b1, Init(b2), view, target, gate);
    }
  }

  // ------------------------------------------------- the plan is its blocks

  lemma {:induction false} UniqueIsLast(services: seq<Service>, i: nat)
    requires NoDup(Ids(services)) && i < |services|
    ensures LastById(services, services[i].serviceId) == Some(services[i])
  {
    if i < |services| - 1 {
      assert Ids(services)[i] != Ids(services)[|services| - 1];
      assert Ids(Init(services)) == Init(Ids(services));
      UniqueIsLast(Init(services), i);
    }
  }

  lemma {:induction false} UpdateIsOnes(view: Apps, target: Apps, a: nat, ids: seq<nat>, gate: Gate)
    requires WellKeyed(view) && WellKeyed(target) && a in view && a in target
    ensures UpdateAppSteps(view[a], target[a], ids, gate) == StepsOf(Ones(a, ids), view, target, gate)
  {
    if ids != [] {
      hide ServiceSteps, LastById;
      UpdateIsOnes(view, target, a, Init(ids), gate);
      assert Init(Ones(a, ids)) == Ones(a, Init(ids));
    }
  }

  lemma {:induction false} RemoveIsOnes(view: Apps, target: Apps, a: nat, n: nat, gate: Gate)
    requires WellKeyed(view) && a in view && a !in target && n <= |view[a].services|
    ensures RemoveAppSteps(a, view[a].services[..n])
         == StepsOf(Ones(a, Ids(view[a].services)[..n]), view, target, gate)
  {
    if n > 0 {
      var services := view[a].services;
      RemoveIsOnes(view, target, a, n - 1, gate);
      assert Init(services[..n]) == services[..n - 1];
      assert Init(Ones(a, Ids(services)[..n])) == Ones(a, Ids(services)[..n - 1]);
      UniqueIsLast(services, n - 1);
    }
  }

  lemma {:induction false} AddIsOnes(view: Apps, target: Apps, a: nat, n: nat, gate: Gate)
    requires WellKeyed(target) && a !in view && a in target && n <= |target[a].services|
    ensures AddAppSteps(a, target[a].services[..n])
         == StepsOf(Ones(a, Ids(target[a].services)[..n]), view, target, gate)
  {
    hide BlockSteps, AddSteps;
    if n > 0 {
      var services := target[a].services;
      AddIsOnes(view, target, a, n - 1, gate);
      assert Init(services[..n]) == services[..n - 1];
      assert Init(Ones(a, Ids(services)[..n])) == Ones(a, Ids(services)[..n - 1]);
      UniqueIsLast(services, n - 1);
      NewServiceBlock(view, target, a, services[n - 1], gate);
    }
  }

  lemma NewServiceBlock(view: Apps, target: Apps, a: nat, s: Service, gate: Gate)
    requires a !in view && Find(target, Key(a, s.serviceId)) == Some(s)
    ensures BlockSteps(One(Key(a, s.serviceId)), view, target, gate) == AddSteps(a, s)
  {
    hide AddSteps;
    assert Find(view, Key(a, s.serviceId)) == None;
  }

  lemma ContainersAreOnes(view: Apps, target: Apps, a: nat, gate: Gate)
    requires WellKeyed(view) && WellKeyed(target) && (a in view || a in target)
    ensures ContainerSteps(AppAt(view, a), AppAt(target, a), gate)
         == StepsOf(Ones(a, AppIds(view, target, a)), view, target, gate)
  {
    hide StepsOf, UpdateAppSteps, RemoveAppSteps, AddAppSteps, Dedup;
    if a in view && a in target {
      UpdateIsOnes(view, target, a, AppIds(view, target, a), gate);
    } else if a in view {
      var services := view[a].services;
      IdsOnOneSide(services);
      RemoveIsOnes(view, target, a, |services|, gate);
    } else {
      var services := target[a].services;
      IdsOnOneSide(services);
      AddIsOnes(view, target, a, |services|, gate);
    }
  }

  lemma IdsOnOneSide(services: seq<Service>)
    requires NoDup(Ids(services))
    ensures Dedup(Ids(services) + []) == Dedup([] + Ids(services)) == Ids(services)[..|services|]
    ensures services[..|services|] == services
  {
    hide Dedup, NoDup;
    var ids := Ids(services);
    EmptyIsUnit(ids);
    DedupOfUnique(ids);
  }

  lemma StepsOfBlock(b: Block, view: Apps, target: Apps, gate: Gate)
    ensures StepsOf([b], view, target, gate) == BlockSteps(b, view, target, gate)
  {
    hide BlockSteps;
    assert Init([b]) == [];
  }

  lemma AppIsBlocks(view: Apps, target: Apps, a: nat, gate: Gate)
    requires WellKeyed(view) && WellKeyed(target) && (a in view || a in target)
    ensures AppSteps(a, AppAt(view, a), AppAt(target, a), gate)
         == StepsOf(AppBlocks(view, target, a), view, target, gate)
  {
    hide StepsOf, BeforeContainers, AfterContainers, ContainerSteps, ServiceSteps, AppIds;
    var ones := Ones(a, AppIds(view, target, a));
    ContainersAreOnes(view, target, a, gate);
    StepsOfBlock(Before(a), view, target, gate);
    StepsOfBlock(After(a), view, target, gate);
    StepsOfConcat([Before(a)], ones, view, target, gate);
    StepsOfConcat([Before(a)] + ones, [After(a)], view, target, gate);
  }

  lemma {:induction false} PlanForIsBlocks(view: Apps, target: Apps, order: seq<nat>, gate: Gate)
    requires WellKeyed(view) && WellKeyed(target) && forall a <- order :: a in view || a in target
    ensures PlanFor(view, target, order, gate) == StepsOf(BlocksFor(view, target, order), view, target, gate)
  {
    if order != [] {
      PlanForIsBlocks(view, target, Init(order), gate);
      AppIsBlocks(view, target, Last(order), gate);
      StepsOfConcat(BlocksFor(view, target, Init(order)), AppBlocks(view, target, Last(order)), view, target, gate);
    }
  }

  /** The plan computed by the nested loops of the planner is exactly the
      steps of its blocks in order. */
  lemma PlanIsBlocks(view: Apps, target: Apps, gate: Gate)
    requires WellKeyed(view) && WellKeyed(target)
    ensures Plan(view, target, gate) == StepsOf(BlocksOf(view, target), view, target, gate)
  {
    PlanForIsBlocks(view, target, AppOrder(view, target), gate);
  }

  // ------------------------------------------------------ order of the blocks

  function AppOf(b: Block): nat {
    match b
    case Before(a) => a
    case One(k) => k.app
    case After(a) => a
  }

  /** Every block occurs once; an app's creations come before its services, and its
      removals after them. */
  ghost predicate Ordered(bs: seq<Block>) {
    && NoDup(bs)
    && (forall i | 0 <= i < |bs| :: bs[i].One? ==> Before(bs[i].key.app) in bs[..i] && After(bs[i].key.app) !in bs[..i])
  }

  lemma OrderedPrefix(bs: seq<Block>)
    requires Ordered(bs) && bs != []
    ensures Ordered(Init(bs)) && Last(bs) !in Init(bs)
    ensures Last(bs).One? ==> Before(Last(bs).key.app) in Init(bs) && After(Last(bs).key.app) !in Init(bs)
  {
    LastIsNew(bs);
    forall i | 0 <= i < |Init(bs)| && Init(bs)[i].One?
      ensures Before(Init(bs)[i].key.app) in Init(bs)[..i] && After(Init(bs)[i].key.app) !in Init(bs)[..i]
    {
      assert Init(bs)[..i] == bs[..i];
    }
  }

  lemma AppBlocksOrdered(view: Apps, target: Apps, a: nat)
    ensures Ordered(AppBlocks(view, target, a))
    ensures forall b <- AppBlocks(view, target, a) :: AppOf(b) == a
  {
    var bs, ids := AppBlocks(view, target, a), AppIds(view, target, a);
    var n := |ids|;
    assert |bs| == n + 2 && bs[0] == Before(a) && bs[n + 1] == After(a);
    assert forall i | 0 < i <= n :: bs[i] == One(Key(a, ids[i - 1]));
    hide AppBlocks, AppIds;
    forall i, j | 0 <= i < j < |bs|
      ensures bs[i] != bs[j]
    {
      if 0 < i && j <= n { assert ids[i - 1] != ids[j - 1]; }
    }
    forall i | 0 <= i < |bs| && bs[i].One?
      ensures Before(bs[i].key.app) in bs[..i] && After(bs[i].key.app) !in bs[..i]
    {
      assert bs[..i][0] == Before(a);
      assert forall j | 0 <= j < i :: bs[..i][j] == bs[j] && !bs[j].After?;
    }
  }

  lemma AppBlocksHold(view: Apps, target: Apps, a: nat, k: Key)
    ensures One(k) in AppBlocks(view, target, a) <==> k.app == a && k.svc in AppIds(view, target, a)
    ensures Before(a) in AppBlocks(view, target, a)
  {
    var bs, ids := AppBlocks(view, target, a), AppIds(view, target, a);
    var n := |ids|;
    assert |bs| == n + 2 && bs[0] == Before(a) && bs[n + 1] == After(a);
    assert forall i | 0 < i <= n :: bs[i] == One(Key(a, ids[i - 1]));
    hide AppBlocks, AppIds;
    if k.app == a && k.svc in ids {
      var i :| 0 <= i < n && ids[i] == k.svc;
      assert bs[i + 1] == One(k);
    }
  }

  lemma {:induction false} BlocksForOrdered(view: Apps, target: Apps, order: seq<nat>)
    requires NoDup(order)
    ensures Ordered(BlocksFor(view, target, order))
    ensures forall b <- BlocksFor(view, target, order) :: AppOf(b) in order
    ensures forall k: Key :: One(k) in BlocksFor(view, target, order)
                       <==> k.app in order && k.svc in AppIds(view, target, k.app)
    ensures forall a <- order :: Before(a) in BlocksFor(view, target, order)
  {
    if order != [] {
      LastIsNew(order);
      var a := Last(order);
      var earlier, later := BlocksFor(view, target, Init(order)), AppBlocks(view, target, a);
      assert BlocksFor(view, target, order) == earlier + later;
      BlocksForOrdered(view, target, Init(order));
      AppBlocksOrdered(view, target, a);
      hide BlocksFor, AppBlocks, AppIds, Ordered;
      ConcatOrdered(earlier, later);
      forall k: Key
        ensures One(k) in earlier + later <==> k.app in order && k.svc in AppIds(view, target, k.app)
      {
        AppBlocksHold(view, target, a, k);
        InLast(order, k.app);
        if One(k) in earlier { assert AppOf(One(k)) in Init(order); }
      }
      forall x | x in order
        ensures Before(x) in earlier + later
      {
        InLast(order, x);
        AppBlocksHold(view, target, a, Key(x, 0));
      }
      forall b | b in earlier + later
        ensures AppOf(b) in order
      {
        InLast(order, AppOf(b));
      }
    }
  }

  lemma ConcatOrdered(b1: seq<Block>, b2: seq<Block>)
    requires Ordered(b1) && Ordered(b2) && forall x <- b1, y <- b2 :: AppOf(x) != AppOf(y)
    ensures Ordered(b1 + b2)
  {
    var bs := b1 + b2;
    forall i, j | 0 <= i < j < |bs|
      ensures bs[i] != bs[j]
    {
      if i < |b1| <= j { assert AppOf(b1[i]) != AppOf(b2[j - |b1|]); }
    }
    forall i | 0 <= i < |bs| && bs[i].One?
      ensures Before(bs[i].key.app) in bs[..i] && After(bs[i].key.app) !in bs[..i]
    {
      if i < |b1| {
        assert bs[..i] == b1[..i];
      } else {
        assert bs[..i] == b1 + b2[..i - |b1|];
        assert bs[i] == b2[i - |b1|] && bs[i] in b2;
        assert forall x <- b1 :: AppOf(x) != AppOf(bs[i]);
      }
    }
  }

  lemma BlocksOrdered(view: Apps, target: Apps)
    ensures Ordered(BlocksOf(view, target))
    ensures forall k: Key :: One(k) in BlocksOf(view, target) <==> Find(view, k).Some? || Find(target, k).Some?
    ensures forall a :: a in view || a in target ==> Before(a) in BlocksOf(view, target)
  {
    BlocksForOrdered(view, target, AppOrder(view, target));
    forall k: Key
      ensures One(k) in BlocksOf(view, target) <==> Find(view, k).Some? || Find(target, k).Some?
    {
      hide BlocksFor, LastById, AppIds;
      ListedIffFound(view, target, k);
    }
  }

  lemma ListedIffFound(view: Apps, target: Apps, k: Key)
    ensures k.svc in AppIds(view, target, k.app) <==> Find(view, k).Some? || Find(target, k).Some?
    ensures k.svc in AppIds(view, target, k.app) ==> k.app in view || k.app in target
  {
    FindIffListed(view, k);
    FindIffListed(target, k);
  }

  lemma FindIffListed(apps: Apps, k: Key)
    ensures Find(apps, k).Some? <==> k.svc in Ids(ServicesOf(apps, k.app))
  {
    var services := ServicesOf(apps, k.app);
    if Find(apps, k).Some? {
      var i :| 0 <= i < |services| && services[i] == Find(apps, k).value;
      assert Ids(services)[i] == k.svc;
    }
  }
}
