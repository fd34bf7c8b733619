/** Which steps a plan holds, service by service: exactly when an image is pulled and
    a container stopped, removed, started, paused or resumed, and in which order. */
module PlanSteps {
  import opened Basics
  import opened Compose
  import opened Engine
  import opened Retry
  import opened Planner
  import opened Execution
  import opened Blocks
  import opened Agreement
  import opened StepOrder
  import opened Expectations

  /** Running unless the entry says otherwise. */
  ghost function Wish(s: Service): Mode {
    match s.state
    case Some(mode) => mode
    case None => Running
  }

  /** The retry table lets the image through: no failures, or fewer than ten and the
      last pause is over. */
  ghost predicate LetThrough(gate: Gate, image: string) {
    var key := "image:" + image;
    key in gate.retries ==> gate.retries[key].count < 10 && gate.retries[key].nextRetry <= gate.now
  }

  /** The target service has no entry yet and is to be added. */
  ghost predicate Adds(view: Apps, target: Apps, gate: Gate, k: Key) {
    && Find(view, k).None? && Find(target, k).Some?
    && Wish(Find(target, k).value) == Running
    && (k.app in view ==> LetThrough(gate, Find(target, k).value.imageName))
  }

  /** The entry has a container, is in the state the target asks for, and needs a new
      container. */
  ghost predicate Recreates(view: Apps, target: Apps, k: Key) {
    && Find(view, k).Some? && Find(target, k).Some? && Find(view, k).value.containerId.Some?
    && var (cur, tgt) := (Find(view, k).value, Find(target, k).value);
    && Wish(cur) == Wish(tgt)
    && (!Meets(cur.imageName, cur.config, tgt) || cur.status == Some(StExited))
  }

  /** The container of the entry belongs to no target service. */
  ghost predicate Drops(view: Apps, target: Apps, k: Key) {
    Find(view, k).Some? && Find(target, k).None? && Find(view, k).value.containerId.Some?
  }

  /** The container of the entry is to go from one state to another. */
  ghost predicate Turns(view: Apps, target: Apps, k: Key, from: Mode, to: Mode) {
    && Find(view, k).Some? && Find(target, k).Some? && Find(view, k).value.containerId.Some?
    && Wish(Find(view, k).value) == from && Wish(Find(target, k).value) == to
  }

  ghost predicate Holds(view: Apps, k: Key, cid: Cid) {
    Find(view, k).Some? && Find(view, k).value.containerId == Some(cid)
  }

  /** When a container step about service `k` is planned. */
  ghost predicate Planned(step: AppStep, view: Apps, target: Apps, gate: Gate, k: Key) {
    match step
    case DownloadImage(a, image) =>
      && a == k.app && Find(target, k).Some? && Find(target, k).value.imageName == image
      && (Adds(view, target, gate, k) || (Recreates(view, target, k) && Find(view, k).value.imageName != image))
    case StartContainer(a, s) =>
      a == k.app && Find(target, k) == Some(s) && (Adds(view, target, gate, k) || Recreates(view, target, k))
    case StopContainer(a, id, cid) =>
      && k == Key(a, id) && Holds(view, k, cid)
      && (Drops(view, target, k) || Recreates(view, target, k)
          || Turns(view, target, k, Running, Stopped) || Turns(view, target, k, Paused, Stopped))
    case RemoveContainer(a, id, cid) =>
      k == Key(a, id) && Holds(view, k, cid) && (Drops(view, target, k) || Recreates(view, target, k))
    case PauseContainer(a, id, cid) =>
      && k == Key(a, id) && Holds(view, k, cid)
      && (Turns(view, target, k, Running, Paused) || Turns(view, target, k, Stopped, Paused))
    case UnpauseContainer(a, id, cid) =>
      && k == Key(a, id) && Holds(view, k, cid)
      && (Turns(view, target, k, Paused, Running) || Turns(view, target, k, Paused, Stopped))
    case StartStoppedContainer(a, id, cid) =>
      && k == Key(a, id) && Holds(view, k, cid)
      && (Turns(view, target, k, Stopped, Running) || Turns(view, target, k, Stopped, Paused))
    case _ => false
  }

  lemma AllowsIff(gate: Gate, image: string)
    ensures Allows(gate, image) <==> LetThrough(gate, image)
  {}

  lemma BlockMeans(view: Apps, target: Apps, gate: Gate, k: Key, step: AppStep)
    ensures step in BlockSteps(One(k), view, target, gate) <==> Planned(step, view, target, gate, k)
  {
    var cur, tgt := Find(view, k), Find(target, k);
    if tgt.Some? {
      AllowsIff(GateFor(view, k.app, gate), tgt.value.imageName);
      if cur.Some? { UpdateNeededIff(cur.value, tgt.value); }
    }
    assert tgt.Some? ==> tgt.value.serviceId == k.svc;
    hide Find, NeedsUpdate, Meets, Allows;
  }

  lemma {:induction false} StepsOfHold(bs: seq<Block>, view: Apps, target: Apps, gate: Gate, step: AppStep)
    ensures step in StepsOf(bs, view, target, gate) <==> exists b <- bs :: step in BlockSteps(b, view, target, gate)
  {
    if bs != [] {
      hide BlockSteps;
      StepsOfHold(Init(bs), view, target, gate, step);
      assert bs == Init(bs) + [Last(bs)];
    }
  }

  /** A plan holds a container step exactly if it is planned for some service. */
  lemma PlanMeans(view: Apps, target: Apps, gate: Gate, step: AppStep)
    requires WellKeyed(view) && WellKeyed(target) && !IsResource(step)
    ensures step in Plan(view, target, gate) <==> exists k: Key :: Planned(step, view, target, gate, k)
  {
    var bs := BlocksOf(view, target);
    PlanIsBlocks(view, target, gate);
    StepsOfHold(bs, view, target, gate, step);
    BlocksOrdered(view, target);
    hide Plan, StepsOf, BlocksOf, BlockSteps, WellKeyed, Ordered, Planned;
    if b :| b in bs && step in BlockSteps(b, view, target, gate) {
      if b.One? {
        BlockMeans(view, target, gate, b.key, step);
      } else {
        ResourceBlocks(b, view, target, gate);
      }
    }
    if k: Key :| Planned(step, view, target, gate, k) {
      BlockMeans(view, target, gate, k, step);
      PlannedIsListed(step, view, target, gate, k);
    }
  }

  lemma PlannedIsListed(step: AppStep, view: Apps, target: Apps, gate: Gate, k: Key)
    requires Planned(step, view, target, gate, k)
    ensures Find(view, k).Some? || Find(target, k).Some?
  {
    hide Find, Meets, LetThrough;
  }

  /** It holds a creation or removal exactly for a name that only one side uses. */
  lemma PlanResourcesMean(view: Apps, target: Apps, gate: Gate, kind: Kind, a: nat, n: string)
    requires WellKeyed(view) && WellKeyed(target)
    ensures ResourceStep(MakeOf(kind), a, n) in Plan(view, target, gate) <==>
      && (exists s <- ServicesOf(target, a) :: n in ConfigNames(kind, s.config))
      && (forall s <- ServicesOf(view, a) :: n !in ConfigNames(kind, s.config))
    ensures ResourceStep(DropOf(kind), a, n) in Plan(view, target, gate) <==>
      && (exists s <- ServicesOf(view, a) :: n in ConfigNames(kind, s.config))
      && (forall s <- ServicesOf(target, a) :: n !in ConfigNames(kind, s.config))
  {
    hide *;
    PlanIsBlocks(view, target, gate);
    StepsOfHold(BlocksOf(view, target), view, target, gate, ResourceStep(MakeOf(kind), a, n));
    StepsOfHold(BlocksOf(view, target), view, target, gate, ResourceStep(DropOf(kind), a, n));
    NamesMean(kind, ServicesOf(view, a), n);
    NamesMean(kind, ServicesOf(target, a), n);
    EndsAreListed(view, target, a);
    forall b
      ensures ResourceStep(MakeOf(kind), a, n) in BlockSteps(b, view, target, gate) <==>
        b == Before(a) && n in NamesOf(kind, ServicesOf(target, a)) && n !in NamesOf(kind, ServicesOf(view, a))
      ensures ResourceStep(DropOf(kind), a, n) in BlockSteps(b, view, target, gate) <==>
        b == After(a) && n in NamesOf(kind, ServicesOf(view, a)) && n !in NamesOf(kind, ServicesOf(target, a))
    {
      ResourcesOfBlock(view, target, gate, b, kind, a, n);
    }
  }

  lemma EndsAreListed(view: Apps, target: Apps, a: nat)
    ensures ServicesOf(view, a) != [] || ServicesOf(target, a) != [] ==>
      Before(a) in BlocksOf(view, target) && After(a) in BlocksOf(view, target)
  {
    if a in view || a in target { EndsInBlocks(view, target, AppOrder(view, target), a); }
    hide BlocksFor;
  }

  lemma {:induction false} EndsInBlocks(view: Apps, target: Apps, order: seq<nat>, a: nat)
    requires a in order
    ensures Before(a) in BlocksFor(view, target, order) && After(a) in BlocksFor(view, target, order)
  {
    hide AppIds;
    if a == Last(order) {
      var bs := AppBlocks(view, target, a);
      assert bs[0] == Before(a) && bs[|bs| - 1] == After(a);
    } else {
      InLast(order, a);
      EndsInBlocks(view, target, Init(order), a);
    }
  }

  lemma ResourcesOfBlock(view: Apps, target: Apps, gate: Gate, b: Block, kind: Kind, a: nat, n: string)
    ensures ResourceStep(MakeOf(kind), a, n) in BlockSteps(b, view, target, gate) <==>
      b == Before(a) && n in NamesOf(kind, ServicesOf(target, a)) && n !in NamesOf(kind, ServicesOf(view, a))
    ensures ResourceStep(DropOf(kind), a, n) in BlockSteps(b, view, target, gate) <==>
      b == After(a) && n in NamesOf(kind, ServicesOf(view, a)) && n !in NamesOf(kind, ServicesOf(target, a))
  {
    hide BlockSteps, NamesOf;
    if b.One? {
      OneBlockSteps(view, target, gate, b.key);
    } else {
      ResourceBlockSteps(view, target, gate, b, kind, a, n);
    }
  }

  // --------------------------------------------------------------- what goes before

  /** The step that stands `d` places before. */
  ghost function Earlier(plan: seq<AppStep>, i: nat, d: nat): Option<AppStep> {
    if d <= i < |plan| then Some(plan[i - d]) else None
  }

  /** A step of a plan stands within the steps of one block, which stand together. */
  lemma {:induction false} StepStands(bs: seq<Block>, view: Apps, target: Apps, gate: Gate, i: nat) returns (b: Block, off: nat)
    requires i < |StepsOf(bs, view, target, gate)|
    ensures b in bs && off <= i && off < |BlockSteps(b, view, target, gate)|
    ensures forall d | 0 <= d <= off ::
      Earlier(StepsOf(bs, view, target, gate), i, d) == Earlier(BlockSteps(b, view, target, gate), off, d)
  {
    hide BlockSteps;
    var earlier := StepsOf(Init(bs), view, target, gate);
    if i < |earlier| {
      b, off := StepStands(Init(bs), view, target, gate, i);
    } else {
      b, off := Last(bs), i - |earlier|;
    }
  }

  /** What has to stand right before a container step. */
  ghost predicate Prepared(plan: seq<AppStep>, i: nat, view: Apps, target: Apps)
    requires i < |plan|
  {
    match plan[i]
    case StartContainer(a, s) =>
      var cur := Find(view, Key(a, s.serviceId));
      if cur.None? then Earlier(plan, i, 1) == Some(DownloadImage(a, s.imageName))
      else
        && cur.value.containerId.Some?
        && var cid := cur.value.containerId.value;
        && Earlier(plan, i, 2) == Some(StopContainer(a, s.serviceId, cid))
        && Earlier(plan, i, 1) == Some(RemoveContainer(a, s.serviceId, cid))
        && (cur.value.imageName != s.imageName ==> Earlier(plan, i, 3) == Some(DownloadImage(a, s.imageName)))
    case RemoveContainer(a, id, cid) => Earlier(plan, i, 1) == Some(StopContainer(a, id, cid))
    case PauseContainer(a, id, cid) =>
      Turns(view, target, Key(a, id), Stopped, Paused) ==> Earlier(plan, i, 1) == Some(StartStoppedContainer(a, id, cid))
    case StopContainer(a, id, cid) =>
      Turns(view, target, Key(a, id), Paused, Stopped) ==> Earlier(plan, i, 1) == Some(UnpauseContainer(a, id, cid))
    case _ => true
  }

  lemma BlockPrepares(view: Apps, target: Apps, gate: Gate, k: Key, off: nat)
    requires off < |BlockSteps(One(k), view, target, gate)|
    ensures Prepared(BlockSteps(One(k), view, target, gate), off, view, target)
  {
    hide Drifted, Allows;
    assert Find(target, k).Some? ==> Find(target, k).value.serviceId == k.svc;
    hide Find;
  }

  /** In a plan a new image is pulled right before the container is started from it, an
      old container is stopped and removed right before its successor starts, and a
      change of state by way of running passes through running. */
  lemma PlanPrepares(view: Apps, target: Apps, gate: Gate, i: nat)
    requires WellKeyed(view) && WellKeyed(target) && i < |Plan(view, target, gate)|
    ensures Prepared(Plan(view, target, gate), i, view, target)
  {
    hide WellKeyed, Plan, BlocksOf, BlockSteps, Find, Turns;
    PlanIsBlocks(view, target, gate);
    var plan := Plan(view, target, gate);
    var b, off := StepStands(BlocksOf(view, target), view, target, gate, i);
    var steps := BlockSteps(b, view, target, gate);
    assert Earlier(plan, i, 0) == Earlier(steps, off, 0);
    if b.One? {
      BlockPrepares(view, target, gate, b.key, off);
      hide StepsOf;
    } else {
      ResourceBlocks(b, view, target, gate);
      assert steps[off] in steps;
    }
  }

  lemma {:induction false} FirstPlaceJoins(s: seq<nat>, t: seq<nat>, x: nat)
    requires x in s + t
    ensures FirstPlace(s + t, x) == if x in s then FirstPlace(s, x) else |s| + FirstPlace(t, x)
  {
    if s == [] {
      assert s + t == t;
    } else {
      assert (s + t)[1..] == s[1..] + t && s == [s[0]] + s[1..];
      if s[0] != x { FirstPlaceJoins(s[1..], t, x); }
    }
  }

  /** Apps are planned for by ascending id, those that have a current entry first. */
  lemma AppsInOrder(view: Apps, target: Apps, i: nat, j: nat)
    requires i < j < |AppOrder(view, target)|
    ensures var (first, second) := (AppOrder(view, target)[i], AppOrder(view, target)[j]);
      && (second in view ==> first in view)
      && ((first in view <==> second in view) ==> first < second)
  {
    var s, t := Ascending(view.Keys), Ascending(target.Keys);
    var first, second := AppOrder(view, target)[i], AppOrder(view, target)[j];
    DedupInOrder(s + t);
    FirstPlaceJoins(s, t, first);
    FirstPlaceJoins(s, t, second);
    AscendingIsSorted(view.Keys);
    AscendingIsSorted(target.Keys);
    hide Ascending, Dedup, FirstPlace;
  }

  // ------------------------------------------------------------------------- pauses

  /** How many failures an image has had in a row. */
  ghost function Count(retries: Retries, image: string): nat {
    if "image:" + image in retries then retries["image:" + image].count else 0
  }

  /** A failed pull holds its image back: until the pause is over, and for good after the
      tenth, no plan has a step for a service of that image that is new in an app already
      there. A pull that succeeds lets it through again. */
  lemma FailedPullHoldsBack(sys: Sys, target: Apps, a: nat, image: string, e: Env, view: Apps, wanted: Apps, now: int, k: Key)
    requires Allows(Gate(sys.retries, e.startedAt), image)
    requires WellKeyed(view) && WellKeyed(wanted) && k.app in view
    requires Find(view, k).None? && Find(wanted, k).Some? && Find(wanted, k).value.imageName == image
    ensures var after := ExecStep(sys, target, DownloadImage(a, image), e);
      var plan := Plan(view, wanted, Gate(after.sys.retries, now));
      var fails := Count(sys.retries, image) + 1;
      && after.ok == !e.first
      && ((exists step <- plan :: StepKey(step) == Some(k)) <==>
           Wish(Find(wanted, k).value) == Running
           && (!e.first || (fails < 10 && now >= e.endedAt + Backoff(fails))))
  {
    var after := ExecStep(sys, target, DownloadImage(a, image), e).sys;
    var gate := Gate(after.retries, now);
    var plan := Plan(view, wanted, gate);
    var s := Find(wanted, k).value;
    assert LetThrough(gate, image) <==> !e.first || (Count(sys.retries, image) + 1 < 10 && now >= e.endedAt + Backoff(Count(sys.retries, image) + 1));
    hide ExecStep, Plan, Backoff, LetThrough;
    AbsentSteps(view, wanted, gate, k);
  }

  /** An absent service has a step in a plan exactly if it is added. */
  lemma AbsentSteps(view: Apps, target: Apps, gate: Gate, k: Key)
    requires WellKeyed(view) && WellKeyed(target) && Find(view, k).None? && Find(target, k).Some?
    ensures (exists step <- Plan(view, target, gate) :: StepKey(step) == Some(k)) <==> Adds(view, target, gate, k)
  {
    hide *;
    var start := StartContainer(k.app, Find(target, k).value);
    StartIsPlanned(view, target, gate, k);
    PlanMeans(view, target, gate, start);
    if step :| step in Plan(view, target, gate) && StepKey(step) == Some(k) {
      KeyedIsNoResource(step);
      PlanMeans(view, target, gate, step);
      var k' :| Planned(step, view, target, gate, k');
      PlannedKey(step, view, target, gate, k');
    }
  }

  lemma KeyedIsNoResource(step: AppStep)
    ensures StepKey(step).Some? ==> !IsResource(step)
  {}

  lemma StartIsPlanned(view: Apps, target: Apps, gate: Gate, k: Key)
    requires Find(target, k).Some?
    ensures var start := StartContainer(k.app, Find(target, k).value);
      !IsResource(start) && StepKey(start) == Some(k)
      && (Adds(view, target, gate, k) ==> Planned(start, view, target, gate, k))
  {
    assert Find(target, k).value.serviceId == k.svc;
    hide Find, LetThrough;
  }

  lemma PlannedKey(step: AppStep, view: Apps, target: Apps, gate: Gate, k: Key)
    requires Planned(step, view, target, gate, k) && StepKey(step).Some?
    ensures StepKey(step) == Some(k)
    ensures Find(view, k).None? ==> Adds(view, target, gate, k)
  {
    assert Find(target, k).Some? ==> Find(target, k).value.serviceId == k.svc;
    hide Find, LetThrough;
  }
}
