/** The order of a plan's steps: resources are created before they are used and
    removed only when no longer used; services that need nothing are left
    alone; apps do not influence each other's steps. */
module StepOrder {
  import opened Basics
  import opened Compose
  import opened Ports
  import opened Engine
  import opened Retry
  import opened Planner
  import opened Execution
  import opened Blocks
  import opened Agreement
  import opened Runs
  import opened CleanSteps
  import opened CleanBlocks
  import opened CleanPass

  // ------------------------------------------------------- networks and volumes

  datatype Kind = Net | Vol

  function MakeOf(kind: Kind): ResourceAction { if kind == Net then MakeNetwork else MakeVolume }

  function DropOf(kind: Kind): ResourceAction { if kind == Net then DropNetwork else DropVolume }

  function ConfigNames(kind: Kind, c: Config): seq<string> {
    if kind == Net then c.Networks() else NamedVolumes(c.Volumes())
  }

  function NamesOf(kind: Kind, services: seq<Service>): seq<string> {
    if kind == Net then NetworkNames(services) else VolumeNames(services)
  }

  /** The resource app `a` manages under the name `n` exists in Docker. */
  predicate Has(w: World, kind: Kind, a: nat, n: string) {
    if kind == Net then NetName(Decimal(a), n) in w.networks else VolumeDockerName(a, n) in w.volumes
  }

  lemma NamesMean(kind: Kind, services: seq<Service>, n: string)
    ensures n in NamesOf(kind, services) <==> exists s <- services :: n in ConfigNames(kind, s.config)
  {
    hide NamedVolumes;
    NetworkNamesMean(services, n);
    VolumeNamesMean(services, n);
  }

  /** Apps read back from Docker carry no uuid. */
  ghost predicate NoUuids(view: Apps) {
    forall b <- view :: view[b].appUuid == None
  }

  lemma StepKeepsNoUuids(sys: Sys, target: Apps, step: AppStep, e: Env)
    requires NoUuids(sys.view)
    ensures NoUuids(ExecStep(sys, target, step, e).sys.view)
  {
    hide StartOp, AddService, RemoveService, UpdateState, FirstById, StopOp, PauseOp, UnpauseOp, RemoveOp, RemoveNetworkOp, RemoveVolumeOp, OwnerOf, NoUuids;
    HelpersKeepNoUuids(sys.view);
    if step.StartStoppedContainer? { HelpersKeepNoUuids(RemoveService(sys.view, step.appId, step.serviceId)); }
  }

  lemma HelpersKeepNoUuids(view: Apps)
    requires NoUuids(view)
    ensures forall a, id :: NoUuids(RemoveService(view, a, id))
    ensures forall a, id, mode :: NoUuids(UpdateState(view, a, id, mode))
    ensures forall a, s, cid :: NoUuids(AddService(view, a, s, cid))
  {
    hide WithoutId, WithState;
  }

  lemma RemovalsSpare(sys: Sys, target: Apps, step: AppStep, e: Env, kind: Kind, a: nat, n: string)
    requires step.RemoveNetwork? || step.RemoveVolume?
    requires Has(sys.world, kind, a, n) && step != ResourceStep(DropOf(kind), a, n) && NoUuids(sys.view)
    ensures Has(ExecStep(sys, target, step, e).sys.world, kind, a, n)
  {
    hide NetworkInUse, VolumeInUse, VolumeDockerName;
    if step.RemoveNetwork? {
      if Decimal(a) == Decimal(step.appId) { DecimalInjective(a, step.appId); }
    } else {
      if VolumeDockerName(a, n) == VolumeDockerName(step.appId, step.volumeName) {
        VolumeNameInjective(a, n, step.appId, step.volumeName);
      }
    }
  }

  lemma VolumeNameInjective(a: nat, x: string, b: nat, y: string)
    requires VolumeDockerName(a, x) == VolumeDockerName(b, y)
    ensures a == b && x == y
  {
    NumberedInjective(a, x, b, y);
  }

  lemma OthersSpare(sys: Sys, target: Apps, step: AppStep, e: Env)
    requires !step.RemoveNetwork? && !step.RemoveVolume?
    ensures sys.world.networks <= ExecStep(sys, target, step, e).sys.world.networks
    ensures sys.world.volumes <= ExecStep(sys, target, step, e).sys.world.volumes
  {
    hide NewContainer, NamedVolumes, NameTaken, AddService, RemoveService, UpdateState, ExecDownload, FirstById;
    match step
    case DownloadImage(_, _) => DownloadKeepsWorld(sys, target, step, e);
    case _ =>
  }

  lemma DownloadKeepsWorld(sys: Sys, target: Apps, step: AppStep, e: Env)
    requires step.DownloadImage?
    ensures ExecStep(sys, target, step, e).sys.world == sys.world
  {}

  /** Only its own removal step takes a resource away. */
  lemma StepSpares(sys: Sys, target: Apps, step: AppStep, e: Env, kind: Kind, a: nat, n: string)
    requires Has(sys.world, kind, a, n) && step != ResourceStep(DropOf(kind), a, n) && NoUuids(sys.view)
    ensures Has(ExecStep(sys, target, step, e).sys.world, kind, a, n)
  {
    hide ExecStep;
    if step.RemoveNetwork? || step.RemoveVolume? {
      RemovalsSpare(sys, target, step, e, kind, a, n);
    } else {
      OthersSpare(sys, target, step, e);
    }
  }

  lemma StepMakes(sys: Sys, target: Apps, kind: Kind, a: nat, n: string, e: Env)
    requires a in target && !e.first && (kind == Net ==> OwnerOf(Some(target[a]), a) == Decimal(a))
    ensures Has(ExecStep(sys, target, ResourceStep(MakeOf(kind), a, n), e).sys.world, kind, a, n)
  {}

  lemma {:induction false} RunKeepsNoUuids(sys: Sys, target: Apps, steps: seq<AppStep>, es: seq<Env>)
    requires |es| == |steps| && NoUuids(sys.view)
    ensures NoUuids(Run(sys, target, steps, es).view)
  {
    if steps != [] {
      hide ExecStep;
      RunKeepsNoUuids(sys, target, Init(steps), Init(es));
      StepKeepsNoUuids(Run(sys, target, Init(steps), Init(es)), target, Last(steps), Last(es));
    }
  }

  /** A resource that exists is there after any run of steps, failed or not,
      that do not remove it. */
  lemma {:induction false} Persists(sys: Sys, target: Apps, steps: seq<AppStep>, es: seq<Env>, kind: Kind, a: nat, n: string)
    requires |es| == |steps| && ResourceStep(DropOf(kind), a, n) !in steps && NoUuids(sys.view)
    requires Has(sys.world, kind, a, n)
    ensures Has(Run(sys, target, steps, es).world, kind, a, n)
  {
    if steps != [] {
      hide ExecStep, Has;
      assert Last(steps) in steps && forall step <- Init(steps) :: step in steps;
      Persists(sys, target, Init(steps), Init(es), kind, a, n);
      RunKeepsNoUuids(sys, target, Init(steps), Init(es));
      StepSpares(Run(sys, target, Init(steps), Init(es)), target, Last(steps), Last(es), kind, a, n);
    }
  }

  lemma MadePersists(sys: Sys, target: Apps, steps: seq<AppStep>, es: seq<Env>, kind: Kind, a: nat, n: string)
    requires |es| == |steps| && IsClean(es) && NoUuids(sys.view)
    requires ResourceStep(MakeOf(kind), a, n) in steps && ResourceStep(DropOf(kind), a, n) !in steps
    requires a in target && (kind == Net ==> OwnerOf(Some(target[a]), a) == Decimal(a))
    ensures Has(Run(sys, target, steps, es).world, kind, a, n)
  {
    hide ExecStep, Has, OwnerOf, NoUuids, Run;
    var make := ResourceStep(MakeOf(kind), a, n);
    var i :| 0 <= i < |steps| && steps[i] == make;
    var s1, s2 := steps[..i], steps[i + 1..];
    var e1, e2 := es[..i], es[i + 1..];
    SplitAround(steps, i);
    SplitAround(es, i);
    assert IsClean(e1) && IsClean(e2) && IsClean([es[i]]);
    hide IsClean;
    RunConcat(sys, target, s1, [make] + s2, e1, [es[i]] + e2);
    var before := Run(sys, target, s1, e1);
    RunConcat(before, target, [make], s2, [es[i]], e2);
    RunOne(before, target, make, es[i]);
    StepMakes(before, target, kind, a, n, es[i]);
    RunKeepsNoUuids(sys, target, s1, e1);
    StepKeepsNoUuids(before, target, make, es[i]);
    Persists(ExecStep(before, target, make, es[i]).sys, target, s2, e2, kind, a, n);
  }

  // ------------------------------------------------------- where a step stands

  function StepApp(step: AppStep): nat { step.appId }

  ghost predicate AllOf(steps: seq<AppStep>, a: nat) {
    forall step <- steps :: StepApp(step) == a
  }

  lemma AllOfConcat(s1: seq<AppStep>, s2: seq<AppStep>, a: nat)
    requires AllOf(s1, a) && AllOf(s2, a)
    ensures AllOf(s1 + s2, a)
  {}

  lemma BlockOfApp(b: Block, view: Apps, target: Apps, gate: Gate)
    ensures AllOf(BlockSteps(b, view, target, gate), AppOf(b))
  {
    hide Drifted, Missing, Allows, LastById;
    if !b.One? {
      ResourceBlocks(b, view, target, gate);
      hide Each;
    }
  }

  lemma {:induction false} StepsOfApp(bs: seq<Block>, view: Apps, target: Apps, gate: Gate, a: nat)
    requires forall b <- bs :: AppOf(b) == a
    ensures AllOf(StepsOf(bs, view, target, gate), a)
  {
    if bs != [] {
      hide BlockSteps;
      assert Last(bs) in bs && forall b <- Init(bs) :: b in bs;
      StepsOfApp(Init(bs), view, target, gate, a);
      BlockOfApp(Last(bs), view, target, gate);
      AllOfConcat(StepsOf(Init(bs), view, target, gate), BlockSteps(Last(bs), view, target, gate), a);
    }
  }

  /** The steps of one app, in order. */
  function OfApp(steps: seq<AppStep>, a: nat): seq<AppStep> {
    if steps == [] then []
    else OfApp(Init(steps), a) + (if StepApp(Last(steps)) == a then [Last(steps)] else [])
  }

  lemma {:induction false} OfAppConcat(s1: seq<AppStep>, s2: seq<AppStep>, a: nat)
    ensures OfApp(s1 + s2, a) == OfApp(s1, a) + OfApp(s2, a)
  {
    if s2 == [] {
      assert s1 + s2 == s1;
    } else {
      OfAppConcat(s1, Init(s2), a);
      assert Init(s1 + s2) == s1 + Init(s2);
    }
  }

  lemma {:induction false} OfAppUniform(steps: seq<AppStep>, b: nat, a: nat)
    requires AllOf(steps, b)
    ensures OfApp(steps, a) == if a == b then steps else []
  {
    if steps != [] {
      assert Init(steps) + [Last(steps)] == steps;
      forall step | step in Init(steps) ensures StepApp(step) == b { InLast(steps, step); }
      InLast(steps, Last(steps));
      OfAppUniform(Init(steps), b, a);
    }
  }

  lemma AppStepsUniform(view: Apps, target: Apps, a: nat, gate: Gate)
    requires WellKeyed(view) && WellKeyed(target) && (a in view || a in target)
    ensures AllOf(AppSteps(a, AppAt(view, a), AppAt(target, a), gate), a)
  {
    hide AppSteps, StepsOf;
    AppIsBlocks(view, target, a, gate);
    AppBlocksOrdered(view, target, a);
    StepsOfApp(AppBlocks(view, target, a), view, target, gate, a);
  }

  lemma {:induction false} OfAppPlanFor(view: Apps, target: Apps, order: seq<nat>, gate: Gate, a: nat)
    requires WellKeyed(view) && WellKeyed(target) && NoDup(order)
    requires forall b <- order :: b in view || b in target
    ensures OfApp(PlanFor(view, target, order, gate), a)
         == if a in order then AppSteps(a, AppAt(view, a), AppAt(target, a), gate) else []
  {
    if order != [] {
      hide AppSteps, WellKeyed, OfApp, AppAt, AllOf;
      LastIsNew(order);
      var b := Last(order);
      var earlier, steps := PlanFor(view, target, Init(order), gate), AppSteps(b, AppAt(view, b), AppAt(target, b), gate);
      OfAppPlanFor(view, target, Init(order), gate, a);
      AppStepsUniform(view, target, b, gate);
      OfAppConcat(earlier, steps, a);
      OfAppUniform(steps, b, a);
      InLast(order, a);
      EmptyIsUnit(if a in Init(order) then OfApp(earlier, a) else steps);
    }
  }

  /** The steps that carry an app's id are decided by that app's current and
      target entries alone. */
  lemma AppsAreIndependent(view: Apps, target: Apps, gate: Gate, a: nat)
    requires WellKeyed(view) && WellKeyed(target)
    ensures OfApp(Plan(view, target, gate), a)
         == if a in view || a in target then AppSteps(a, AppAt(view, a), AppAt(target, a), gate) else []
  {
    hide AppSteps;
    OfAppPlanFor(view, target, AppOrder(view, target), gate, a);
  }

  // ---------------------------------------------------------- steps and blocks

  lemma {:induction false} StepInBlock(bs: seq<Block>, view: Apps, target: Apps, gate: Gate, step: AppStep)
    requires step in StepsOf(bs, view, target, gate)
    ensures exists b <- bs :: step in BlockSteps(b, view, target, gate)
  {
    hide BlockSteps;
    if step in BlockSteps(Last(bs), view, target, gate) {
      assert Last(bs) in bs;
    } else {
      StepInBlock(Init(bs), view, target, gate, step);
      assert forall b <- Init(bs) :: b in bs;
    }
  }

  /** The service a container step acts on. */
  function StepKey(step: AppStep): Option<Key> {
    match step
    case StartContainer(a, s) => Some(Key(a, s.serviceId))
    case StopContainer(a, id, _) => Some(Key(a, id))
    case PauseContainer(a, id, _) => Some(Key(a, id))
    case UnpauseContainer(a, id, _) => Some(Key(a, id))
    case StartStoppedContainer(a, id, _) => Some(Key(a, id))
    case RemoveContainer(a, id, _) => Some(Key(a, id))
    case _ => None
  }

  predicate IsResource(step: AppStep) {
    step.CreateVolume? || step.CreateNetwork? || step.RemoveNetwork? || step.RemoveVolume?
  }

  /** What a service's block may contain. */
  predicate BelongsTo(step: AppStep, view: Apps, target: Apps, k: Key) {
    && !IsResource(step)
    && (StepKey(step).Some? ==> StepKey(step).value == k)
    && (step.StartContainer? ==> Find(target, k) == Some(step.service))
    && (step.StartStoppedContainer? ==> Find(view, k).Some? && Find(view, k).value.containerId == Some(step.containerId))
  }

  lemma OneBlockSteps(view: Apps, target: Apps, gate: Gate, k: Key)
    ensures forall step <- BlockSteps(One(k), view, target, gate) :: BelongsTo(step, view, target, k)
  {
    hide Drifted, Allows;
    var cur, tgt := Find(view, k), Find(target, k);
    assert tgt.Some? ==> tgt.value.serviceId == k.svc;
    hide Find;
  }

  /** What an app's resource blocks contain. */
  lemma ResourceBlockSteps(view: Apps, target: Apps, gate: Gate, b: Block, kind: Kind, a: nat, n: string)
    requires !b.One?
    ensures ResourceStep(DropOf(kind), a, n) in BlockSteps(b, view, target, gate)
       <==> b == After(a) && n in NamesOf(kind, ServicesOf(view, a)) && n !in NamesOf(kind, ServicesOf(target, a))
    ensures ResourceStep(MakeOf(kind), a, n) in BlockSteps(b, view, target, gate)
       <==> b == Before(a) && n in NamesOf(kind, ServicesOf(target, a)) && n !in NamesOf(kind, ServicesOf(view, a))
  {
    hide VolumeNames, NetworkNames, Missing;
    var cur, tgt := ServicesOf(view, AppOf(b)), ServicesOf(target, AppOf(b));
    EachHas(MakeVolume, AppOf(b), Missing(VolumeNames(cur), VolumeNames(tgt)));
    EachHas(MakeNetwork, AppOf(b), Missing(NetworkNames(cur), NetworkNames(tgt)));
    EachHas(DropNetwork, AppOf(b), Missing(NetworkNames(tgt), NetworkNames(cur)));
    EachHas(DropVolume, AppOf(b), Missing(VolumeNames(tgt), VolumeNames(cur)));
    hide Each;
  }

  lemma EachHas(action: ResourceAction, a: nat, ns: seq<string>)
    ensures forall step :: step in Each(action, a, ns) <==> exists n <- ns :: step == ResourceStep(action, a, n)
  {
    var steps := Each(action, a, ns);
    forall step | step in steps
      ensures exists n <- ns :: step == ResourceStep(action, a, n)
    {
      var i :| 0 <= i < |steps| && steps[i] == step;
      assert ns[i] in ns;
    }
    forall n | n in ns
      ensures ResourceStep(action, a, n) in steps
    {
      var i :| 0 <= i < |ns| && ns[i] == n;
      assert steps[i] in steps;
    }
  }

  /** A plan removes only resources that no target service of the app uses. */
  lemma DropsOnlyUnwanted(view: Apps, target: Apps, gate: Gate, kind: Kind, a: nat, n: string)
    requires WellKeyed(view) && WellKeyed(target)
    requires ResourceStep(DropOf(kind), a, n) in Plan(view, target, gate)
    ensures n in NamesOf(kind, ServicesOf(view, a)) && n !in NamesOf(kind, ServicesOf(target, a))
  {
    hide BlockSteps, Plan, StepsOf, BlocksOf, NamesOf, BelongsTo;
    PlanIsBlocks(view, target, gate);
    var step := ResourceStep(DropOf(kind), a, n);
    StepInBlock(BlocksOf(view, target), view, target, gate, step);
    var b :| b in BlocksOf(view, target) && step in BlockSteps(b, view, target, gate);
    if b.One? {
      OneBlockSteps(view, target, gate, b.key);
      BelongingIsNoResource(step, view, target, b.key);
    } else {
      ResourceBlockSteps(view, target, gate, b, kind, a, n);
    }
  }

  lemma BelongingIsNoResource(step: AppStep, view: Apps, target: Apps, k: Key)
    requires BelongsTo(step, view, target, k)
    ensures !IsResource(step)
  {}

  // ------------------------------------------------------------ non-disturbance

  /** Same desired state, no drift, and a live container. */
  ghost predicate Quiet(view: Apps, target: Apps, k: Key) {
    && Find(view, k).Some? && Find(target, k).Some?
    && Find(view, k).value.Desired() == Find(target, k).value.Desired()
    && !NeedsUpdate(Find(view, k).value, Find(target, k).value)
  }

  /** No plan names a quiet service in a container step, and none removes a
      network or volume that it uses. */
  lemma QuietIsLeftAlone(view: Apps, target: Apps, gate: Gate, k: Key)
    requires WellKeyed(view) && WellKeyed(target) && Quiet(view, target, k)
    ensures forall step <- Plan(view, target, gate) :: StepKey(step) != Some(k)
    ensures forall kind, n :: n in ConfigNames(kind, Find(view, k).value.config) ==>
      ResourceStep(DropOf(kind), k.app, n) !in Plan(view, target, gate)
  {
    hide BlockSteps, Plan, StepsOf, BlocksOf, WellKeyed, NamesOf;
    PlanIsBlocks(view, target, gate);
    forall step | step in Plan(view, target, gate)
      ensures StepKey(step) != Some(k)
    {
      StepInBlock(BlocksOf(view, target), view, target, gate, step);
      var b :| b in BlocksOf(view, target) && step in BlockSteps(b, view, target, gate);
      if b.One? {
        OneBlockSteps(view, target, gate, b.key);
        if b.key == k { QuietBlock(view, target, gate, k); }
      } else {
        ResourceBlocks(b, view, target, gate);
      }
    }
    forall kind, n | n in ConfigNames(kind, Find(view, k).value.config)
      ensures ResourceStep(DropOf(kind), k.app, n) !in Plan(view, target, gate)
    {
      if ResourceStep(DropOf(kind), k.app, n) in Plan(view, target, gate) {
        DropsOnlyUnwanted(view, target, gate, kind, k.app, n);
        QuietNames(view, target, k, kind, n);
      }
    }
  }

  lemma QuietBlock(view: Apps, target: Apps, gate: Gate, k: Key)
    requires Quiet(view, target, k)
    ensures BlockSteps(One(k), view, target, gate) == []
  {
    hide Drifted, Find;
  }

  lemma QuietNames(view: Apps, target: Apps, k: Key, kind: Kind, n: string)
    requires Quiet(view, target, k) && n in ConfigNames(kind, Find(view, k).value.config)
    ensures n in NamesOf(kind, ServicesOf(target, k.app))
  {
    hide NamedVolumes, FilteredEnvironment, OrText;
    var s := Find(target, k).value;
    assert n in ConfigNames(kind, s.config);
    NamesMean(kind, ServicesOf(target, k.app), n);
  }

  // -------------------------------------------------------- where a step stands

  lemma {:induction false} PlanSegment(view: Apps, target: Apps, order: seq<nat>, gate: Gate, m: nat) returns (i: nat, off: nat)
    requires m < |PlanFor(view, target, order, gate)|
    ensures i < |order|
    ensures var steps := AppSteps(order[i], AppAt(view, order[i]), AppAt(target, order[i]), gate);
            && off < |steps|
            && PlanFor(view, target, order, gate)[m] == steps[off]
            && PlanFor(view, target, order, gate)[..m] == PlanFor(view, target, order[..i], gate) + steps[..off]
  {
    hide AppSteps;
    var earlier := PlanFor(view, target, Init(order), gate);
    var a := Last(order);
    if m < |earlier| {
      i, off := PlanSegment(view, target, Init(order), gate, m);
      assert Init(order)[..i] == order[..i];
      assert PlanFor(view, target, order, gate)[..m] == earlier[..m];
    } else {
      i, off := |order| - 1, m - |earlier|;
      assert order[..i] == Init(order);
    }
  }

  lemma {:induction false} PlanForApps(view: Apps, target: Apps, order: seq<nat>, gate: Gate)
    requires WellKeyed(view) && WellKeyed(target) && forall b <- order :: b in view || b in target
    ensures forall step <- PlanFor(view, target, order, gate) :: StepApp(step) in order
  {
    if order != [] {
      hide AppSteps, WellKeyed;
      PlanForApps(view, target, Init(order), gate);
      AppStepsUniform(view, target, Last(order), gate);
      assert Last(order) in order && forall b <- Init(order) :: b in order;
    }
  }

  lemma {:induction false} OnesBelong(view: Apps, target: Apps, a: nat, ids: seq<nat>, gate: Gate)
    ensures forall step <- StepsOf(Ones(a, ids), view, target, gate) ::
      exists id :: BelongsTo(step, view, target, Key(a, id))
  {
    forall step | step in StepsOf(Ones(a, ids), view, target, gate)
      ensures exists id :: BelongsTo(step, view, target, Key(a, id))
    {
      hide BlockSteps, StepsOf, BelongsTo;
      StepInBlock(Ones(a, ids), view, target, gate, step);
      var b :| b in Ones(a, ids) && step in BlockSteps(b, view, target, gate);
      OneBlockSteps(view, target, gate, b.key);
    }
  }

  /** A container step of app `a` stands after all of the app's creations and
      before all of its removals; the steps before it belong to other apps, to
      the creations, or to services. */
  lemma StepStands(view: Apps, target: Apps, gate: Gate, m: nat) returns (earlier: seq<AppStep>, part: seq<AppStep>)
    requires WellKeyed(view) && WellKeyed(target) && m < |Plan(view, target, gate)|
    requires !IsResource(Plan(view, target, gate)[m])
    ensures var a := StepApp(Plan(view, target, gate)[m]);
            && Plan(view, target, gate)[..m]
               == earlier + BeforeContainers(a, ServicesOf(view, a), ServicesOf(target, a)) + part
            && (forall step <- earlier :: StepApp(step) != a)
            && (forall step <- part :: !IsResource(step))
            && exists id :: BelongsTo(Plan(view, target, gate)[m], view, target, Key(a, id))
  {
    hide BeforeContainers, AfterContainers, ContainerSteps, BelongsTo, StepsOf, AppIds, PlanFor, WellKeyed;
    var order := AppOrder(view, target);
    var i, off := PlanSegment(view, target, order, gate, m);
    var a := order[i];
    var before := BeforeContainers(a, ServicesOf(view, a), ServicesOf(target, a));
    var containers := ContainerSteps(AppAt(view, a), AppAt(target, a), gate);
    var after := AfterContainers(a, ServicesOf(view, a), ServicesOf(target, a));
    assert a in order;
    AppStepsUniform(view, target, a, gate);
    ContainersAreOnes(view, target, a, gate);
    OnesBelong(view, target, a, AppIds(view, target, a), gate);
    EndsAreResources(view, target, gate, a);
    Middle(before, containers, after, off);
    earlier, part := PlanFor(view, target, order[..i], gate), containers[..off - |before|];
    PlanForApps(view, target, order[..i], gate);
    NotEarlier(order, i);
    forall step | step in part
      ensures !IsResource(step)
    {
      assert step in containers;
      var id :| BelongsTo(step, view, target, Key(a, id));
      BelongingIsNoResource(step, view, target, Key(a, id));
    }
  }

  lemma Middle(before: seq<AppStep>, containers: seq<AppStep>, after: seq<AppStep>, off: nat)
    requires off < |before + containers + after| && !IsResource((before + containers + after)[off])
    requires (forall step <- before :: IsResource(step)) && (forall step <- after :: IsResource(step))
    ensures |before| <= off < |before| + |containers|
    ensures var steps := before + containers + after;
            && steps[off] == containers[off - |before|] && steps[off] in containers && steps[off] in steps
            && steps[..off] == before + containers[..off - |before|]
  {
    hide IsResource;
    var steps := before + containers + after;
    var b, c := |before|, |before| + |containers|;
    assert forall i | 0 <= i < b :: steps[i] == before[i] && before[i] in before;
    assert forall i | c <= i < |steps| :: steps[i] == after[i - c] && after[i - c] in after;
  }

  lemma NotEarlier(order: seq<nat>, i: nat)
    requires NoDup(order) && i < |order|
    ensures order[i] !in order[..i]
    ensures forall b <- order[..i] :: b in order
  {}

  lemma EndsAreResources(view: Apps, target: Apps, gate: Gate, a: nat)
    ensures forall step <- BeforeContainers(a, ServicesOf(view, a), ServicesOf(target, a)) :: IsResource(step)
    ensures forall step <- AfterContainers(a, ServicesOf(view, a), ServicesOf(target, a)) :: IsResource(step)
  {
    hide BeforeContainers, AfterContainers;
    ResourceBlocks(Before(a), view, target, gate);
    ResourceBlocks(After(a), view, target, gate);
  }

  // --------------------------------------------------------- created before used

  /** Every network and volume a container refers to exists. */
  ghost predicate Present(w: World) {
    forall id <- w.containers, kind, n ::
      n in ConfigNames(kind, w.containers[id].config) ==> Has(w, kind, w.containers[id].key.app, n)
  }

  lemma ViewedPresent(start: Sys, a: nat, kind: Kind, n: string)
    requires Present(start.world) && (forall k: Key :: Synced(start.view, start, k))
    requires n in NamesOf(kind, ServicesOf(start.view, a))
    ensures Has(start.world, kind, a, n)
  {
    hide Has;
    var services := ServicesOf(start.view, a);
    NamesMean(kind, services, n);
    var s :| s in services && n in ConfigNames(kind, s.config);
    var k := Key(a, s.serviceId);
    assert s in Entries(start.view, k) && Synced(start.view, start, k);
    var cid, c :| At(start, k, cid, c) && Entries(start.view, k) == [ViewOf(cid, c)];
    assert s == ViewOf(cid, c) && start.world.containers[cid] == c && c.key == k;
  }

  lemma WantedMade(view: Apps, target: Apps, gate: Gate, kind: Kind, a: nat, n: string)
    requires n in NamesOf(kind, ServicesOf(target, a)) && n !in NamesOf(kind, ServicesOf(view, a))
    ensures ResourceStep(MakeOf(kind), a, n) in BeforeContainers(a, ServicesOf(view, a), ServicesOf(target, a))
  {
    ResourceBlockSteps(view, target, gate, Before(a), kind, a, n);
  }

  lemma NotDroppedBefore(view: Apps, target: Apps, gate: Gate, kind: Kind, a: nat, n: string,
                         earlier: seq<AppStep>, part: seq<AppStep>)
    requires (forall step <- earlier :: StepApp(step) != a) && (forall step <- part :: !IsResource(step))
    ensures ResourceStep(DropOf(kind), a, n) !in earlier + BeforeContainers(a, ServicesOf(view, a), ServicesOf(target, a)) + part
  {
    ResourceBlockSteps(view, target, gate, Before(a), kind, a, n);
    hide BeforeContainers;
  }

  /** Create before use. In a failure-free pass from a world whose references
      are all met, every step that starts a container finds all the networks
      and the managed volumes of that container in place. */
  lemma CreatedBeforeUse(start: Sys, target: Apps, gate: Gate, m: nat, es: seq<Env>)
    requires WellKeyed(start.view) && WellKeyed(target) && NoUuids(start.view)
    requires Present(start.world) && forall k: Key :: Synced(start.view, start, k)
    requires forall a <- target :: OwnerOk(target, a)
    requires IsClean(es) && |es| == m < |Plan(start.view, target, gate)|
    ensures var step := Plan(start.view, target, gate)[m];
            var w := Run(start, target, Plan(start.view, target, gate)[..m], es).world;
            && (step.StartContainer? ==> forall kind, n :: n in ConfigNames(kind, step.service.config) ==> Has(w, kind, step.appId, n))
            && (step.StartStoppedContainer? ==>
                 && step.containerId in start.world.containers
                 && forall kind, n :: n in ConfigNames(kind, start.world.containers[step.containerId].config) ==> Has(w, kind, step.appId, n))
  {
    hide Plan, Run, BeforeContainers, NamesOf, Has, Present, ConfigNames, OwnerOf, Entries, Find;
    var plan := Plan(start.view, target, gate);
    var step := plan[m];
    var a := step.appId;
    if step.StartContainer? || step.StartStoppedContainer? {
      var earlier, part := StepStands(start.view, target, gate, m);
      var id :| BelongsTo(step, start.view, target, Key(a, id));
      if step.StartContainer? {
        forall kind, n | n in ConfigNames(kind, step.service.config)
          ensures Has(Run(start, target, plan[..m], es).world, kind, a, n)
        {
          FoundService(target, Key(a, id));
          NamesMean(kind, ServicesOf(target, a), n);
          NotDroppedBefore(start.view, target, gate, kind, a, n, earlier, part);
          if n in NamesOf(kind, ServicesOf(start.view, a)) {
            ViewedPresent(start, a, kind, n);
            Persists(start, target, plan[..m], es, kind, a, n);
          } else {
            WantedMade(start.view, target, gate, kind, a, n);
            OwnerFits(target, a, kind, n);
            MadePersists(start, target, plan[..m], es, kind, a, n);
          }
        }
      } else {
        FoundContainer(start, Key(a, id), step.containerId);
        forall kind, n | n in ConfigNames(kind, start.world.containers[step.containerId].config)
          ensures Has(Run(start, target, plan[..m], es).world, kind, a, n)
        {
          ContainerPresent(start.world, step.containerId, kind, n);
          NotDroppedBefore(start.view, target, gate, kind, a, n, earlier, part);
          Persists(start, target, plan[..m], es, kind, a, n);
        }
      }
    }
  }

  lemma ContainerPresent(w: World, id: Cid, kind: Kind, n: string)
    requires Present(w) && id in w.containers && n in ConfigNames(kind, w.containers[id].config)
    ensures Has(w, kind, w.containers[id].key.app, n)
  {}

  lemma FoundService(target: Apps, k: Key)
    requires Find(target, k).Some?
    ensures Find(target, k).value in ServicesOf(target, k.app) && k.app in target
  {}

  lemma OwnerFits(target: Apps, a: nat, kind: Kind, n: string)
    requires a in target && OwnerOk(target, a) && n in NamesOf(kind, ServicesOf(target, a))
    ensures kind == Net ==> OwnerOf(Some(target[a]), a) == Decimal(a)
  {}

  lemma FoundContainer(start: Sys, k: Key, cid: Cid)
    requires Synced(start.view, start, k) && Find(start.view, k).Some? && Find(start.view, k).value.containerId == Some(cid)
    ensures cid in start.world.containers && start.world.containers[cid].key == k
  {
    LastIsEntry(ServicesOf(start.view, k.app), k.svc);
    var id, c :| At(start, k, id, c) && Entries(start.view, k) == [ViewOf(id, c)];
  }
}
