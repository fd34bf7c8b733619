/** When a planned registration goes through: the table admits a name once. */
module SensorNames {
  import opened Basics
  import opened Sensors
  import opened SensorPlans
  import opened SensorTable

  ghost predicate UniqueNames(ds: seq<Device>) {
    forall i, j | 0 <= i < j < |ds| :: ds[i].name != ds[j].name
  }

  lemma OneToOneNames(current: seq<Device>, target: seq<Device>)
    requires OneToOne(current, target) && UniqueIds(target)
    ensures UniqueNames(target)
  {
    forall i, j | 0 <= i < j < |target|
      ensures target[i].name != target[j].name
    {
      assert target[i] in target && target[j] in target;
    }
  }

  // -------------------------------------------------------- one step of a whole run

  /** In a run without repeated steps, a step is left over exactly if it took no
      effect when its turn came. */
  lemma {:induction false} LeftOverIff(s: Store, steps: seq<Step>, fs: seq<Fault>, i: nat)
    requires |fs| == |steps| && UniqueKeys(steps) && i < |steps|
    ensures steps[i] in Untaken(s, steps, fs) <==> !Took(Run(s, steps[..i], fs[..i]), steps[i], fs[i])
  {
    hide Exec, Took;
    var earlier, past := Init(steps), Init(fs);
    if i < |earlier| {
      LeftOverIff(s, earlier, past, i);
      assert earlier[..i] == steps[..i] && past[..i] == fs[..i];
      assert Last(steps) != steps[i];
    } else {
      UntakenAmong(s, earlier, past);
      assert forall k | 0 <= k < |earlier| :: Key(earlier[k]) != Key(steps[i]);
      assert earlier == steps[..i] && past == fs[..i];
    }
  }

  /** Registrations of other devices come before that of `d`, and nothing else. */
  lemma RegistersFirst(current: seq<Device>, target: seq<Device>, d: Device, i: nat)
    requires UniqueIds(current) && UniqueIds(target)
    requires i < |Plan(current, target)| && Plan(current, target)[i] == Register(d)
    ensures forall k | 0 <= k < i ::
      var step := Plan(current, target)[k];
      step.Register? && step.device in target && step.device != d
  {
    var plan := Plan(current, target);
    var rs, us, ps := Registers(target, IdsOf(current)), Unregisters(current, IdsOf(target)), Updates(target, current);
    RegistersHold(target, IdsOf(current));
    UnregistersHold(current, IdsOf(target));
    UpdatesHold(target, current);
    PlanIsUnique(current, target);
    InFirst(rs, us, ps, i);
    hide Plan, Registers, Unregisters, Updates, UniqueIds;
    forall k | 0 <= k < i
      ensures plan[k].Register? && plan[k].device in target && plan[k].device != d
    {
      assert Key(plan[k]) != Key(plan[i]);
    }
  }

  lemma InFirst<T>(a: seq<T>, b: seq<T>, c: seq<T>, i: nat)
    requires i < |a + b + c| && (a + b + c)[i] !in b && (a + b + c)[i] !in c
    ensures i < |a| && forall k | 0 <= k <= i :: (a + b + c)[k] in a
  {
    var whole := a + b + c;
    assert forall k | 0 <= k < |a| :: whole[k] == a[k];
    assert forall k | 0 <= k < |b| :: whole[|a| + k] == b[k];
    assert forall k | 0 <= k < |c| :: whole[|a| + |b| + k] == c[k];
  }

  lemma RegisterAside(s: Store, e: Device, f: Fault, name: Text)
    requires e.name != name
    ensures name in Exec(s, Register(e), f).0.table <==> name in s.table
  {
    hide Normalise;
  }

  /** Until its own registration comes, a device's name is taken or free as it was. */
  lemma {:induction false} NameWaits(s: Store, steps: seq<Step>, fs: seq<Fault>, n: nat, name: Text)
    requires |fs| == |steps| && n <= |steps|
    requires forall k | 0 <= k < n :: steps[k].Register? && steps[k].device.name != name
    ensures name in Run(s, steps[..n], fs[..n]).table <==> name in s.table
  {
    hide Exec;
    if n > 0 {
      OneStepOn(s, steps, fs, n - 1);
      NameWaits(s, steps, fs, n - 1, name);
      RegisterAside(Run(s, steps[..n - 1], fs[..n - 1]), steps[n - 1].device, fs[n - 1], name);
    }
  }

  lemma TargetNamesDiffer(target: seq<Device>, d: Device, e: Device)
    requires UniqueNames(target) && d in target && e in target && d != e
    ensures d.name != e.name
  {
    var i :| 0 <= i < |target| && target[i] == d;
    var j :| 0 <= j < |target| && target[j] == e;
  }

  lemma RegistrationTakesIff(s: Store, target: seq<Device>, fs: seq<Fault>, i: nat, d: Device)
    requires UniqueIds(s.Devices()) && UniqueIds(target) && UniqueNames(target)
    requires |fs| == |Plan(s.Devices(), target)| && i < |fs| && Plan(s.Devices(), target)[i] == Register(d)
    ensures var plan := Plan(s.Devices(), target);
      Took(Run(s, plan[..i], fs[..i]), plan[i], fs[i]) <==> fs[i] == Fine && d.name !in s.table
  {
    var plan := Plan(s.Devices(), target);
    RegistersFirst(s.Devices(), target, d, i);
    assert plan[i] in plan;
    PlanHolds(s.Devices(), target, plan[i]);
    forall k | 0 <= k < i
      ensures plan[k].Register? && plan[k].device.name != d.name
    {
      TargetNamesDiffer(target, d, plan[k].device);
    }
    NameWaits(s, plan, fs, i, d.name);
    hide Plan, Run, Normalise;
  }

  /** A device not yet listed is listed by a reconcile exactly if its own step meets
      no fault and its name was free in the table beforehand, whatever happens to
      the other steps. */
  lemma RegisteredIff(s: Store, target: seq<Device>, fs: seq<Fault>, i: nat, d: Device)
    requires UniqueIds(s.Devices()) && UniqueIds(target) && UniqueNames(target)
    requires |fs| == |Plan(s.Devices(), target)| && i < |fs| && Plan(s.Devices(), target)[i] == Register(d)
    ensures d in Run(s, Plan(s.Devices(), target), fs).Devices() <==> fs[i] == Fine && d.name !in s.table
    ensures d.id in IdsOf(Run(s, Plan(s.Devices(), target), fs).Devices()) <==> fs[i] == Fine && d.name !in s.table
  {
    var plan := Plan(s.Devices(), target);
    var after := Run(s, plan, fs);
    assert plan[i] in plan;
    PlanHolds(s.Devices(), target, plan[i]);
    PlanIsUnique(s.Devices(), target);
    ReplanIsUntaken(s, target, fs);
    LeftOverIff(s, plan, fs, i);
    RegistrationTakesIff(s, target, fs, i, d);
    UntakenAmong(s, plan, fs);
    PlannedIffUnlisted(after.Devices(), target, d);
    if Update(d) in plan { PlanHolds(s.Devices(), target, Update(d)); }
    hide Untaken, Took, Run, Plan, UniqueNames;
  }

  /** What a plan says about one device of the target. */
  lemma PlannedIffUnlisted(current: seq<Device>, target: seq<Device>, d: Device)
    requires UniqueIds(current) && UniqueIds(target) && d in target
    ensures Register(d) in Plan(current, target) <==> d.id !in IdsOf(current)
    ensures Register(d) !in Plan(current, target) && Update(d) !in Plan(current, target) ==> d in current
    ensures d in current ==> d.id in IdsOf(current)
  {
    if Register(d) in Plan(current, target) { PlanHolds(current, target, Register(d)); }
    if d.id !in IdsOf(current) {
      RegistersComplete(target, IdsOf(current), d);
    } else if Differs(d, Lookup(current, d.id)) {
      UpdatesComplete(target, current, d);
    }
  }

  lemma PlannedAt(current: seq<Device>, target: seq<Device>, d: Device) returns (i: nat)
    requires UniqueIds(current) && UniqueIds(target) && d in target && d.id !in IdsOf(current)
    ensures i < |Plan(current, target)| && Plan(current, target)[i] == Register(d)
  {
    PlannedIffUnlisted(current, target, d);
    i :| 0 <= i < |Plan(current, target)| && Plan(current, target)[i] == Register(d);
  }

  // ----------------------------------------------------------------- getting stuck

  /** The device is wanted and unlisted, but a row already has its name. */
  ghost predicate Stuck(s: Store, target: seq<Device>, d: Device) {
    && UniqueIds(s.Devices()) && OneToOne(s.Devices(), target)
    && d in target && d.id !in IdsOf(s.Devices()) && d.name in s.table
  }

  lemma StuckStep(s: Store, target: seq<Device>, d: Device, step: Step, f: Fault)
    requires UniqueIds(s.Devices()) && UniqueIds(target) && OneToOne(s.Devices(), target)
    requires d in target && d.id !in IdsOf(s.Devices()) && d.name in s.table
    requires step in Plan(s.Devices(), target)
    ensures d.id !in IdsOf(Exec(s, step, f).0.Devices()) && d.name in Exec(s, step, f).0.table
  {
    var current := s.Devices();
    PlanHolds(current, target, step);
    hide Normalise, Plan;
    match step
    case Register(e) =>
      if e.id == d.id { UniqueById(target, d); }
    case Unregister(id) =>
      var i := IndexOf(current, id);
      assert current[i] in current;
      assert current[i].id != d.id;
    case Update(e) => ReplaceHolds(current, e);
  }

  lemma StuckStays(s: Store, target: seq<Device>, d: Device, step: Step, f: Fault)
    requires Stuck(s, target, d) && UniqueIds(target) && step in Plan(s.Devices(), target)
    requires OneToOne(Exec(s, step, f).0.Devices(), target)
    ensures Stuck(Exec(s, step, f).0, target, d)
  {
    StuckStep(s, target, d, step, f);
    StepLeavesPlan(s, target, step, f);
    hide Plan, Exec, OneToOne, UniqueIds;
  }

  ghost predicate StuckAt(s: Store, target: seq<Device>, d: Device, steps: seq<Step>, fs: seq<Fault>, n: nat)
    requires |fs| == |steps| && n <= |steps|
  {
    Stuck(Run(s, steps[..n], fs[..n]), target, d)
  }

  lemma {:induction false} StuckFrom(s: Store, target: seq<Device>, d: Device, steps: seq<Step>, fs: seq<Fault>, m: nat, n: nat)
    requires UniqueIds(s.Devices()) && UniqueIds(target) && OneToOne(s.Devices(), target)
    requires steps == Plan(s.Devices(), target) && |fs| == |steps| && m <= n <= |steps|
    requires StuckAt(s, target, d, steps, fs, m)
    ensures StuckAt(s, target, d, steps, fs, n)
  {
    hide *;
    if n > m {
      StuckFrom(s, target, d, steps, fs, m, n - 1);
      StuckOneOn(s, target, d, steps, fs, n - 1);
    }
  }

  lemma StuckOneOn(s: Store, target: seq<Device>, d: Device, steps: seq<Step>, fs: seq<Fault>, n: nat)
    requires UniqueIds(s.Devices()) && UniqueIds(target) && OneToOne(s.Devices(), target)
    requires steps == Plan(s.Devices(), target) && |fs| == |steps| && n < |steps|
    requires StuckAt(s, target, d, steps, fs, n)
    ensures StuckAt(s, target, d, steps, fs, n + 1)
  {
    hide Plan, Run, Exec, OneToOne, UniqueIds, Stuck;
    NextIsPlanned(s, target, steps, fs, n);
    OneStepOn(s, steps, fs, n);
    RunStaysWithin(s, target, steps, fs, n + 1);
    StillOneToOne(s.Devices(), Run(s, steps[..n + 1], fs[..n + 1]).Devices(), target);
    StuckStays(Run(s, steps[..n], fs[..n]), target, d, steps[n], fs[n]);
  }

  /** A registration whose write outlives its step gets its device stuck. */
  lemma {:induction false} LateRegistrationSticks(s: Store, target: seq<Device>, fs: seq<Fault>, i: nat, d: Device)
    requires UniqueIds(s.Devices()) && UniqueIds(target) && OneToOne(s.Devices(), target)
    requires |fs| == |Plan(s.Devices(), target)| && i < |fs|
    requires Plan(s.Devices(), target)[i] == Register(d) && fs[i] == FailsLate
    ensures Stuck(Run(s, Plan(s.Devices(), target), fs), target, d)
  {
    var plan := Plan(s.Devices(), target);
    NextIsPlanned(s, target, plan, fs, i);
    OneStepOn(s, plan, fs, i);
    RunStaysWithin(s, target, plan, fs, i);
    var before := Run(s, plan[..i], fs[..i]);
    PlanHolds(before.Devices(), target, plan[i]);
    StillOneToOne(s.Devices(), before.Devices(), target);
    LateWrite(before, d);
    assert StuckAt(s, target, d, plan, fs, i + 1);
    hide Plan, Run, Exec, Stuck, OneToOne, UniqueIds;
    StuckFrom(s, target, d, plan, fs, i + 1, |plan|);
    EmptyIsUnit(plan);
    EmptyIsUnit(fs);
  }

  lemma {:induction false} LateWrite(s: Store, d: Device)
    ensures var (after, ok) := Exec(s, Register(d), FailsLate);
      !ok && after.Devices() == s.Devices() && d.name in after.table
  {
    hide Normalise;
  }

  /** Reconciles in a row against one target, each with faults of its own. */
  function Rounds(s: Store, target: seq<Device>, faults: seq<nat -> Fault>): Store {
    if faults == [] then s
    else
      var before, f := Rounds(s, target, Init(faults)), Last(faults);
      var plan := Plan(before.Devices(), target);
      Run(before, plan, seq(|plan|, i requires 0 <= i < |plan| => f(i)))
  }

  lemma {:induction false} StuckThroughRounds(s: Store, target: seq<Device>, d: Device, faults: seq<nat -> Fault>)
    requires UniqueIds(target) && Stuck(s, target, d)
    ensures Stuck(Rounds(s, target, faults), target, d)
  {
    if faults != [] {
      StuckThroughRounds(s, target, d, Init(faults));
      var before, f := Rounds(s, target, Init(faults)), Last(faults);
      var plan := Plan(before.Devices(), target);
      var fs := seq(|plan|, i requires 0 <= i < |plan| => f(i));
      EmptyIsUnit(plan);
      EmptyIsUnit(fs);
      assert Run(before, plan[..0], fs[..0]) == before;
      StuckFrom(before, target, d, plan, fs, 0, |plan|);
    }
  }

  /** With ids and names one-to-one, a wanted and unlisted device is never listed,
      however often and with whatever luck the target is reconciled, exactly if a
      row has its name now: one left by a late failure, or a discovered sensor's. */
  lemma NeverListedIff(s: Store, target: seq<Device>, d: Device)
    requires UniqueIds(s.Devices()) && UniqueIds(target) && OneToOne(s.Devices(), target)
    requires d in target && d.id !in IdsOf(s.Devices())
    ensures (forall faults :: d.id !in IdsOf(Rounds(s, target, faults).Devices())) <==> d.name in s.table
  {
    if d.name in s.table {
      forall faults
        ensures d.id !in IdsOf(Rounds(s, target, faults).Devices())
      {
        StuckThroughRounds(s, target, d, faults);
      }
    } else {
      var fine: nat -> Fault := n => Fine;
      assert Init([fine]) == [];
      assert Rounds(s, target, []) == s;
      var plan := Plan(s.Devices(), target);
      var i := PlannedAt(s.Devices(), target, d);
      OneToOneNames(s.Devices(), target);
      RegisteredIff(s, target, seq(|plan|, n requires 0 <= n < |plan| => fine(n)), i, d);
      assert d.id in IdsOf(Rounds(s, target, [fine]).Devices());
    }
  }

  // ------------------------------------------------------ a name under a new id

  function AllFine(n: nat): (fs: seq<Fault>)
    ensures |fs| == n && forall i | 0 <= i < n :: fs[i] == Fine
  {
    seq(n, i => Fine)
  }

  /** A fault-free reconcile. */
  function Reconciled(s: Store, target: seq<Device>): Store {
    Run(s, Plan(s.Devices(), target), AllFine(|Plan(s.Devices(), target)|))
  }

  /** Some listed device of that name is to be unregistered. */
  ghost predicate Freed(s: Store, target: seq<Device>, name: Text) {
    exists c <- s.Devices() :: c.id !in IdsOf(target) && c.id != "" && c.name == name
  }

  /** The step unregisters a device that was listed under `name`. */
  predicate Frees(current: seq<Device>, step: Step, name: Text) {
    step.Unregister? && step.id != "" && IndexOf(current, step.id) >= 0 && current[IndexOf(current, step.id)].name == name
  }

  lemma StepOnName(s: Store, current: seq<Device>, target: seq<Device>, d: Device, step: Step)
    requires UniqueIds(current) && UniqueIds(target) && UniqueNames(target) && d in target && d.id !in IdsOf(current)
    requires UniqueIds(s.Devices()) && step in Plan(s.Devices(), target) && step in Plan(current, target)
    requires forall x <- s.Devices() :: x in current || x in target
    requires step == Register(d) ==> d.name in s.table
    ensures d.name in Exec(s, step, Fine).0.table <==> d.name in s.table && !Frees(current, step, d.name)
  {
    PlanHolds(s.Devices(), target, step);
    PlanHolds(current, target, step);
    hide Normalise, Plan;
    match step
    case Register(e) =>
      if e != d { TargetNamesDiffer(target, d, e); }
    case Update(e) =>
      assert e != d;
      TargetNamesDiffer(target, d, e);
    case Unregister(id) =>
      var c := s.Devices()[IndexOf(s.Devices(), id)];
      assert c in s.Devices() && c in current;
      UniqueById(current, c);
      assert current[IndexOf(current, id)] in current;
  }

  ghost predicate KeptBefore(current: seq<Device>, steps: seq<Step>, n: nat, name: Text)
    requires n <= |steps|
  {
    forall k | 0 <= k < n :: !Frees(current, steps[k], name)
  }

  lemma NothingDone(s: Store, steps: seq<Step>, fs: seq<Fault>)
    requires |fs| == |steps|
    ensures Run(s, steps[..0], fs[..0]) == s
  {
    assert steps[..0] == [] && fs[..0] == [];
  }

  lemma {:induction false} NameKept(s: Store, target: seq<Device>, d: Device, steps: seq<Step>, fs: seq<Fault>, n: nat)
    requires UniqueIds(s.Devices()) && UniqueIds(target) && UniqueNames(target)
    requires d in target && d.id !in IdsOf(s.Devices()) && d.name in s.table
    requires steps == Plan(s.Devices(), target) && fs == AllFine(|steps|) && n <= |steps|
    ensures d.name in Run(s, steps[..n], fs[..n]).table <==> KeptBefore(s.Devices(), steps, n, d.name)
  {
    if n == 0 {
      NothingDone(s, steps, fs);
    } else {
      hide *;
      NameKept(s, target, d, steps, fs, n - 1);
      NameKeptOn(s, target, d, steps, fs, n - 1);
    }
  }

  lemma NameKeptOn(s: Store, target: seq<Device>, d: Device, steps: seq<Step>, fs: seq<Fault>, n: nat)
    requires UniqueIds(s.Devices()) && UniqueIds(target) && UniqueNames(target)
    requires d in target && d.id !in IdsOf(s.Devices()) && d.name in s.table
    requires steps == Plan(s.Devices(), target) && fs == AllFine(|steps|) && n < |steps|
    requires d.name in Run(s, steps[..n], fs[..n]).table <==> KeptBefore(s.Devices(), steps, n, d.name)
    ensures d.name in Run(s, steps[..n + 1], fs[..n + 1]).table <==> KeptBefore(s.Devices(), steps, n + 1, d.name)
  {
    assert fs[n] == Fine && steps[n] in steps;
    hide Plan, Run, UniqueIds, UniqueNames, Exec, AllFine;
    OneStepOn(s, steps, fs, n);
    NextIsPlanned(s, target, steps, fs, n);
    RunStaysWithin(s, target, steps, fs, n);
    if steps[n] == Register(d) {
      RegistersFirst(s.Devices(), target, d, n);
      assert KeptBefore(s.Devices(), steps, n, d.name);
    }
    hide Frees;
    StepOnName(Run(s, steps[..n], fs[..n]), s.Devices(), target, d, steps[n]);
  }

  /** After a fault-free reconcile a taken name is free exactly if its owner went. */
  lemma NameFreedIff(s: Store, target: seq<Device>, d: Device)
    requires UniqueIds(s.Devices()) && UniqueIds(target) && UniqueNames(target)
    requires d in target && d.id !in IdsOf(s.Devices()) && d.name in s.table
    ensures d.name !in Reconciled(s, target).table <==> Freed(s, target, d.name)
  {
    var current := s.Devices();
    var plan := Plan(current, target);
    var fs := AllFine(|plan|);
    EmptyIsUnit(plan);
    EmptyIsUnit(fs);
    NameKept(s, target, d, plan, fs, |plan|);
    if c :| c in current && c.id !in IdsOf(target) && c.id != "" && c.name == d.name {
      UnregistersComplete(current, IdsOf(target), c.id);
      assert Unregister(c.id) in plan;
      UniqueById(current, c);
      assert current[IndexOf(current, c.id)] in current;
      var k :| 0 <= k < |plan| && plan[k] == Unregister(c.id);
      assert Frees(current, plan[k], d.name);
    }
    if k :| 0 <= k < |plan| && Frees(current, plan[k], d.name) {
      assert plan[k] in plan;
      PlanHolds(current, target, plan[k]);
      assert current[IndexOf(current, plan[k].id)] in current;
    }
  }

  /** A device once listed as wanted stays so through a fault-free reconcile. */
  lemma ListedStays(s: Store, target: seq<Device>, d: Device)
    requires UniqueIds(s.Devices()) && UniqueIds(target) && d in target && d in s.Devices()
    ensures d in Reconciled(s, target).Devices()
  {
    var plan := Plan(s.Devices(), target);
    var fs := AllFine(|plan|);
    ReplanIsUntaken(s, target, fs);
    UntakenAmong(s, plan, fs);
    PlannedIffUnlisted(Reconciled(s, target).Devices(), target, d);
    PlannedIffUnlisted(s.Devices(), target, d);
    UniqueById(s.Devices(), d);
    if Update(d) in plan { PlanHolds(s.Devices(), target, Update(d)); }
    hide Plan, Run, Untaken;
  }

  /** Two fault-free reconciles list a wanted device, also one that takes over the
      name of another, exactly if its name was free or its owner is to go. The first
      registers before it unregisters, and so is not enough in the second case. */
  lemma SecondReconcileIff(s: Store, target: seq<Device>, d: Device)
    requires UniqueIds(s.Devices()) && UniqueIds(target) && UniqueNames(target)
    requires d in target && d.id !in IdsOf(s.Devices())
    ensures d in Reconciled(s, target).Devices() <==> d.name !in s.table
    ensures d in Reconciled(Reconciled(s, target), target).Devices()
      <==> d.name !in s.table || Freed(s, target, d.name)
  {
    var plan := Plan(s.Devices(), target);
    var i := PlannedAt(s.Devices(), target, d);
    RegisteredIff(s, target, AllFine(|plan|), i, d);
    ReplanIsUntaken(s, target, AllFine(|plan|));
    var once := Reconciled(s, target);
    if d.name !in s.table {
      ListedStays(once, target, d);
    } else {
      NameFreedIff(s, target, d);
      var j := PlannedAt(once.Devices(), target, d);
      RegisteredIff(once, target, AllFine(|Plan(once.Devices(), target)|), j, d);
    }
    hide Freed, UniqueNames, Untaken;
  }
}
