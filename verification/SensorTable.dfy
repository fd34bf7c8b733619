/** The device list and the table of rows: which steps keep each listed device
    equal, after normalisation, to the row of its name. */
module SensorTable {
  import opened Basics
  import opened Sensors
  import opened SensorPlans

  /** Every listed device has its row. */
  ghost predicate Backed(s: Store) {
    forall d <- s.Devices() :: d.name in s.table && s.table[d.name] == Normalise(d)
  }

  /** Ids and names determine each other over the list and the target. */
  ghost predicate OneToOne(current: seq<Device>, target: seq<Device>) {
    forall d, e | (d in current || d in target) && (e in current || e in target) :: d.id == e.id <==> d.name == e.name
  }

  function NamesOf(ds: seq<Device>): set<Text> { set d | d in ds :: d.name }

  /** A write that happened although the step threw: the row of a listed device is
      gone, or holds the target's settings while the list holds the old ones. */
  ghost predicate LeavesRowAstray(s: Store, step: Step, f: Fault) {
    f == FailsLate
    && match step
       case Register(_) => false
       case Unregister(id) => id != ""
       case Update(d) => var i := IndexOf(s.Devices(), d.id); i < 0 || Normalise(s.Devices()[i]) != Normalise(d)
  }

  lemma ReplaceHolds(ds: seq<Device>, d: Device)
    requires UniqueIds(ds)
    ensures forall e :: e in Replace(ds, d) <==> (e in ds && e.id != d.id) || (e == d && d.id in IdsOf(ds))
  {
    var i := IndexOf(ds, d.id);
    if i >= 0 {
      var after := ds[i := d];
      assert ds[i] in ds;
      forall e ensures e in after <==> (e in ds && e.id != d.id) || e == d {
        if e in ds && e.id != d.id {
          var k :| 0 <= k < |ds| && ds[k] == e;
          assert after[k] == e;
        }
        if e in after && e != d {
          var k :| 0 <= k < |ds| && after[k] == e;
          assert k != i && ds[k] == e;
        }
        assert after[i] == d;
      }
    }
  }

  /** Where ids and names are one-to-one, a planned step, successful or thrown,
      keeps the table behind the list exactly unless its write outlives it. */
  lemma StepKeepsBackedIff(s: Store, target: seq<Device>, step: Step, f: Fault)
    requires Backed(s) && UniqueIds(s.Devices()) && OneToOne(s.Devices(), target)
    requires step in Plan(s.Devices(), target)
    ensures Backed(Exec(s, step, f).0) <==> !LeavesRowAstray(s, step, f)
  {
    var current := s.Devices();
    PlanHolds(current, target, step);
    match step
    case Register(d) => RegisterKeeps(s, target, d, f);
    case Unregister(id) => UnregisterKeepsIff(s, target, id, f);
    case Update(d) => UpdateKeepsIff(s, target, d, f);
  }

  lemma RegisterKeeps(s: Store, target: seq<Device>, d: Device, f: Fault)
    requires Backed(s) && OneToOne(s.Devices(), target) && d in target && d.id !in IdsOf(s.Devices())
    ensures Backed(Exec(s, Register(d), f).0)
  {
    var current, after := s.Devices(), Exec(s, Register(d), f).0;
    hide Normalise;
    assert forall e <- current :: e.name != d.name;
    assert forall e <- after.Devices() :: e in current || e == d;
  }

  lemma UnregisterKeepsIff(s: Store, target: seq<Device>, id: Text, f: Fault)
    requires Backed(s) && OneToOne(s.Devices(), target) && id in IdsOf(s.Devices())
    ensures Backed(Exec(s, Unregister(id), f).0) <==> !LeavesRowAstray(s, Unregister(id), f)
  {
    var current, after := s.Devices(), Exec(s, Unregister(id), f).0;
    hide Normalise;
    var gone := current[IndexOf(current, id)];
    assert gone in current;
    assert forall e <- current :: e.id != id ==> e.name != gone.name;
    if id != "" && f == FailsLate {
      assert gone in after.Devices() && gone.name !in after.table;
    }
  }

  lemma UpdateKeepsIff(s: Store, target: seq<Device>, d: Device, f: Fault)
    requires Backed(s) && UniqueIds(s.Devices()) && OneToOne(s.Devices(), target)
    requires d in target && d.id in IdsOf(s.Devices())
    ensures Backed(Exec(s, Update(d), f).0) <==> !LeavesRowAstray(s, Update(d), f)
  {
    var current, after := s.Devices(), Exec(s, Update(d), f).0;
    hide Normalise;
    var was := current[IndexOf(current, d.id)];
    assert was in current;
    assert was.name == d.name && forall e <- current :: e.id != d.id ==> e.name != d.name;
    hide OneToOne;
    UniqueById(current, was);
    ReplaceHolds(current, d);
  }

  // ------------------------------------------------------------------ a whole run

  lemma StepStaysWithin(s: Store, target: seq<Device>, step: Step, f: Fault)
    requires UniqueIds(s.Devices()) && step in Plan(s.Devices(), target)
    ensures forall d <- Exec(s, step, f).0.Devices() :: d in s.Devices() || d in target
    ensures forall n | n !in NamesOf(s.Devices()) && n !in NamesOf(target) ::
      (n in Exec(s, step, f).0.table <==> n in s.table)
      && (n in s.table ==> Exec(s, step, f).0.table[n] == s.table[n])
  {
    var current := s.Devices();
    PlanHolds(current, target, step);
    hide Normalise, UniqueIds;
    match step
    case Register(d) => assert d.name in NamesOf(target);
    case Unregister(id) =>
      var i := IndexOf(current, id);
      assert current[i] in current && current[i].name in NamesOf(current);
    case Update(d) =>
      assert d.name in NamesOf(target);
      ReplaceHolds(current, d);
  }

  /** At each point of a run the next step is one the planner would still plan. */
  lemma NextIsPlanned(s: Store, target: seq<Device>, steps: seq<Step>, fs: seq<Fault>, n: nat)
    requires UniqueIds(s.Devices()) && UniqueIds(target)
    requires steps == Plan(s.Devices(), target) && |fs| == |steps| && n < |steps|
    ensures UniqueIds(Run(s, steps[..n], fs[..n]).Devices())
    ensures steps[n] in Plan(Run(s, steps[..n], fs[..n]).Devices(), target)
  {
    assert steps == steps[..n] + steps[n..];
    ReplanMidway(s, target, steps[..n], fs[..n], steps[n..]);
    assert steps[n..][0] == steps[n];
  }

  /** A run touches only the rows named by the list or the target. */
  lemma {:induction false} RunStaysWithin(s: Store, target: seq<Device>, steps: seq<Step>, fs: seq<Fault>, n: nat)
    requires UniqueIds(s.Devices()) && UniqueIds(target)
    requires steps == Plan(s.Devices(), target) && |fs| == |steps| && n <= |steps|
    ensures forall d <- Run(s, steps[..n], fs[..n]).Devices() :: d in s.Devices() || d in target
    ensures forall m | m !in NamesOf(s.Devices()) && m !in NamesOf(target) ::
      (m in Run(s, steps[..n], fs[..n]).table <==> m in s.table)
      && (m in s.table ==> Run(s, steps[..n], fs[..n]).table[m] == s.table[m])
  {
    if n > 0 {
      hide Plan, Exec, UniqueIds;
      assert Init(steps[..n]) == steps[..n - 1] && Init(fs[..n]) == fs[..n - 1];
      assert Last(steps[..n]) == steps[n - 1] && Last(fs[..n]) == fs[n - 1];
      RunStaysWithin(s, target, steps, fs, n - 1);
      NextIsPlanned(s, target, steps, fs, n - 1);
      var before := Run(s, steps[..n - 1], fs[..n - 1]);
      StepStaysWithin(before, target, steps[n - 1], fs[n - 1]);
      assert forall m | m !in NamesOf(s.Devices()) && m !in NamesOf(target) :: m !in NamesOf(before.Devices());
    }
  }

  /** No step of the run writes and then throws in a way that strands a row. */
  ghost predicate NothingAstray(s: Store, steps: seq<Step>, fs: seq<Fault>, n: nat)
    requires |fs| == |steps| && n <= |steps|
  {
    forall i | 0 <= i < n :: !LeavesRowAstray(Run(s, steps[..i], fs[..i]), steps[i], fs[i])
  }

  ghost predicate BackedThrough(s: Store, steps: seq<Step>, fs: seq<Fault>, n: nat)
    requires |fs| == |steps| && n <= |steps|
  {
    forall k | 0 <= k <= n :: Backed(Run(s, steps[..k], fs[..k]))
  }

  lemma OneStepOn(s: Store, steps: seq<Step>, fs: seq<Fault>, n: nat)
    requires |fs| == |steps| && n < |steps|
    ensures Run(s, steps[..n + 1], fs[..n + 1]) == Exec(Run(s, steps[..n], fs[..n]), steps[n], fs[n]).0
  {
    assert Init(steps[..n + 1]) == steps[..n] && Init(fs[..n + 1]) == fs[..n];
  }

  /** With ids and names one-to-one, the table stays behind the list at every
      point of a faulty reconcile exactly when no write outlives its step. */
  lemma {:induction false} RunKeepsBackedIff(s: Store, target: seq<Device>, steps: seq<Step>, fs: seq<Fault>, n: nat)
    requires Backed(s) && UniqueIds(s.Devices()) && UniqueIds(target) && OneToOne(s.Devices(), target)
    requires steps == Plan(s.Devices(), target) && |fs| == |steps| && n <= |steps|
    ensures NothingAstray(s, steps, fs, n) <==> BackedThrough(s, steps, fs, n)
  {
    if n == 0 {
      assert steps[..0] == [] && fs[..0] == [];
    } else {
      hide *;
      RunKeepsBackedIff(s, target, steps, fs, n - 1);
      LastPoint(s, steps, fs, n - 1);
      PointKeepsBackedIff(s, target, steps, fs, n - 1);
    }
  }

  lemma PointKeepsBackedIff(s: Store, target: seq<Device>, steps: seq<Step>, fs: seq<Fault>, n: nat)
    requires UniqueIds(s.Devices()) && UniqueIds(target) && OneToOne(s.Devices(), target)
    requires steps == Plan(s.Devices(), target) && |fs| == |steps| && n < |steps|
    ensures Backed(Run(s, steps[..n], fs[..n])) ==>
      (Backed(Run(s, steps[..n + 1], fs[..n + 1])) <==> !LeavesRowAstray(Run(s, steps[..n], fs[..n]), steps[n], fs[n]))
  {
    hide *;
    NextIsPlanned(s, target, steps, fs, n);
    RunStaysWithin(s, target, steps, fs, n);
    OneStepOn(s, steps, fs, n);
    var before := Run(s, steps[..n], fs[..n]);
    StillOneToOne(s.Devices(), before.Devices(), target);
    if Backed(before) {
      StepKeepsBackedIff(before, target, steps[n], fs[n]);
    }
  }

  lemma StillOneToOne(current: seq<Device>, later: seq<Device>, target: seq<Device>)
    requires OneToOne(current, target) && forall d <- later :: d in current || d in target
    ensures OneToOne(later, target)
  {}

  lemma LastPoint(s: Store, steps: seq<Step>, fs: seq<Fault>, n: nat)
    requires |fs| == |steps| && n < |steps|
    ensures NothingAstray(s, steps, fs, n + 1)
      <==> NothingAstray(s, steps, fs, n) && !LeavesRowAstray(Run(s, steps[..n], fs[..n]), steps[n], fs[n])
    ensures BackedThrough(s, steps, fs, n + 1)
      <==> BackedThrough(s, steps, fs, n) && Backed(Run(s, steps[..n + 1], fs[..n + 1]))
    ensures BackedThrough(s, steps, fs, n) ==> Backed(Run(s, steps[..n], fs[..n]))
  {
    hide Run, Backed, LeavesRowAstray;
  }

  // -------------------------------------------------------------- where it settles

  lemma {:induction false} RegistersComplete(target: seq<Device>, present: set<Text>, d: Device)
    requires d in target && d.id !in present
    ensures Register(d) in Registers(target, present)
  {
    if Last(target) != d {
      assert target == Init(target) + [Last(target)];
      RegistersComplete(Init(target), present, d);
    }
  }

  lemma {:induction false} UpdatesComplete(target: seq<Device>, current: seq<Device>, d: Device)
    requires d in target && Differs(d, Lookup(current, d.id))
    ensures Update(d) in Updates(target, current)
  {
    if Last(target) != d {
      assert target == Init(target) + [Last(target)];
      UpdatesComplete(Init(target), current, d);
    }
  }

  /** What is planned: registering the new, unregistering the gone, and updating those
      that differ. */
  lemma PlanMeans(current: seq<Device>, target: seq<Device>, step: Step)
    requires UniqueIds(current) && UniqueIds(target)
    ensures step in Plan(current, target) <==>
      match step
      case Register(d) => d in target && forall e <- current :: e.id != d.id
      case Unregister(id) => (exists e <- current :: e.id == id) && forall e <- target :: e.id != id
      case Update(d) => d in target && exists e <- current :: e.id == d.id && e != d
  {
    if step in Plan(current, target) { PlanHolds(current, target, step); }
    match step
    case Register(d) =>
      if d in target && d.id !in IdsOf(current) { RegistersComplete(target, IdsOf(current), d); }
    case Unregister(id) =>
      if id in IdsOf(current) && id !in IdsOf(target) { UnregistersComplete(current, IdsOf(target), id); }
    case Update(d) =>
      if e :| e in current && e.id == d.id && e != d {
        UniqueById(current, e);
        if d in target { UpdatesComplete(target, current, d); }
      }
  }

  /** New devices come first, then those that go, then those that change. */
  lemma PlanInOrder(current: seq<Device>, target: seq<Device>, i: nat, j: nat)
    requires i < j < |Plan(current, target)|
    ensures var (first, second) := (Plan(current, target)[i], Plan(current, target)[j]);
      (second.Register? ==> first.Register?) && (second.Unregister? ==> !first.Update?)
  {
    RegistersHold(target, IdsOf(current));
    UnregistersHold(current, IdsOf(target));
    UpdatesHold(target, current);
    var rs, us, ps := Registers(target, IdsOf(current)), Unregisters(current, IdsOf(target)), Updates(target, current);
    assert forall k | 0 <= k < |rs| :: rs[k] in rs;
    assert forall k | 0 <= k < |us| :: us[k] in us;
    assert forall k | 0 <= k < |ps| :: ps[k] in ps;
    hide Registers, Unregisters, Updates;
  }

  /** There is nothing to plan exactly when list and target hold the same devices. */
  lemma PlanEmptyIff(current: seq<Device>, target: seq<Device>)
    requires UniqueIds(current) && UniqueIds(target)
    ensures Plan(current, target) == [] <==> forall d :: d in current <==> d in target
  {
    var plan := Plan(current, target);
    if plan == [] {
      forall d | d in target ensures d in current {
        if d.id !in IdsOf(current) { RegistersComplete(target, IdsOf(current), d); }
        if Differs(d, Lookup(current, d.id)) { UpdatesComplete(target, current, d); }
      }
      forall d | d in current ensures d in target {
        assert d.id in IdsOf(current);
        if d.id !in IdsOf(target) { UnregistersComplete(current, IdsOf(target), d.id); }
        var e :| e in target && e.id == d.id;
        UniqueById(current, d);
      }
    } else if forall d :: d in current <==> d in target {
      assert plan[0] in plan;
      PlanHolds(current, target, plan[0]);
    }
  }

  /** Whatever failed before, once a pass has every planned step succeed the list
      holds exactly the target's devices, unless one with an empty id must go. */
  lemma SettledWhenNothingFails(s: Store, target: seq<Device>, fs: seq<Fault>)
    requires UniqueIds(s.Devices()) && UniqueIds(target) && |fs| == |Plan(s.Devices(), target)|
    requires "" !in IdsOf(s.Devices()) || "" in IdsOf(target)
    ensures Failed(s, Plan(s.Devices(), target), fs) == []
      <==> forall d :: d in Run(s, Plan(s.Devices(), target), fs).Devices() <==> d in target
  {
    var plan := Plan(s.Devices(), target);
    ReplanIsUntaken(s, target, fs);
    ReplanIsFailedIff(s, target, fs);
    PlanEmptyIff(Run(s, plan, fs).Devices(), target);
  }

  // ------------------------------------------------------------------ renaming

  /** An update that renames a device leaves the row of its old name behind, and
      reports success: the row has no listed device. */
  lemma RenameOrphansRow(s: Store, d: Device)
    requires Backed(s) && UniqueIds(s.Devices()) && d.id in IdsOf(s.Devices())
    ensures var i := IndexOf(s.Devices(), d.id);
      var (after, ok) := Exec(s, Update(d), Fine);
      && ok
      && (s.Devices()[i].name in after.table)
      && (s.Devices()[i].name in NamesOf(after.Devices())
          <==> s.Devices()[i].name == d.name || exists e <- s.Devices() :: e.id != d.id && e.name == s.Devices()[i].name)
  {
    var i := IndexOf(s.Devices(), d.id);
    assert s.Devices()[i] in s.Devices();
    ReplaceHolds(s.Devices(), d);
    var (after, ok) := Exec(s, Update(d), Fine);
    hide Normalise;
    assert d in after.Devices();
  }
}
