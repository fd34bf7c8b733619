/** What a sensor reconcile leaves to do: planning again against the same target
    gives exactly the steps that had no effect, in their old order. */
module SensorPlans {
  import opened Basics
  import opened Sensors

  ghost predicate UniqueIds(ds: seq<Device>) {
    forall i, j | 0 <= i < j < |ds| :: ds[i].id != ds[j].id
  }

  // -------------------------------------------------------------- one step undone

  /** `steps` without the occurrences of `step`. */
  ghost function Minus<T>(steps: seq<T>, step: T): seq<T> {
    if steps == [] then []
    else Minus(Init(steps), step) + (if Last(steps) == step then [] else [Last(steps)])
  }

  lemma {:induction false} MinusJoins<T>(a: seq<T>, b: seq<T>, step: T)
    ensures Minus(a + b, step) == Minus(a, step) + Minus(b, step)
  {
    if b == [] {
      assert a + b == a;
    } else {
      assert Init(a + b) == a + Init(b) && Last(a + b) == Last(b);
      MinusJoins(a, Init(b), step);
      var tail := if Last(b) == step then [] else [Last(b)];
      assert (Minus(a, step) + Minus(Init(b), step)) + tail == Minus(a, step) + (Minus(Init(b), step) + tail);
    }
  }

  lemma {:induction false} MinusAbsent<T>(steps: seq<T>, step: T)
    requires step !in steps
    ensures Minus(steps, step) == steps
  {
    if steps != [] {
      MinusAbsent(Init(steps), step);
      assert Init(steps) + [Last(steps)] == steps;
    }
  }

  lemma MinusOne<T>(x: T, step: T)
    ensures Minus([x], step) == if x == step then [] else [x]
  {
    assert Init([x]) == [];
  }

  /** A step that occurs once is cut out where it stands. */
  lemma MinusCuts<T>(before: seq<T>, step: T, after: seq<T>)
    requires step !in before && step !in after
    ensures Minus(before + [step] + after, step) == before + after
  {
    hide Minus;
    MinusJoins(before + [step], after, step);
    MinusJoins(before, [step], step);
    MinusOne(step, step);
    MinusAbsent(before, step);
    MinusAbsent(after, step);
    assert before + [] == before;
  }

  /** A step found in only one of three segments is taken out of that one. */
  lemma MinusOfThree<T>(a: seq<T>, b: seq<T>, c: seq<T>, step: T)
    ensures step !in b && step !in c ==> Minus(a + b + c, step) == Minus(a, step) + b + c
    ensures step !in a && step !in c ==> Minus(a + b + c, step) == a + Minus(b, step) + c
    ensures step !in a && step !in b ==> Minus(a + b + c, step) == a + b + Minus(c, step)
  {
    MinusJoins(a + b, c, step);
    MinusJoins(a, b, step);
    if step !in a { MinusAbsent(a, step); }
    if step !in b { MinusAbsent(b, step); }
    if step !in c { MinusAbsent(c, step); }
  }

  // ---------------------------------------------- what each segment of a plan holds

  lemma {:induction false} RegistersHold(target: seq<Device>, present: set<Text>)
    ensures forall s <- Registers(target, present) ::
      s.Register? && s.device in target && s.device.id !in present
  {
    if target != [] { RegistersHold(Init(target), present); }
  }

  lemma {:induction false} UnregistersHold(current: seq<Device>, wanted: set<Text>)
    ensures forall s <- Unregisters(current, wanted) ::
      s.Unregister? && s.id in IdsOf(current) && s.id !in wanted
  {
    if current != [] {
      UnregistersHold(Init(current), wanted);
      assert Last(current) in current;
    }
  }

  lemma {:induction false} UpdatesHold(target: seq<Device>, current: seq<Device>)
    ensures forall s <- Updates(target, current) ::
      s.Update? && s.device in target && Differs(s.device, Lookup(current, s.device.id))
  {
    if target != [] { UpdatesHold(Init(target), current); }
  }

  // ------------------------------------------------------- the effect on a segment

  lemma {:induction false} RegisteredOnce(target: seq<Device>, present: set<Text>, d: Device)
    requires forall e <- target :: e.id == d.id ==> e == d
    requires d.id !in present
    ensures Registers(target, present + {d.id}) == Minus(Registers(target, present), Register(d))
  {
    if target != [] {
      var e, rest := Last(target), Init(target);
      RegisteredOnce(rest, present, d);
      assert e in target;
      var piece := if e.id in present then [] else [Register(e)];
      MinusJoins(Registers(rest, present), piece, Register(d));
      MinusOne(Register(e), Register(d));
    }
  }

  lemma {:induction false} RegistersIgnore(target: seq<Device>, present: set<Text>, other: set<Text>)
    requires forall e <- target :: e.id in present <==> e.id in other
    ensures Registers(target, present) == Registers(target, other)
  {
    if target != [] {
      RegistersIgnore(Init(target), present, other);
      assert Last(target) in target;
    }
  }

  lemma {:induction false} UnregisteredOnce(current: seq<Device>, wanted: set<Text>, id: Text)
    requires id !in wanted
    ensures Unregisters(WithoutDevice(current, id), wanted) == Minus(Unregisters(current, wanted), Unregister(id))
  {
    if current != [] {
      var d, rest := Last(current), Init(current);
      UnregisteredOnce(rest, wanted, id);
      var kept := WithoutDevice(rest, id);
      var piece := if d.id in wanted then [] else [Unregister(d.id)];
      MinusJoins(Unregisters(rest, wanted), piece, Unregister(id));
      MinusOne(Unregister(d.id), Unregister(id));
      if d.id == id {
        assert WithoutDevice(current, id) == kept;
      } else {
        assert WithoutDevice(current, id) == kept + [d];
        assert Init(kept + [d]) == kept;
      }
    }
  }

  lemma {:induction false} UnregistersFollowIds(one: seq<Device>, two: seq<Device>, wanted: set<Text>)
    requires |one| == |two| && forall i | 0 <= i < |one| :: one[i].id == two[i].id
    ensures Unregisters(one, wanted) == Unregisters(two, wanted)
  {
    if one != [] { UnregistersFollowIds(Init(one), Init(two), wanted); }
  }

  lemma {:induction false} UpdatedOnce(target: seq<Device>, current: seq<Device>, after: seq<Device>, d: Device)
    requires forall e <- target :: e.id == d.id ==> e == d
    requires forall e <- target :: Lookup(after, e.id) == if e.id == d.id then Some(d) else Lookup(current, e.id)
    ensures Updates(target, after) == Minus(Updates(target, current), Update(d))
  {
    if target != [] {
      var e, rest := Last(target), Init(target);
      UpdatedOnce(rest, current, after, d);
      assert e in target;
      var piece := if Differs(e, Lookup(current, e.id)) then [Update(e)] else [];
      MinusJoins(Updates(rest, current), piece, Update(d));
      MinusOne(Update(e), Update(d));
    }
  }

  lemma {:induction false} UpdatesIgnore(target: seq<Device>, current: seq<Device>, after: seq<Device>)
    requires forall e <- target :: Differs(e, Lookup(after, e.id)) <==> Differs(e, Lookup(current, e.id))
    ensures Updates(target, after) == Updates(target, current)
  {
    if target != [] {
      UpdatesIgnore(Init(target), current, after);
      assert Last(target) in target;
    }
  }

  // -------------------------------------------------------------- lists with ids

  lemma {:induction false} LookupIsAt(ds: seq<Device>, i: nat)
    requires UniqueIds(ds) && i < |ds|
    ensures Lookup(ds, ds[i].id) == Some(ds[i])
  {
    if i < |ds| - 1 { LookupIsAt(Init(ds), i); }
  }

  lemma {:induction false} LookupWithout(ds: seq<Device>, gone: Text, id: Text)
    requires id != gone
    ensures Lookup(WithoutDevice(ds, gone), id) == Lookup(ds, id)
  {
    if ds != [] {
      LookupWithout(Init(ds), gone, id);
      var kept := WithoutDevice(Init(ds), gone);
      assert Init(kept + [Last(ds)]) == kept;
      if Last(ds).id == gone {
        assert WithoutDevice(ds, gone) == kept;
      }
    }
  }

  lemma LookupReplaced(ds: seq<Device>, i: nat, d: Device, id: Text)
    requires UniqueIds(ds) && i < |ds| && ds[i].id == d.id
    ensures Lookup(ds[i := d], id) == if id == d.id then Some(d) else Lookup(ds, id)
  {
    var after := ds[i := d];
    assert forall k | 0 <= k < |ds| :: after[k].id == ds[k].id;
    if id in IdsOf(ds) {
      var k :| 0 <= k < |ds| && ds[k].id == id;
      LookupIsAt(ds, k);
      LookupIsAt(after, k);
    } else {
      assert id !in IdsOf(after) by {
        forall e | e in after ensures e.id != id {
          var k :| 0 <= k < |after| && after[k] == e;
          assert ds[k] in ds;
        }
      }
      assert ds[i] in ds;
    }
  }

  lemma {:induction false} WithoutIsUnique(ds: seq<Device>, id: Text)
    requires UniqueIds(ds)
    ensures UniqueIds(WithoutDevice(ds, id))
  {
    if ds != [] {
      WithoutIsUnique(Init(ds), id);
      var kept := WithoutDevice(Init(ds), id);
      forall i | 0 <= i < |kept| ensures kept[i].id != Last(ds).id {
        assert kept[i] in Init(ds);
      }
    }
  }

  lemma AppendedIds(ds: seq<Device>, d: Device)
    ensures IdsOf(ds + [d]) == IdsOf(ds) + {d.id}
  {
    forall id | id in IdsOf(ds) + {d.id} ensures id in IdsOf(ds + [d]) {
      if id == d.id {
        assert d in ds + [d];
      } else {
        var e :| e in ds && e.id == id;
        assert e in ds + [d];
      }
    }
  }

  lemma AppendedLookup(ds: seq<Device>, d: Device, id: Text)
    ensures Lookup(ds + [d], id) == if id == d.id then Some(d) else Lookup(ds, id)
  {
    assert Init(ds + [d]) == ds && Last(ds + [d]) == d;
  }

  lemma UnregistersAppended(ds: seq<Device>, d: Device, wanted: set<Text>)
    requires d.id in wanted
    ensures Unregisters(ds + [d], wanted) == Unregisters(ds, wanted)
  {
    assert Init(ds + [d]) == ds && Last(ds + [d]) == d;
  }

  lemma AppendedUnique(ds: seq<Device>, d: Device)
    requires UniqueIds(ds) && d.id !in IdsOf(ds)
    ensures UniqueIds(ds + [d])
  {
    assert forall i | 0 <= i < |ds| :: ds[i] in ds;
  }

  lemma SameIds(one: seq<Device>, two: seq<Device>)
    requires |one| == |two| && forall k | 0 <= k < |one| :: one[k].id == two[k].id
    ensures IdsOf(one) == IdsOf(two)
  {
    forall id | id in IdsOf(one) ensures id in IdsOf(two) {
      var k :| 0 <= k < |one| && one[k].id == id;
      assert two[k] in two;
    }
    forall id | id in IdsOf(two) ensures id in IdsOf(one) {
      var k :| 0 <= k < |two| && two[k].id == id;
      assert one[k] in one;
    }
  }

  lemma UniqueById(ds: seq<Device>, d: Device)
    requires UniqueIds(ds) && d in ds
    ensures forall e <- ds :: e.id == d.id ==> e == d
  {}

  // ------------------------------------------------------------------- one step

  /** Whether a step, once executed, changes the device list. */
  predicate Took(s: Store, step: Step, f: Fault) {
    Exec(s, step, f).1 && step != Unregister("")
  }

  lemma NothingTaken(s: Store, step: Step, f: Fault)
    requires !Took(s, step, f)
    ensures Exec(s, step, f).0.Devices() == s.Devices()
  {}

  lemma WhatIsTaken(s: Store, step: Step, f: Fault)
    requires Took(s, step, f)
    ensures Exec(s, step, f).0.Devices() == match step
      case Register(device) => s.Devices() + [device]
      case Unregister(id) => WithoutDevice(s.Devices(), id)
      case Update(device) => Replace(s.Devices(), device)
  {
    hide Normalise;
  }

  lemma RegisterTakes(current: seq<Device>, target: seq<Device>, d: Device)
    requires UniqueIds(current) && UniqueIds(target) && d in target && d.id !in IdsOf(current)
    ensures UniqueIds(current + [d])
    ensures Plan(current + [d], target) == Minus(Plan(current, target), Register(d))
  {
    assert d.id in IdsOf(target);
    hide UniqueIds, IdsOf, Registers, Unregisters, Updates, Minus, Lookup;
    var after, wanted := current + [d], IdsOf(target);
    AppendedUnique(current, d);
    UniqueById(target, d);
    var rs, us, ps := Registers(target, IdsOf(current)), Unregisters(current, wanted), Updates(target, current);
    AppendedIds(current, d);
    RegisteredOnce(target, IdsOf(current), d);
    forall e | e in target
      ensures Differs(e, Lookup(after, e.id)) <==> Differs(e, Lookup(current, e.id))
    {
      AppendedLookup(current, d, e.id);
    }
    UpdatesIgnore(target, current, after);
    UnregistersAppended(current, d, wanted);
    UnregistersHold(current, wanted);
    UpdatesHold(target, current);
    MinusOfThree(rs, us, ps, Register(d));
  }

  lemma UnregisterTakes(current: seq<Device>, target: seq<Device>, id: Text)
    requires UniqueIds(current) && UniqueIds(target) && id !in IdsOf(target)
    ensures UniqueIds(WithoutDevice(current, id))
    ensures Plan(WithoutDevice(current, id), target) == Minus(Plan(current, target), Unregister(id))
  {
    var after, wanted := WithoutDevice(current, id), IdsOf(target);
    WithoutIsUnique(current, id);
    var rs, us, ps := Registers(target, IdsOf(current)), Unregisters(current, wanted), Updates(target, current);
    forall e | e in target
      ensures e.id in IdsOf(after) <==> e.id in IdsOf(current)
      ensures Lookup(after, e.id) == Lookup(current, e.id)
    {
      assert e.id != id;
      LookupWithout(current, id, e.id);
    }
    RegistersIgnore(target, IdsOf(current), IdsOf(after));
    UnregisteredOnce(current, wanted, id);
    UpdatesIgnore(target, current, after);
    RegistersHold(target, IdsOf(current));
    UpdatesHold(target, current);
    MinusOfThree(rs, us, ps, Unregister(id));
  }

  lemma UpdateTakes(current: seq<Device>, target: seq<Device>, d: Device)
    requires UniqueIds(current) && UniqueIds(target) && d in target && d.id in IdsOf(current)
    ensures UniqueIds(Replace(current, d))
    ensures Plan(Replace(current, d), target) == Minus(Plan(current, target), Update(d))
  {
    var i, wanted := IndexOf(current, d.id), IdsOf(target);
    var after := current[i := d];
    assert forall k | 0 <= k < |current| :: after[k].id == current[k].id;
    UniqueById(target, d);
    assert IdsOf(after) == IdsOf(current) by { SameIds(current, after); }
    hide Lookup, Minus, Differs;
    var rs, us, ps := Registers(target, IdsOf(current)), Unregisters(current, wanted), Updates(target, current);
    forall e | e in target
      ensures Lookup(after, e.id) == if e.id == d.id then Some(d) else Lookup(current, e.id)
    {
      LookupReplaced(current, i, d, e.id);
    }
    RegistersIgnore(target, IdsOf(current), IdsOf(after));
    UnregistersFollowIds(current, after, wanted);
    UpdatedOnce(target, current, after, d);
    RegistersHold(target, IdsOf(current));
    UnregistersHold(current, wanted);
    MinusOfThree(rs, us, ps, Update(d));
  }

  lemma PlanHolds(current: seq<Device>, target: seq<Device>, step: Step)
    requires step in Plan(current, target)
    ensures step.Register? ==> step.device in target && step.device.id !in IdsOf(current)
    ensures step.Unregister? ==> step.id in IdsOf(current) && step.id !in IdsOf(target)
    ensures step.Update? ==> step.device in target && Differs(step.device, Lookup(current, step.device.id))
  {
    RegistersHold(target, IdsOf(current));
    UnregistersHold(current, IdsOf(target));
    UpdatesHold(target, current);
  }

  /** A planned step that takes effect, and no other, leaves the plan. */
  lemma StepLeavesPlan(s: Store, target: seq<Device>, step: Step, f: Fault)
    requires UniqueIds(s.Devices()) && UniqueIds(target) && step in Plan(s.Devices(), target)
    ensures UniqueIds(Exec(s, step, f).0.Devices())
    ensures Plan(Exec(s, step, f).0.Devices(), target)
         == if Took(s, step, f) then Minus(Plan(s.Devices(), target), step) else Plan(s.Devices(), target)
  {
    var current := s.Devices();
    PlanHolds(current, target, step);
    if !Took(s, step, f) {
      NothingTaken(s, step, f);
    } else {
      WhatIsTaken(s, step, f);
      hide *;
      match step
      case Register(d) => RegisterTakes(current, target, d);
      case Unregister(id) =>
        UnregisterTakes(current, target, id);
      case Update(d) => UpdateTakes(current, target, d);
    }
  }

  // -------------------------------------------------------- a plan names no step twice

  ghost function Key(s: Step): (int, Text) {
    match s
    case Register(d) => (0, d.id)
    case Unregister(id) => (1, id)
    case Update(d) => (2, d.id)
  }

  ghost predicate UniqueKeys(steps: seq<Step>) {
    forall i, j | 0 <= i < j < |steps| :: Key(steps[i]) != Key(steps[j])
  }

  lemma {:induction false} TargetSegmentsUnique(target: seq<Device>, present: set<Text>, current: seq<Device>)
    requires UniqueIds(target)
    ensures UniqueKeys(Registers(target, present)) && UniqueKeys(Updates(target, current))
  {
    if target != [] {
      var rest, d := Init(target), Last(target);
      TargetSegmentsUnique(rest, present, current);
      RegistersHold(rest, present);
      UpdatesHold(rest, current);
      assert forall e <- rest :: e.id != d.id;
      var rs, us := Registers(rest, present), Updates(rest, current);
      assert forall i | 0 <= i < |rs| :: rs[i] in rs;
      assert forall i | 0 <= i < |us| :: us[i] in us;
    }
  }

  lemma {:induction false} CurrentSegmentUnique(current: seq<Device>, wanted: set<Text>)
    requires UniqueIds(current)
    ensures UniqueKeys(Unregisters(current, wanted))
  {
    if current != [] {
      var rest := Init(current);
      CurrentSegmentUnique(rest, wanted);
      UnregistersHold(rest, wanted);
      var us := Unregisters(rest, wanted);
      assert forall i | 0 <= i < |us| :: us[i] in us;
      assert Last(current).id !in IdsOf(rest);
    }
  }

  lemma PlanIsUnique(current: seq<Device>, target: seq<Device>)
    requires UniqueIds(current) && UniqueIds(target)
    ensures UniqueKeys(Plan(current, target))
  {
    var rs, us, ps := Registers(target, IdsOf(current)), Unregisters(current, IdsOf(target)), Updates(target, current);
    TargetSegmentsUnique(target, IdsOf(current), current);
    CurrentSegmentUnique(current, IdsOf(target));
    RegistersHold(target, IdsOf(current));
    UnregistersHold(current, IdsOf(target));
    UpdatesHold(target, current);
    assert forall i | 0 <= i < |rs| :: rs[i] in rs;
    assert forall i | 0 <= i < |us| :: us[i] in us;
    assert forall i | 0 <= i < |ps| :: ps[i] in ps;
  }

  // ------------------------------------------------------------------ a whole run

  /** The steps of a run that took no effect, in order. */
  function Untaken(s: Store, steps: seq<Step>, fs: seq<Fault>): seq<Step>
    requires |fs| == |steps|
  {
    if steps == [] then []
    else
      Untaken(s, Init(steps), Init(fs))
      + (if Took(Run(s, Init(steps), Init(fs)), Last(steps), Last(fs)) then [] else [Last(steps)])
  }

  lemma {:induction false} UntakenAmong(s: Store, steps: seq<Step>, fs: seq<Fault>)
    requires |fs| == |steps|
    ensures forall x <- Untaken(s, steps, fs) :: x in steps
  {
    if steps != [] { UntakenAmong(s, Init(steps), Init(fs)); }
  }

  /** Part-way through a run, replanning gives the steps that took no effect and
      then the steps still to come. */
  lemma {:induction false} ReplanMidway(s: Store, target: seq<Device>, done: seq<Step>, fs: seq<Fault>, ahead: seq<Step>)
    requires UniqueIds(s.Devices()) && UniqueIds(target) && |fs| == |done|
    requires Plan(s.Devices(), target) == done + ahead
    ensures UniqueIds(Run(s, done, fs).Devices())
    ensures Plan(Run(s, done, fs).Devices(), target) == Untaken(s, done, fs) + ahead
  {
    hide Exec, Plan, Took, UniqueIds, Minus;
    if done != [] {
      var before, step, past := Init(done), Last(done), Init(fs);
      var now := Run(s, before, past);
      assert done + ahead == before + ([step] + ahead);
      ReplanMidway(s, target, before, past, [step] + ahead);
      var waiting := Untaken(s, before, past);
      assert waiting + ([step] + ahead) == waiting + [step] + ahead;
      assert (waiting + [step] + ahead)[|waiting|] == step;
      StepLeavesPlan(now, target, step, Last(fs));
      PlanIsUnique(s.Devices(), target);
      assert step !in before && step !in ahead by {
        var whole := done + ahead;
        assert whole[|before|] == step;
        assert forall k | 0 <= k < |before| :: whole[k] == before[k];
        assert forall k | 0 <= k < |ahead| :: whole[|done| + k] == ahead[k];
      }
      UntakenAmong(s, before, past);
      MinusCuts(waiting, step, ahead);
      assert waiting + [step] + ahead == (waiting + [step]) + ahead;
    }
  }

  /** Planning again after any faulty run yields the steps without effect: those
      that threw and the skipped empty id. */
  lemma ReplanIsUntaken(s: Store, target: seq<Device>, fs: seq<Fault>)
    requires UniqueIds(s.Devices()) && UniqueIds(target) && |fs| == |Plan(s.Devices(), target)|
    ensures var plan := Plan(s.Devices(), target);
      && UniqueIds(Run(s, plan, fs).Devices())
      && Plan(Run(s, plan, fs).Devices(), target) == Untaken(s, plan, fs)
  {
    var plan := Plan(s.Devices(), target);
    EmptyIsUnit(plan);
    EmptyIsUnit(Untaken(s, plan, fs));
    ReplanMidway(s, target, plan, fs, []);
  }

  lemma {:induction false} UntakenIsFailed(s: Store, steps: seq<Step>, fs: seq<Fault>)
    requires |fs| == |steps|
    ensures |Failed(s, steps, fs)| <= |Untaken(s, steps, fs)|
    ensures Unregister("") !in steps ==> Untaken(s, steps, fs) == Failed(s, steps, fs)
    ensures Unregister("") in steps ==> |Failed(s, steps, fs)| < |Untaken(s, steps, fs)|
  {
    hide Run;
    if steps != [] {
      var before, past := Init(steps), Init(fs);
      UntakenIsFailed(s, before, past);
      assert steps == before + [Last(steps)];
      var now := Run(s, before, past);
      assert Took(now, Last(steps), Last(fs)) == (Exec(now, Last(steps), Last(fs)).1 && Last(steps) != Unregister(""));
      assert Exec(now, Unregister(""), Last(fs)).1;
    }
  }

  lemma EmptyIdPlanned(current: seq<Device>, target: seq<Device>)
    ensures Unregister("") in Plan(current, target) <==> "" in IdsOf(current) && "" !in IdsOf(target)
  {
    if Unregister("") in Plan(current, target) {
      PlanHolds(current, target, Unregister(""));
    }
    if "" !in IdsOf(target) { UnregistersComplete(current, IdsOf(target), ""); }
  }

  /** Planning again gives exactly the failed steps, in order, if and only if no
      listed device has the empty id or the target has one too. */
  lemma ReplanIsFailedIff(s: Store, target: seq<Device>, fs: seq<Fault>)
    requires UniqueIds(s.Devices()) && UniqueIds(target) && |fs| == |Plan(s.Devices(), target)|
    ensures Plan(Run(s, Plan(s.Devices(), target), fs).Devices(), target) == Failed(s, Plan(s.Devices(), target), fs)
      <==> ("" !in IdsOf(s.Devices()) || "" in IdsOf(target))
  {
    hide *;
    var plan := Plan(s.Devices(), target);
    ReplanIsUntaken(s, target, fs);
    UntakenIsFailed(s, plan, fs);
    EmptyIdPlanned(s.Devices(), target);
  }

  lemma {:induction false} UnregistersComplete(current: seq<Device>, wanted: set<Text>, id: Text)
    requires id !in wanted
    ensures Unregister(id) in Unregisters(current, wanted) <==> id in IdsOf(current)
  {
    if current != [] {
      assert current == Init(current) + [Last(current)];
      UnregistersComplete(Init(current), wanted, id);
    }
  }
}
