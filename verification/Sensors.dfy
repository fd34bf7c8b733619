/** The sensor-config reconciler (agent/src/device-manager/config.ts): a list of
    devices keyed by id, diffed against a target list, and a table of rows keyed
    by name that is kept in step with it. */
module Sensors {
  import opened Basics

  type Text = string

  /** A connection string with what a URL parser makes of it. */
  datatype Address = Address(text: Text, url: Option<(Text, nat)>)

  datatype Device = Device(
    id: Text,
    name: Text,
    protocol: Text,
    address: Option<Address>,
    connection: Option<map<Text, Text>>,
    pollInterval: Option<int>,
    enabled: Option<bool>,
    dataPoints: Option<seq<Text>>,
    registers: Option<seq<Text>>)

  datatype Row = Row(
    protocol: Text,
    enabled: bool,
    pollInterval: int,
    connection: map<Text, Text>,
    dataPoints: seq<Text>,
    metadata: map<Text, Text>)

  /** The connection object a device stands for; an empty string counts as absent. */
  function ConnectionOf(d: Device): map<Text, Text> {
    if d.address.Some? && d.address.value.text != "" then
      match d.address.value.url
      case Some((host, port)) => map["host" := host, "port" := Decimal(if port == 0 then 502 else port)]
      case None => map["connectionString" := d.address.value.text]
    else d.connection.GetOr(map[])
  }

  /** The row a device is stored as. */
  function Normalise(d: Device): Row {
    var connection := ConnectionOf(d);
    Row(d.protocol,
        d.enabled.GetOr(true),
        if d.pollInterval.Some? && d.pollInterval.value != 0 then d.pollInterval.value else 5000,
        connection,
        if d.dataPoints.Some? then d.dataPoints.value else d.registers.GetOr([]),
        if d.protocol == "modbus" && "unitId" in connection then map["slaveId" := connection["unitId"]] else map[])
  }

  datatype Step = Register(device: Device) | Unregister(id: Text) | Update(device: Device)

  /** How the database treats a step: normally, rejecting its write, or failing
      after the write. */
  datatype Fault = Fine | Rejected | FailsLate

  datatype Store = Store(sensors: Option<seq<Device>>, table: map<Text, Row>)
  {
    function Devices(): seq<Device> { sensors.GetOr([]) }
  }

  // -------------------------------------------------------------------- the diff

  function IdsOf(ds: seq<Device>): set<Text> { set d | d in ds :: d.id }

  /** `new Map(devices.map(d => [d.id, d])).get(id)` */
  function Lookup(ds: seq<Device>, id: Text): (found: Option<Device>)
    ensures found.Some? ==> found.value in ds && found.value.id == id
    ensures found.None? <==> id !in IdsOf(ds)
  {
    if ds == [] then None
    else if Last(ds).id == id then Some(Last(ds))
    else Lookup(Init(ds), id)
  }

  function Registers(target: seq<Device>, present: set<Text>): seq<Step> {
    if target == [] then []
    else Registers(Init(target), present) + (if Last(target).id in present then [] else [Register(Last(target))])
  }

  function Unregisters(current: seq<Device>, wanted: set<Text>): seq<Step> {
    if current == [] then []
    else Unregisters(Init(current), wanted) + (if Last(current).id in wanted then [] else [Unregister(Last(current).id)])
  }

  predicate Differs(d: Device, found: Option<Device>) { found.Some? && found.value != d }

  function Updates(target: seq<Device>, current: seq<Device>): seq<Step> {
    if target == [] then []
    else
      var d := Last(target);
      Updates(Init(target), current) + (if Differs(d, Lookup(current, d.id)) then [Update(d)] else [])
  }

  function Plan(current: seq<Device>, target: seq<Device>): seq<Step> {
    Registers(target, IdsOf(current)) + Unregisters(current, IdsOf(target)) + Updates(target, current)
  }

  // ------------------------------------------------------------------- execution

  function IndexOf(ds: seq<Device>, id: Text): (i: int)
    ensures -1 <= i < |ds|
    ensures i >= 0 ==> ds[i].id == id && forall j | 0 <= j < i :: ds[j].id != id
    ensures i < 0 ==> id !in IdsOf(ds)
  {
    if ds == [] then -1
    else if ds[0].id == id then 0
    else
      var i := IndexOf(ds[1..], id);
      if i < 0 then -1 else i + 1
  }

  function Replace(ds: seq<Device>, d: Device): seq<Device> {
    var i := IndexOf(ds, d.id);
    if i < 0 then ds else ds[i := d]
  }

  function WithoutDevice(ds: seq<Device>, id: Text): (kept: seq<Device>)
    ensures forall d :: d in kept <==> d in ds && d.id != id
  {
    if ds == [] then []
    else WithoutDevice(Init(ds), id) + (if Last(ds).id == id then [] else [Last(ds)])
  }

  function ExecRegister(s: Store, d: Device, f: Fault): (Store, bool) {
    if f == Rejected || d.name in s.table then (s, false)
    else
      var written := s.(table := s.table[d.name := Normalise(d)]);
      if f == FailsLate then (written, false) else (written.(sensors := Some(s.Devices() + [d])), true)
  }

  /** An update writes the row of the device's name, creating it if missing. */
  function ExecUpdate(s: Store, d: Device, f: Fault): (Store, bool) {
    if f == Rejected then (s, false)
    else
      var written := s.(table := s.table[d.name := Normalise(d)]);
      if f == FailsLate then (written, false) else (written.(sensors := Some(Replace(s.Devices(), d))), true)
  }

  /** An empty id is skipped; a device not in the list has no row to delete. */
  function ExecUnregister(s: Store, id: Text, f: Fault): (Store, bool) {
    if id == "" then (s, true)
    else
      var i := IndexOf(s.Devices(), id);
      var kept := if s.sensors.Some? then Some(WithoutDevice(s.sensors.value, id)) else None;
      if i < 0 then (s.(sensors := kept), true)
      else if f == Rejected then (s, false)
      else
        var deleted := s.(table := s.table - {s.Devices()[i].name});
        if f == FailsLate then (deleted, false) else (deleted.(sensors := kept), true)
  }

  function Exec(s: Store, step: Step, f: Fault): (Store, bool) {
    match step
    case Register(d) => ExecRegister(s, d, f)
    case Unregister(id) => ExecUnregister(s, id, f)
    case Update(d) => ExecUpdate(s, d, f)
  }

  function Run(s: Store, steps: seq<Step>, fs: seq<Fault>): Store
    requires |fs| == |steps|
  {
    if steps == [] then s else Exec(Run(s, Init(steps), Init(fs)), Last(steps), Last(fs)).0
  }

  /** The steps of a run that throw, in order. */
  function Failed(s: Store, steps: seq<Step>, fs: seq<Fault>): seq<Step>
    requires |fs| == |steps|
  {
    if steps == [] then []
    else
      Failed(s, Init(steps), Init(fs))
      + (if Exec(Run(s, Init(steps), Init(fs)), Last(steps), Last(fs)).1 then [] else [Last(steps)])
  }

  /** The steps of a run that do not throw, by their places. */
  ghost function Succeeding(s: Store, steps: seq<Step>, fs: seq<Fault>): set<nat>
    requires |fs| == |steps|
  {
    set i: nat | i < |steps| && SucceedsAt(s, steps, fs, i)
  }

  ghost function Registered(steps: seq<Step>, done: set<nat>): set<nat> { set i <- done | i < |steps| && steps[i].Register? }

  ghost function Updated(steps: seq<Step>, done: set<nat>): set<nat> { set i <- done | i < |steps| && steps[i].Update? }

  ghost function Unregistered(steps: seq<Step>, done: set<nat>): set<nat> { set i <- done | i < |steps| && steps[i].Unregister? }

  /** The counters of a run: of the steps of each kind those that do not throw, and those
      that do. */
  ghost predicate Counts(t: Tally, steps: seq<Step>, done: set<nat>) {
    && t.registered == |Registered(steps, done)| && t.updated == |Updated(steps, done)|
    && t.unregistered == |Unregistered(steps, done)| && t.errors == |steps| - |done|
  }

  lemma CountsNone(s: Store)
    ensures Counts(Tally(0, 0, 0, 0), [], Succeeding(s, [], []))
  {
    assert Succeeding(s, [], []) == {};
  }

  ghost predicate SucceedsAt(s: Store, steps: seq<Step>, fs: seq<Fault>, i: nat)
    requires |fs| == |steps|
  {
    i < |steps| && Exec(Run(s, steps[..i], fs[..i]), steps[i], fs[i]).1
  }

  lemma SucceedingSnoc(s: Store, steps: seq<Step>, fs: seq<Fault>)
    requires |fs| == |steps| && steps != []
    ensures var n := |steps| - 1;
      Succeeding(s, steps, fs)
      == Succeeding(s, Init(steps), Init(fs)) + if Exec(Run(s, Init(steps), Init(fs)), Last(steps), Last(fs)).1 then {n} else {}
  {
    var n := |steps| - 1;
    forall i: nat | i < n
      ensures SucceedsAt(s, steps, fs, i) <==> SucceedsAt(s, Init(steps), Init(fs), i)
    {
      assert steps[..i] == Init(steps)[..i] && fs[..i] == Init(fs)[..i];
    }
    assert SucceedsAt(s, steps, fs, n) <==> Exec(Run(s, Init(steps), Init(fs)), Last(steps), Last(fs)).1 by {
      assert steps[..n] == Init(steps) && fs[..n] == Init(fs);
    }
    hide SucceedsAt, Exec, Run;
  }

  lemma SucceedingWithin(s: Store, steps: seq<Step>, fs: seq<Fault>)
    requires |fs| == |steps|
    ensures forall i <- Succeeding(s, steps, fs) :: i < |steps|
  {}

  lemma CountsSnoc(t: Tally, steps: seq<Step>, done: set<nat>, step: Step, ok: bool)
    requires Counts(t, steps, done) && forall i <- done :: i < |steps|
    ensures Counts(
      if !ok then t.(errors := t.errors + 1)
      else match step
        case Register(_) => t.(registered := t.registered + 1)
        case Update(_) => t.(updated := t.updated + 1)
        case Unregister(_) => t.(unregistered := t.unregistered + 1),
      steps + [step], done + if ok then {|steps|} else {})
  {
    KindsSnoc(steps, done, step, ok);
    assert |steps| !in done;
    OneMoreIn(Registered(steps, done), done, |steps|);
    OneMoreIn(Updated(steps, done), done, |steps|);
    OneMoreIn(Unregistered(steps, done), done, |steps|);
    OneMoreIn(done, done, |steps|);
    hide Registered, Updated, Unregistered;
  }

  lemma OneMoreIn(some: set<nat>, all: set<nat>, n: nat)
    requires some <= all && n !in all
    ensures |some + {n}| == |some| + 1 && |some + {}| == |some|
  {
    assert some + {} == some;
  }

  lemma KindsSnoc(steps: seq<Step>, done: set<nat>, step: Step, ok: bool)
    requires forall i <- done :: i < |steps|
    ensures var (longer, now, n) := (steps + [step], done + (if ok then {|steps|} else {}), |steps|);
      && Registered(longer, now) == Registered(steps, done) + (if ok && step.Register? then {n} else {})
      && Updated(longer, now) == Updated(steps, done) + (if ok && step.Update? then {n} else {})
      && Unregistered(longer, now) == Unregistered(steps, done) + (if ok && step.Unregister? then {n} else {})
  {
    var longer := steps + [step];
    assert longer[|steps|] == step && forall i <- done :: longer[i] == steps[i];
  }

  // ------------------------------------------------------------------ the object

  datatype Tally = Tally(registered: nat, updated: nat, unregistered: nat, errors: nat)

  class SensorConfigManager {
    var targetSensors: Option<seq<Device>>
    var targetOther: map<Text, Text>
    var currentSensors: Option<seq<Device>>
    var currentOther: map<Text, Text>
    var table: map<Text, Row>

    constructor (table: map<Text, Row>)
      ensures Contents() == Store(None, table) && currentOther == map[]
      ensures targetSensors == None && targetOther == map[]
    {
      targetSensors, targetOther, currentSensors, currentOther := None, map[], None, map[];
      this.table := table;
    }

    function Contents(): Store
      reads this
    {
      Store(currentSensors, table)
    }

    method CalculateSteps() returns (steps: seq<Step>)
      ensures steps == Plan(currentSensors.GetOr([]), targetSensors.GetOr([]))
    {
      var target, current := targetSensors.GetOr([]), currentSensors.GetOr([]);
      var wanted, present := IdsOf(target), IdsOf(current);
      steps := [];
      for i := 0 to |target|
        invariant steps == Registers(target[..i], present)
      {
        assert Init(target[..i + 1]) == target[..i];
        if target[i].id !in present { steps := steps + [Register(target[i])]; }
      }
      assert target[..|target|] == target;
      ghost var first := steps;
      for i := 0 to |current|
        invariant steps == first + Unregisters(current[..i], wanted)
      {
        assert Init(current[..i + 1]) == current[..i];
        if current[i].id !in wanted { steps := steps + [Unregister(current[i].id)]; }
      }
      assert current[..|current|] == current;
      ghost var second := steps;
      for i := 0 to |target|
        invariant steps == second + Updates(target[..i], current)
      {
        assert Init(target[..i + 1]) == target[..i];
        var found := Lookup(current, target[i].id);
        if found.Some? && found.value != target[i] { steps := steps + [Update(target[i])]; }
      }
    }

    method RegisterDevice(d: Device, f: Fault) returns (ok: bool)
      modifies this`table, this`currentSensors
      ensures (Contents(), ok) == ExecRegister(old(Contents()), d, f)
    {
      if f == Rejected || d.name in table {
        return false;
      }
      table := table[d.name := Normalise(d)];
      if f == FailsLate {
        return false;
      }
      if currentSensors.None? { currentSensors := Some([]); }
      currentSensors := Some(currentSensors.value + [d]);
      return true;
    }

    method UpdateDevice(d: Device, f: Fault) returns (ok: bool)
      modifies this`table, this`currentSensors
      ensures (Contents(), ok) == ExecUpdate(old(Contents()), d, f)
    {
      if f == Rejected {
        return false;
      }
      table := table[d.name := Normalise(d)];
      if f == FailsLate {
        return false;
      }
      if currentSensors.None? { currentSensors := Some([]); }
      var index := IndexOf(currentSensors.value, d.id);
      if index != -1 { currentSensors := Some(currentSensors.value[index := d]); }
      return true;
    }

    method UnregisterDevice(id: Text, f: Fault) returns (ok: bool)
      requires id != ""
      modifies this`table, this`currentSensors
      ensures (Contents(), ok) == ExecUnregister(old(Contents()), id, f)
    {
      var index := IndexOf(currentSensors.GetOr([]), id);
      if index >= 0 {
        if f == Rejected {
          return false;
        }
        table := table - {currentSensors.value[index].name};
        if f == FailsLate {
          return false;
        }
      }
      if currentSensors.Some? { currentSensors := Some(WithoutDevice(currentSensors.value, id)); }
      return true;
    }

    method ExecuteStep(step: Step, f: Fault) returns (ok: bool)
      modifies this`table, this`currentSensors
      ensures (Contents(), ok) == Exec(old(Contents()), step, f)
    {
      ok := true;
      match step
      case Register(d) => ok := RegisterDevice(d, f);
      case Update(d) => ok := UpdateDevice(d, f);
      case Unregister(id) => if id != "" { ok := UnregisterDevice(id, f); }
    }

    /** Copies the non-sensor fields, then executes the plan past all failures. */
    method Reconcile(faults: nat -> Fault) returns (tally: Tally, ghost fs: seq<Fault>)
      modifies this
      ensures targetSensors == old(targetSensors) && targetOther == old(targetOther)
      ensures currentOther == old(currentOther) + targetOther
      ensures |fs| == |Plan(old(Contents()).Devices(), targetSensors.GetOr([]))|
      ensures Contents() == Run(old(Contents()), Plan(old(Contents()).Devices(), targetSensors.GetOr([])), fs)
      ensures var plan := Plan(old(Contents()).Devices(), targetSensors.GetOr([]));
        && Counts(tally, plan, Succeeding(old(Contents()), plan, fs))
        && tally.errors == |Failed(old(Contents()), plan, fs)|
    {
      hide Exec, ExecRegister, ExecUpdate, ExecUnregister, Plan, Counts, Succeeding;
      currentOther := currentOther + targetOther;
      ghost var start := Contents();
      var steps := CalculateSteps();
      fs := [];
      tally := Tally(0, 0, 0, 0);
      CountsNone(start);
      for n := 0 to |steps|
        invariant targetSensors == old(targetSensors) && targetOther == old(targetOther)
        invariant currentOther == old(currentOther) + targetOther
        invariant |fs| == n && Contents() == Run(start, steps[..n], fs)
        invariant Counts(tally, steps[..n], Succeeding(start, steps[..n], fs))
        invariant tally.errors == |Failed(start, steps[..n], fs)|
      {
        ghost var done, faced := steps[..n + 1], fs + [faults(n)];
        assert Init(done) == steps[..n] && Last(done) == steps[n];
        assert Init(faced) == fs && Last(faced) == faults(n);
        SucceedingSnoc(start, done, faced);
        SucceedingWithin(start, steps[..n], fs);
        ghost var before := Succeeding(start, steps[..n], fs);
        ghost var counted := tally;
        var ok := ExecuteStep(steps[n], faults(n));
        CountsSnoc(counted, steps[..n], before, steps[n], ok);
        assert done == steps[..n] + [steps[n]];
        fs := faced;
        if !ok {
          tally := tally.(errors := tally.errors + 1);
        } else {
          match steps[n]
          case Register(_) => tally := tally.(registered := tally.registered + 1);
          case Update(_) => tally := tally.(updated := tally.updated + 1);
          case Unregister(_) => tally := tally.(unregistered := tally.unregistered + 1);
        }
      }
      assert steps[..|steps|] == steps;
    }
  }
}
