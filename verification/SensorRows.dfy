/** What the rows of the sensor table hold of the devices they were written for. */
module SensorRows {
  import opened Basics
  import opened Sensors
  import opened SensorPlans
  import opened SensorTable

  /** The text of a connection string that is there and not empty. */
  ghost predicate HasText(d: Device, text: Text) {
    d.address.Some? && d.address.value.text == text && text != ""
  }

  /** Host and port of a connection string that parses, port 502 by default; the text
      of one that does not; or else the object given, if any. */
  ghost predicate ConnectsTo(c: map<Text, Text>, d: Device) {
    match d.address
    case Some(Address(text, url)) =>
      if text == "" then c == d.connection.GetOr(map[])
      else if url.None? then c.Keys == {"connectionString"} && c["connectionString"] == text
      else
        && c.Keys == {"host", "port"} && c["host"] == url.value.0
        && c["port"] == if url.value.1 == 0 then "502" else Decimal(url.value.1)
    case None => if d.connection.Some? then c == d.connection.value else c == map[]
  }

  /** The row holds the device: enabled unless it says no, polled as it says or every
      five seconds, with its data points or else its registers, and with the unit id
      of a modbus device as its slave id. */
  ghost predicate StoredAs(r: Row, d: Device) {
    && r.protocol == d.protocol
    && (r.enabled <==> d.enabled != Some(false))
    && (r.pollInterval == 5000 || (d.pollInterval.Some? && d.pollInterval.value != 0))
    && (d.pollInterval.Some? && d.pollInterval.value != 0 ==> r.pollInterval == d.pollInterval.value)
    && ConnectsTo(r.connection, d)
    && (d.dataPoints.Some? ==> r.dataPoints == d.dataPoints.value)
    && (d.dataPoints.None? && d.registers.Some? ==> r.dataPoints == d.registers.value)
    && (d.dataPoints.None? && d.registers.None? ==> r.dataPoints == [])
    && r.metadata.Keys <= {"slaveId"}
    && ("slaveId" in r.metadata <==> d.protocol == "modbus" && "unitId" in r.connection)
    && ("slaveId" in r.metadata ==> r.metadata["slaveId"] == r.connection["unitId"])
  }

  lemma NormaliseMeans(d: Device)
    ensures StoredAs(Normalise(d), d)
  {
    assert Decimal(502) == "502" by {
      assert Decimal(50) == Decimal(5) + [DigitChar(0)];
      assert Decimal(502) == Decimal(50) + [DigitChar(2)];
    }
  }

  /** A registration that meets no fault, under a free name, stores the device and
      lists it; every other row is as it was. */
  lemma RegisterStores(s: Store, d: Device)
    requires d.name !in s.table
    ensures var (after, ok) := Exec(s, Register(d), Fine);
      && ok && after.Devices() == s.Devices() + [d]
      && after.table.Keys == s.table.Keys + {d.name} && StoredAs(after.table[d.name], d)
      && forall n <- s.table :: after.table[n] == s.table[n]
  {
    NormaliseMeans(d);
    hide Normalise, StoredAs;
  }

  /** An update that meets no fault stores the device, whether or not it had a row, and
      lists it in place of the first device with its id. */
  lemma UpdateStores(s: Store, d: Device)
    ensures var (after, ok) := Exec(s, Update(d), Fine);
      && ok && |after.Devices()| == |s.Devices()|
      && (forall i | 0 <= i < |s.Devices()| ::
           after.Devices()[i] == if s.Devices()[i].id == d.id && (forall j | 0 <= j < i :: s.Devices()[j].id != d.id)
                                 then d else s.Devices()[i])
      && after.table.Keys == s.table.Keys + {d.name} && StoredAs(after.table[d.name], d)
      && forall n <- s.table :: n != d.name ==> after.table[n] == s.table[n]
  {
    NormaliseMeans(d);
    var i := IndexOf(s.Devices(), d.id);
    if i < 0 { assert forall e <- s.Devices() :: e.id != d.id; }
    hide Normalise, StoredAs;
  }

  /** An unregistration that meets no fault deletes the row of the first device with
      the id, by its name, and lists no device with the id any more. */
  lemma UnregisterDeletes(s: Store, id: Text)
    requires id != ""
    ensures var (after, ok) := Exec(s, Unregister(id), Fine);
      && ok && (forall d :: d in after.Devices() <==> d in s.Devices() && d.id != id)
      && (id !in IdsOf(s.Devices()) ==> after.table == s.table)
      && forall i | 0 <= i < |s.Devices()| && s.Devices()[i].id == id && (forall j | 0 <= j < i :: s.Devices()[j].id != id) ::
           after.table == s.table - {s.Devices()[i].name}
  {}

  /** After a reconcile without faults in which no step fails, every target device is
      stored under its name, if those listed before were. */
  lemma SettledIsStored(s: Store, target: seq<Device>, fs: seq<Fault>)
    requires UniqueIds(s.Devices()) && UniqueIds(target) && OneToOne(s.Devices(), target) && Backed(s)
    requires "" !in IdsOf(s.Devices()) || "" in IdsOf(target)
    requires |fs| == |Plan(s.Devices(), target)| && forall f <- fs :: f == Fine
    requires Failed(s, Plan(s.Devices(), target), fs) == []
    ensures var after := Run(s, Plan(s.Devices(), target), fs);
      forall d <- target :: d.name in after.table && StoredAs(after.table[d.name], d)
  {
    hide Plan, Failed, Normalise, StoredAs, Exec, UniqueIds, OneToOne;
    var plan := Plan(s.Devices(), target);
    SettledWhenNothingFails(s, target, fs);
    RunKeepsBackedIff(s, target, plan, fs, |plan|);
    assert plan[..|plan|] == plan && fs[..|plan|] == fs;
    assert forall i | 0 <= i < |fs| :: fs[i] in fs;
    assert Backed(Run(s, plan[..|plan|], fs[..|plan|]));
    forall d | d in target
      ensures d.name in Run(s, plan, fs).table && StoredAs(Run(s, plan, fs).table[d.name], d)
    {
      NormaliseMeans(d);
      assert d in Run(s, plan, fs).Devices();
    }
  }
}
