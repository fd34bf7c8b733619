/** Networks between a compose file and the engine (agent/src/compose/network.ts,
    network-manager.ts): what is created, what is read back, and whether creating
    the same network again is recognised as having nothing to do. */
module NetworkRoundTrip {
  import opened Basics
  import opened Names

  datatype LabelValue = Words(text: Text) | Flag(yes: bool) | Count(n: nat)

  /** `String(value)` */
  function Written(v: LabelValue): Text {
    match v
    case Words(text) => text
    case Flag(yes) => if yes then "true" else "false"
    case Count(n) => Decimal(n)
  }

  function NormaliseLabels(labels: map<Text, LabelValue>): map<Text, Text> {
    map k | k in labels :: Written(labels[k])
  }

  const Managed := "iotistic.managed"
  const AppId := "iotistic.app-id"
  const IpamConfig := "iotistic.ipam.config"

  /** One address range: in a compose file, in the agent, or at the engine. */
  datatype Range = Range(subnet: Option<Text>, gateway: Option<Text>, ipRange: Option<Text>, aux: Option<Text>)

  /** `...(field && { field })`: an empty text is dropped like a missing one. */
  function Kept(field: Option<Text>): Option<Text> {
    if field == Some("") then None else field
  }

  function KeptRange(r: Range): Range {
    Range(Kept(r.subnet), Kept(r.gateway), Kept(r.ipRange), Kept(r.aux))
  }

  function KeptRanges(rs: seq<Range>): seq<Range> {
    seq(|rs|, i requires 0 <= i < |rs| => KeptRange(rs[i]))
  }

  datatype Ipam = Ipam(driver: Text, config: seq<Range>, options: map<Text, Text>)

  datatype NetworkConfig = NetworkConfig(
    driver: Text,
    ipam: Ipam,
    enableIPv6: bool,
    internal: bool,
    labels: map<Text, Text>,
    options: map<Text, Text>,
    configOnly: bool)

  datatype Network = Network(name: Text, appId: int, appUuid: Option<Text>, config: NetworkConfig)

  datatype ComposeIpam = ComposeIpam(driver: Option<Text>, config: Option<seq<Range>>, options: Option<map<Text, Text>>)

  datatype ComposeNetwork = ComposeNetwork(
    driver: Option<Text>,
    driverOpts: Option<map<Text, Text>>,
    enableIPv6: Option<bool>,
    internal: Option<bool>,
    ipam: Option<ComposeIpam>,
    labels: Option<map<Text, LabelValue>>,
    configOnly: Option<bool>)

  /** A network as the engine is asked for it and as it inspects. */
  datatype Inspect = Inspect(
    name: Text,
    driver: Text,
    ipam: Option<Ipam>,
    enableIPv6: bool,
    internal: bool,
    labels: Option<map<Text, Text>>,
    options: Option<map<Text, Text>>,
    configOnly: bool)

  datatype Error = InvalidNetworkName | NoAppId | RecreationAttempt

  datatype Result<T> = Ok(value: T) | Err(error: Error)

  // ---------------------------------------------------------------- conversions

  function FromCompose(name: Text, appId: nat, appUuid: Text, c: ComposeNetwork): Network {
    var ipam := c.ipam.GetOr(ComposeIpam(None, None, None));
    var config := KeptRanges(ipam.config.GetOr([]));
    var labels := map[AppId := Decimal(appId)] + NormaliseLabels(c.labels.GetOr(map[]));
    Network(name, appId, Some(appUuid), NetworkConfig(
      OrText(c.driver, "bridge"),
      Ipam(ipam.driver.GetOr("default"), config, ipam.options.GetOr(map[])),
      c.enableIPv6.GetOr(false),
      c.internal.GetOr(false),
      if |config| > 0 then labels[IpamConfig := "true"] else labels,
      c.driverOpts.GetOr(map[]),
      c.configOnly.GetOr(false)))
  }

  function ToDocker(n: Network): Inspect {
    var c := n.config;
    Inspect(
      DockerName(n.appUuid.GetOr("undefined"), n.name),
      c.driver,
      Some(Ipam(c.ipam.driver, KeptRanges(c.ipam.config), c.ipam.options)),
      c.enableIPv6, c.internal,
      Some(map[Managed := "true"] + c.labels),
      Some(c.options),
      c.configOnly)
  }

  function LabelledAppId(labels: map<Text, Text>): Option<int> {
    if AppId in labels then ParseInt(labels[AppId]) else None
  }

  function FromDocker(d: Inspect): Result<Network> {
    var labels := d.labels.GetOr(map[]);
    var known := LabelledAppId(labels);
    var parts := DeconstructNetwork(d.name, known);
    if parts.None? then Err(InvalidNetworkName)
    else if (parts.value.appId.None? || parts.value.appId.value == 0) && known.None? then Err(NoAppId)
    else
      var appId := if parts.value.appId.Some? then parts.value.appId.value else known.value;
      var ipam := d.ipam.GetOr(Ipam("default", [], map[]));
      Ok(Network(parts.value.name, appId, parts.value.appUuid, NetworkConfig(
        d.driver,
        Ipam(ipam.driver, KeptRanges(ipam.config), ipam.options),
        d.enableIPv6, d.internal,
        labels - {Managed},
        d.options.GetOr(map[]),
        d.configOnly)))
  }

  /** `mine.isEqualConfig(other)`: the address ranges are ignored if the other has
      none, and the driver if the other is config-only; the second exemption starts
      from a fresh copy and so undoes the first. */
  function IsEqualConfig(mine: NetworkConfig, other: NetworkConfig): bool {
    var first := if other.ipam.config == [] then mine.(ipam := mine.ipam.(config := [])) else mine;
    var second := if other.configOnly then mine.(driver := other.driver) else first;
    second == other
  }

  // ------------------------------------------------------------------ the engine

  /** What an engine reports of a network it was asked for: everything as asked,
      except that it chooses address ranges where none were given and reports its
      own driver for a config-only network. */
  function Reported(asked: Inspect, chosen: seq<Range>, nullDriver: Text): Inspect {
    var ipam := asked.ipam.GetOr(Ipam("default", [], map[]));
    asked.(
      driver := if asked.configOnly then nullDriver else asked.driver,
      ipam := Some(ipam.(config := if ipam.config == [] then chosen else ipam.config)))
  }

  datatype Engine = Engine(networks: map<Text, Inspect>, chosen: seq<Range>, nullDriver: Text)

  /** `networkManager.create`: an existing network of the same name must have an
      equal config; a missing one is created. */
  function Create(e: Engine, n: Network): (Engine, Result<()>) {
    var name := DockerName(n.appUuid.GetOr("undefined"), n.name);
    if name !in e.networks then
      (e.(networks := e.networks[name := Reported(ToDocker(n), e.chosen, e.nullDriver)]), Ok(()))
    else
      match FromDocker(e.networks[name])
      case Err(error) => (e, Err(error))
      case Ok(existing) =>
        if IsEqualConfig(n.config, existing.config) then (e, Ok(())) else (e, Err(RecreationAttempt))
  }

  // ------------------------------------------------------------- what is asked for

  ghost predicate SameField(got: Option<Text>, given: Option<Text>) {
    got == if given.Some? && given.value != "" then given else None
  }

  /** The ranges as given, with empty fields left out. */
  ghost predicate AsGiven(got: seq<Range>, given: seq<Range>) {
    && |got| == |given|
    && forall i | 0 <= i < |got| ::
      && SameField(got[i].subnet, given[i].subnet) && SameField(got[i].gateway, given[i].gateway)
      && SameField(got[i].ipRange, given[i].ipRange) && SameField(got[i].aux, given[i].aux)
  }

  /** The user's labels over the app id, a mark where there are ranges, and the managed
      label unless the user has it. */
  ghost function LabelFor(k: Text, appId: nat, c: ComposeNetwork): Option<Text> {
    if k == "iotistic.ipam.config" && c.ipam.Some? && c.ipam.value.config.Some? && c.ipam.value.config.value != [] then Some("true")
    else if c.labels.Some? && k in c.labels.value then
      match c.labels.value[k]
      case Words(text) => Some(text)
      case Flag(yes) => Some(if yes then "true" else "false")
      case Count(n) => Some(Decimal(n))
    else if k == "iotistic.app-id" then Some(Decimal(appId))
    else if k == "iotistic.managed" then Some("true")
    else None
  }

  ghost predicate LabelsFor(got: map<Text, Text>, appId: nat, c: ComposeNetwork) {
    forall k :: (if k in got then Some(got[k]) else None) == LabelFor(k, appId, c)
  }

  /** What the engine is asked to create for a compose object, option by option. */
  lemma AsksFor(name: Text, appId: nat, appUuid: Text, c: ComposeNetwork)
    ensures var d := ToDocker(FromCompose(name, appId, appUuid, c));
      && d.name == appUuid + "_" + name
      && d.driver == (if c.driver.Some? && c.driver.value != "" then c.driver.value else "bridge")
      && (d.enableIPv6 <==> c.enableIPv6 == Some(true))
      && (d.internal <==> c.internal == Some(true))
      && (d.configOnly <==> c.configOnly == Some(true))
      && d.options == Some(if c.driverOpts.Some? then c.driverOpts.value else map[])
      && d.labels.Some? && LabelsFor(d.labels.value, appId, c)
      && d.ipam.Some?
      && if c.ipam.None? then d.ipam.value == Ipam("default", [], map[])
         else
           && d.ipam.value.driver == (if c.ipam.value.driver.Some? then c.ipam.value.driver.value else "default")
           && AsGiven(d.ipam.value.config, if c.ipam.value.config.Some? then c.ipam.value.config.value else [])
           && d.ipam.value.options == (if c.ipam.value.options.Some? then c.ipam.value.options.value else map[])
  {
    LabelsAsked(name, appId, appUuid, c);
    if c.ipam.None? { assert KeptRanges(KeptRanges([])) == []; }
    hide LabelsFor, NormaliseLabels;
  }

  lemma LabelsAsked(name: Text, appId: nat, appUuid: Text, c: ComposeNetwork)
    ensures var d := ToDocker(FromCompose(name, appId, appUuid, c));
      d.labels.Some? && LabelsFor(d.labels.value, appId, c)
  {
    var ranges := c.ipam.GetOr(ComposeIpam(None, None, None)).config.GetOr([]);
    assert |KeptRanges(ranges)| == |ranges|;
  }

  // ---------------------------------------------------------------- round trips

  lemma KeptOnce(rs: seq<Range>)
    ensures KeptRanges(KeptRanges(rs)) == KeptRanges(rs)
  {}

  /** The user's labels neither hide the app id from the reader... */
  ghost predicate AppIdLegible(appUuid: Text, labels: map<Text, LabelValue>) {
    (Digits(appUuid) && ParseInt(appUuid) != Some(0)) || AppId !in labels || ParseInt(Written(labels[AppId])).Some?
  }

  /** ...nor use the label the agent strips. */
  ghost predicate LeavesManagedAlone(labels: map<Text, LabelValue>) { Managed !in labels }

  function LabelsOf(c: ComposeNetwork): map<Text, LabelValue> { c.labels.GetOr(map[]) }

  /** What the agent reads back from an engine, for any network it can parse. */
  lemma ReadBackConfig(name: Text, appId: nat, appUuid: Text, c: ComposeNetwork, chosen: seq<Range>, nullDriver: Text)
    requires var d := Reported(ToDocker(FromCompose(name, appId, appUuid, c)), chosen, nullDriver);
      FromDocker(d).Ok?
    ensures var mine := FromCompose(name, appId, appUuid, c).config;
      FromDocker(Reported(ToDocker(FromCompose(name, appId, appUuid, c)), chosen, nullDriver)).value.config
      == mine.(
        driver := if mine.configOnly then nullDriver else mine.driver,
        ipam := mine.ipam.(config := if mine.ipam.config == [] then KeptRanges(chosen) else mine.ipam.config),
        labels := mine.labels - {Managed})
  {
    hide DeconstructNetwork, ParseInt;
    var n := FromCompose(name, appId, appUuid, c);
    KeptOnce(c.ipam.GetOr(ComposeIpam(None, None, None)).config.GetOr([]));
    assert (map[Managed := "true"] + n.config.labels) - {Managed} == n.config.labels - {Managed};
  }

  /** When the network can be read back at all, and under which name and ids. */
  lemma ReadableIff(name: Text, appId: nat, appUuid: Text, c: ComposeNetwork, chosen: seq<Range>, nullDriver: Text)
    requires Spaceless(name) && Readable(appUuid)
    ensures var read := FromDocker(Reported(ToDocker(FromCompose(name, appId, appUuid, c)), chosen, nullDriver));
      && (read.Ok? <==> AppIdLegible(appUuid, LabelsOf(c)))
      && (AppId !in LabelsOf(c) ==>
          read.Ok? && read.value.name == name && read.value.appId == appId && read.value.appUuid == Some(appUuid))
  {
    var d := Reported(ToDocker(FromCompose(name, appId, appUuid, c)), chosen, nullDriver);
    CreatedHeader(name, appId, appUuid, c, chosen, nullDriver);
    var known := LabelledAppId(d.labels.value);
    FromDockerHeader(d);
    assert AppIdLegible(appUuid, LabelsOf(c)) <==> (Digits(appUuid) && ParseInt(appUuid) != Some(0)) || known.Some?;
    hide *;
    if known.Some? {
      NetworkNameRoundTripIff(appUuid, name, known.value);
      KnownIdIsKept(d.name, known.value);
    } else {
      UnlabelledIff(appUuid, name);
      if Digits(appUuid) { DigitsParse(appUuid); }
    }
  }

  lemma FromDockerHeader(d: Inspect)
    ensures var known := LabelledAppId(d.labels.GetOr(map[]));
      var parts, read := DeconstructNetwork(d.name, known), FromDocker(d);
      && (read.Ok? <==> parts.Some? && (known.Some? || (parts.value.appId.Some? && parts.value.appId.value != 0)))
      && (read.Ok? ==>
        && read.value.name == parts.value.name && read.value.appUuid == parts.value.appUuid
        && Some(read.value.appId) == if parts.value.appId.Some? then parts.value.appId else known)
  {
    hide DeconstructNetwork, LabelledAppId, KeptRanges;
  }

  lemma CreatedHeader(name: Text, appId: nat, appUuid: Text, c: ComposeNetwork, chosen: seq<Range>, nullDriver: Text)
    ensures var d := Reported(ToDocker(FromCompose(name, appId, appUuid, c)), chosen, nullDriver);
      && d.name == DockerName(appUuid, name)
      && d.labels.Some?
      && LabelledAppId(d.labels.value)
         == if AppId in LabelsOf(c) then ParseInt(Written(LabelsOf(c)[AppId])) else Some(appId)
  {
    ParsesDecimal(appId);
    hide ParseInt;
  }

  lemma KnownIdIsKept(docker: Text, known: int)
    ensures var read := DeconstructNetwork(docker, Some(known));
      read.Some? && read.value.appId.Some? ==> read.value.appId.value == known
  {}

  /** Without a legible label only an all-digit owner yields an app id. */
  lemma UnlabelledIff(owner: Text, name: Text)
    requires Readable(owner) && Spaceless(name)
    ensures var read := DeconstructNetwork(DockerName(owner, name), None);
      read.Some? && read.value.appId == if Digits(owner) then ParseInt(owner) else None
  {
    NetworkNameRoundTripIff(owner, name, 0);
    assert name[0] in name;
    MatchOfDockerName(owner, name, IsDigit, 1);
    MatchOfDockerName(owner, name, IsHex, 32);
  }

  /** Creating a network that the engine already has from the same compose object
      is recognised as nothing to do exactly when its labels leave the agent's own
      ones legible and the engine did not choose address ranges itself. */
  lemma SecondCreateIsNoOpIff(e: Engine, name: Text, appId: nat, appUuid: Text, c: ComposeNetwork)
    requires Spaceless(name) && Readable(appUuid) && DockerName(appUuid, name) !in e.networks
    ensures var n := FromCompose(name, appId, appUuid, c);
      var (once, first) := Create(e, n);
      first.Ok? && (Create(once, n) == (once, Ok(()))
        <==> && AppIdLegible(appUuid, LabelsOf(c))
             && LeavesManagedAlone(LabelsOf(c))
             && (n.config.ipam.config != [] || e.chosen == []))
  {
    var n := FromCompose(name, appId, appUuid, c);
    var d := Reported(ToDocker(n), e.chosen, e.nullDriver);
    ReadableIff(name, appId, appUuid, c, e.chosen, e.nullDriver);
    assert d.name == DockerName(appUuid, name);
    if FromDocker(d).Ok? {
      ReadBackConfig(name, appId, appUuid, c, e.chosen, e.nullDriver);
      SameLabelsIff(appId, c);
      EqualIff(n.config, FromDocker(d).value.config, e.chosen, e.nullDriver);
    }
  }

  lemma SameLabelsIff(appId: nat, c: ComposeNetwork)
    ensures forall name, appUuid ::
      var labels := FromCompose(name, appId, appUuid, c).config.labels;
      labels == labels - {Managed} <==> LeavesManagedAlone(LabelsOf(c))
  {
    forall name, appUuid
      ensures var labels := FromCompose(name, appId, appUuid, c).config.labels;
        labels == labels - {Managed} <==> LeavesManagedAlone(LabelsOf(c))
    {
      var labels := FromCompose(name, appId, appUuid, c).config.labels;
      assert Managed in labels <==> Managed in LabelsOf(c);
      assert Managed !in labels ==> labels == labels - {Managed};
    }
  }

  lemma EqualIff(mine: NetworkConfig, read: NetworkConfig, chosen: seq<Range>, nullDriver: Text)
    requires read == mine.(
      driver := if mine.configOnly then nullDriver else mine.driver,
      ipam := mine.ipam.(config := if mine.ipam.config == [] then KeptRanges(chosen) else mine.ipam.config),
      labels := mine.labels - {Managed})
    ensures IsEqualConfig(mine, read)
      <==> mine.labels == mine.labels - {Managed} && (mine.ipam.config != [] || chosen == [])
    ensures IsEqualConfig(read, mine)
      <==> mine.labels == mine.labels - {Managed} && (mine.ipam.config != [] || chosen == [] || !mine.configOnly)
  {
    assert chosen == [] <==> KeptRanges(chosen) == [] by { assert |KeptRanges(chosen)| == |chosen|; }
    var labels := mine.labels - {Managed};
    assert read.labels == labels;
  }

  /** Comparing the other way round, what is there against what is wanted, does
      forgive the ranges the engine chose, except for a config-only network. */
  lemma ExistingEqualsWantedIff(name: Text, appId: nat, appUuid: Text, c: ComposeNetwork, chosen: seq<Range>, nullDriver: Text)
    requires Spaceless(name) && Readable(appUuid) && AppIdLegible(appUuid, LabelsOf(c))
    ensures var n := FromCompose(name, appId, appUuid, c);
      var read := FromDocker(Reported(ToDocker(n), chosen, nullDriver));
      read.Ok? && (IsEqualConfig(read.value.config, n.config)
        <==> LeavesManagedAlone(LabelsOf(c)) && (n.config.ipam.config != [] || chosen == [] || !n.config.configOnly))
  {
    var n := FromCompose(name, appId, appUuid, c);
    ReadableIff(name, appId, appUuid, c, chosen, nullDriver);
    ReadBackConfig(name, appId, appUuid, c, chosen, nullDriver);
    SameLabelsIff(appId, c);
    EqualIff(n.config, FromDocker(Reported(ToDocker(n), chosen, nullDriver)).value.config, chosen, nullDriver);
  }

  /** When a network is taken for equal to another, field by field: address ranges count
      if the other has some, or is config-only; the driver if it is not. */
  lemma EqualConfigIff(mine: NetworkConfig, other: NetworkConfig)
    ensures IsEqualConfig(mine, other) <==>
      && mine.ipam.driver == other.ipam.driver && mine.ipam.options == other.ipam.options
      && mine.enableIPv6 == other.enableIPv6 && mine.internal == other.internal
      && mine.labels == other.labels && mine.options == other.options && mine.configOnly == other.configOnly
      && (other.configOnly || other.ipam.config != [] ==> mine.ipam.config == other.ipam.config)
      && (!other.configOnly ==> mine.driver == other.driver)
  {}

  /** Under the name of an existing network another compose object is accepted, without
      any effect, exactly if that network can be read and agrees with it field by field;
      otherwise creating it is an error. */
  lemma ExistingNetworkAcceptedIff(e: Engine, name: Text, appId: nat, appUuid: Text, c: ComposeNetwork, c': ComposeNetwork)
    requires Spaceless(name) && Readable(appUuid) && DockerName(appUuid, name) !in e.networks
    ensures var (had, wanted) := (FromCompose(name, appId, appUuid, c).config, FromCompose(name, appId, appUuid, c').config);
      var once := Create(e, FromCompose(name, appId, appUuid, c)).0;
      var (after, result) := Create(once, FromCompose(name, appId, appUuid, c'));
      var ranges := if had.ipam.config == [] then KeptRanges(e.chosen) else had.ipam.config;
      && after == once
      && (result.Ok? <==>
        && AppIdLegible(appUuid, LabelsOf(c))
        && wanted.ipam.driver == had.ipam.driver && wanted.ipam.options == had.ipam.options
        && wanted.enableIPv6 == had.enableIPv6 && wanted.internal == had.internal
        && wanted.labels == had.labels - {"iotistic.managed"}
        && wanted.options == had.options && wanted.configOnly == had.configOnly
        && (had.configOnly || ranges != [] ==> wanted.ipam.config == ranges)
        && (!had.configOnly ==> wanted.driver == had.driver))
  {
    var n, n' := FromCompose(name, appId, appUuid, c), FromCompose(name, appId, appUuid, c');
    var d := Reported(ToDocker(n), e.chosen, e.nullDriver);
    ReadableIff(name, appId, appUuid, c, e.chosen, e.nullDriver);
    assert d.name == DockerName(appUuid, name);
    if FromDocker(d).Ok? {
      ReadBackConfig(name, appId, appUuid, c, e.chosen, e.nullDriver);
      EqualConfigIff(n'.config, FromDocker(d).value.config);
    }
    hide FromDocker, IsEqualConfig, KeptRanges, AppIdLegible;
  }
}
