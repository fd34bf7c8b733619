/** Volumes between a compose file and the engine (agent/src/compose/volume.ts,
    volume-manager.ts). */
module VolumeRoundTrip {
  import opened Basics
  import opened Names
  import Net = NetworkRoundTrip

  datatype VolumeConfig = VolumeConfig(driver: Text, driverOpts: map<Text, Text>, labels: map<Text, Text>)

  datatype Volume = Volume(name: Text, appId: int, appUuid: Option<Text>, config: VolumeConfig)

  datatype ComposeVolume = ComposeVolume(
    driver: Option<Text>,
    driverOpts: Option<map<Text, Text>>,
    labels: Option<map<Text, Net.LabelValue>>)

  datatype Inspect = Inspect(name: Text, driver: Text, options: Option<map<Text, Text>>, labels: Option<map<Text, Text>>)

  const AppUuid := "iotistic.app-uuid"

  /** The labels a comparison of volumes leaves out. */
  const Omitted: set<Text> := {
    "io.resin.supervised", "io.balena.supervised", Net.Managed, "io.balena.app-uuid", AppUuid
  }

  function FromCompose(name: Text, appId: nat, appUuid: Text, c: ComposeVolume): Volume {
    var labels := Net.NormaliseLabels(c.labels.GetOr(map[])) + map[Net.Managed := "true"];
    Volume(name, appId, Some(appUuid), VolumeConfig(
      OrText(c.driver, "local"),
      c.driverOpts.GetOr(map[]),
      if appUuid != "" then labels[AppUuid := appUuid] else labels))
  }

  function ToDocker(v: Volume): Inspect
    requires v.appId >= 0
  {
    Inspect(DockerName(Decimal(v.appId), v.name), v.config.driver, Some(v.config.driverOpts), Some(v.config.labels))
  }

  /** `None` stands for the error of a name that does not match. */
  function FromDocker(d: Inspect): Option<Volume> {
    var labels, parts := d.labels.GetOr(map[]), DeconstructVolume(d.name);
    if parts.None? then None
    else Some(Volume(
      parts.value.name, parts.value.appId,
      if AppUuid in labels then Some(labels[AppUuid]) else None,
      VolumeConfig(d.driver, d.options.GetOr(map[]), labels)))
  }

  function IsEqualConfig(mine: VolumeConfig, other: VolumeConfig): bool {
    && mine.driver == other.driver
    && mine.driverOpts == other.driverOpts
    && mine.labels - Omitted == other.labels - Omitted
  }

  /** The user's labels under the managed label and the app uuid, if there is one. */
  ghost function LabelFor(k: Text, appUuid: Text, c: ComposeVolume): Option<Text> {
    if k == "iotistic.app-uuid" && appUuid != "" then Some(appUuid)
    else if k == "iotistic.managed" then Some("true")
    else if c.labels.Some? && k in c.labels.value then Some(Net.Written(c.labels.value[k]))
    else None
  }

  /** What the engine is asked to create for a compose object, option by option. */
  lemma AsksFor(name: Text, appId: nat, appUuid: Text, c: ComposeVolume)
    ensures var d := ToDocker(FromCompose(name, appId, appUuid, c));
      && d.name == Decimal(appId) + "_" + name
      && d.driver == (if c.driver.Some? && c.driver.value != "" then c.driver.value else "local")
      && d.options == Some(if c.driverOpts.Some? then c.driverOpts.value else map[])
      && d.labels.Some?
      && forall k :: (if k in d.labels.value then Some(d.labels.value[k]) else None) == LabelFor(k, appUuid, c)
  {}

  /** A volume with a space-free name comes back from the engine as it was, app
      uuid included unless that is empty. */
  lemma VolumeReadsBackIff(name: Text, appId: nat, appUuid: Text, c: ComposeVolume)
    requires appUuid != ""
    ensures FromDocker(ToDocker(FromCompose(name, appId, appUuid, c))) == Some(FromCompose(name, appId, appUuid, c))
      <==> Spaceless(name)
  {
    VolumeNameReadsBackIff(appId, name);
  }

  /** The volume a user wrote, before the agent's own labels. */
  function Wish(c: ComposeVolume): (Text, map<Text, Text>, map<Text, Text>) {
    (OrText(c.driver, "local"), c.driverOpts.GetOr(map[]), Net.NormaliseLabels(c.labels.GetOr(map[])) - Omitted)
  }

  /** Under the name of an existing volume, a wanted one is accepted exactly when
      the two compose objects ask for the same, whatever the app uuids; otherwise it
      is an attempt to recreate the volume. */
  lemma ExistingVolumeAcceptedIff(
    name: Text, appId: nat, appUuid: Text, c: ComposeVolume, appUuid': Text, c': ComposeVolume)
    requires name != "" && !IsSpace(name[0])
    ensures var existing := FromDocker(ToDocker(FromCompose(name, appId, appUuid, c)));
      existing.Some? && (IsEqualConfig(FromCompose(name, appId, appUuid', c').config, existing.value.config)
        <==> Wish(c) == Wish(c'))
  {
    VolumeNameReadsBackIff(appId, name);
    AgentLabelsOmitted(name, appId, appUuid, c);
    AgentLabelsOmitted(name, appId, appUuid', c');
  }

  lemma AgentLabelsOmitted(name: Text, appId: nat, appUuid: Text, c: ComposeVolume)
    ensures FromCompose(name, appId, appUuid, c).config.labels - Omitted == Wish(c).2
  {}
}
