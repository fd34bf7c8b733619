/** The entities the container manager works on, and what its comparisons of
    two service configurations mean. */
module Compose {
  import opened Basics

  type Cid = nat

  /** A service is named by its application and its id within it. */
  datatype Key = Key(app: nat, svc: nat)

  datatype Mode = Running | Stopped | Paused

  /** Docker's own words for a container's condition. */
  datatype Status = StRunning | StPaused | StExited

  function ModeOf(status: Status): Mode {
    match status
    case StRunning => Running
    case StPaused => Paused
    case StExited => Stopped
  }

  datatype Config = Config(
    ports: Option<seq<string>>,
    environment: Option<map<string, string>>,
    volumes: Option<seq<string>>,
    networks: Option<seq<string>>,
    networkMode: Option<string>,
    restart: Option<string>)
  {
    function Ports(): seq<string> { ports.GetOr([]) }
    function Env(): map<string, string> { environment.GetOr(map[]) }
    function Volumes(): seq<string> { volumes.GetOr([]) }
    function Networks(): seq<string> { networks.GetOr([]) }
  }

  datatype Service = Service(
    serviceId: nat,
    serviceName: string,
    imageName: string,
    appId: nat,
    appName: string,
    state: Option<Mode>,
    config: Config,
    containerId: Option<Cid>,
    status: Option<Status>)
  {
    function Desired(): Mode { state.GetOr(Running) }

    function ContainerName(): string {
      appName + "_" + serviceName + "_" + Decimal(serviceId)
    }
  }

  datatype App = App(appId: nat, appName: string, appUuid: Option<string>, services: seq<Service>)

  type Apps = map<nat, App>

  datatype AppStep =
    | DownloadImage(appId: nat, imageName: string)
    | CreateVolume(appId: nat, volumeName: string)
    | CreateNetwork(appId: nat, networkName: string)
    | StopContainer(appId: nat, serviceId: nat, containerId: Cid)
    | PauseContainer(appId: nat, serviceId: nat, containerId: Cid)
    | UnpauseContainer(appId: nat, serviceId: nat, containerId: Cid)
    | StartStoppedContainer(appId: nat, serviceId: nat, containerId: Cid)
    | RemoveContainer(appId: nat, serviceId: nat, containerId: Cid)
    | StartContainer(appId: nat, service: Service)
    | RemoveNetwork(appId: nat, networkName: string)
    | RemoveVolume(appId: nat, volumeName: string)

  // ------------------------------------------------ comparing configurations

  /** The current environment cut down to the variables the target defines. */
  function FilteredEnvironment(current: map<string, string>, target: map<string, string>): map<string, string> {
    map k | k in target && k in current :: current[k]
  }

  predicate ConfigChanged(current: Config, target: Config) {
    || current.Ports() != target.Ports()
    || FilteredEnvironment(current.Env(), target.Env()) != target.Env()
    || current.Volumes() != target.Volumes()
    || current.Networks() != target.Networks()
    || (target.restart.Some? && OrText(current.restart, "no") != OrText(target.restart, "no"))
    || (target.networkMode.Some? && OrText(current.networkMode, "bridge") != OrText(target.networkMode, "bridge"))
  }

  /** What a running service no longer shares with its target. */
  predicate Drifted(current: Service, target: Service) {
    current.imageName != target.imageName || ConfigChanged(current.config, target.config)
  }

  /** The environment test asks for a submap, not for equality. */
  lemma EnvironmentTestIsSubmap(current: map<string, string>, target: map<string, string>)
    ensures FilteredEnvironment(current, target) == target
       <==> forall k <- target :: k in current && current[k] == target[k]
  {
    var kept := FilteredEnvironment(current, target);
    if forall k <- target :: k in current && current[k] == target[k] {
      assert kept.Keys == target.Keys;
    } else {
      var k :| k in target && !(k in current && current[k] == target[k]);
      assert k !in kept || kept[k] != target[k];
    }
  }

  // -------------------------------------------------------- lists of services

  function Ids(services: seq<Service>): (ids: seq<nat>)
    ensures |ids| == |services|
    ensures forall i | 0 <= i < |services| :: ids[i] == services[i].serviceId
  {
    seq(|services|, i requires 0 <= i < |services| => services[i].serviceId)
  }

  /** `new Map(services.map(s => [s.serviceId, s])).get(id)`: the last entry wins. */
  function LastById(services: seq<Service>, id: nat): (found: Option<Service>)
    ensures found.Some? ==> found.value in services && found.value.serviceId == id
    ensures found.None? ==> id !in Ids(services)
  {
    if services == [] then None
    else if Last(services).serviceId == id then Some(Last(services))
    else LastById(Init(services), id)
  }

  /** The entries for one service id; at most one in every state of interest. */
  function WithId(services: seq<Service>, id: nat): (found: seq<Service>)
    ensures forall s :: s in found <==> s in services && s.serviceId == id
  {
    if services == [] then []
    else if Last(services).serviceId == id then WithId(Init(services), id) + [Last(services)]
    else WithId(Init(services), id)
  }

  /** `services.filter(s => s.serviceId !== id)` */
  function WithoutId(services: seq<Service>, id: nat): (kept: seq<Service>)
    ensures forall s :: s in kept <==> s in services && s.serviceId != id
  {
    if services == [] then []
    else if Last(services).serviceId == id then WithoutId(Init(services), id)
    else WithoutId(Init(services), id) + [Last(services)]
  }

  /** `services.find(s => s.serviceId === id)` with a state written to the entry found. */
  function WithState(services: seq<Service>, id: nat, state: Mode): seq<Service> {
    if services == [] then []
    else if services[0].serviceId == id then [services[0].(state := Some(state))] + services[1..]
    else [services[0]] + WithState(services[1..], id, state)
  }

  function ServicesOf(apps: Apps, a: nat): seq<Service> {
    if a in apps then apps[a].services else []
  }

  function Entries(apps: Apps, k: Key): seq<Service> {
    WithId(ServicesOf(apps, k.app), k.svc)
  }

  // ------------------------------------------------ what services refer to

  function NetworkNames(services: seq<Service>): seq<string> {
    if services == [] then [] else NetworkNames(Init(services)) + Last(services).config.Networks()
  }

  function BeforeColon(s: string): string {
    if s == "" || s[0] == ':' then "" else [s[0]] + BeforeColon(s[1..])
  }

  /** Named volumes of one service; entries that start with '/' are bind mounts. */
  function NamedVolumes(entries: seq<string>): seq<string> {
    if entries == [] then []
    else
      var e := Last(entries);
      NamedVolumes(Init(entries)) + (if e != "" && e[0] == '/' then [] else [BeforeColon(e)])
  }

  function VolumeNames(services: seq<Service>): seq<string> {
    if services == [] then [] else VolumeNames(Init(services)) + NamedVolumes(Last(services).config.Volumes())
  }
}
