/** Docker as the agent sees it: a finite world of containers, networks and
    volumes, and the calls docker-manager.ts makes on it, with the errors that
    file tolerates. An engine call either takes effect or fails without one. */
module Engine {
  import opened Basics
  import opened Compose
  import opened Ports

  /** A container carries its labels and the configuration Docker reports for it. */
  datatype Container = Container(
    key: Key,
    appName: string,
    serviceName: string,
    image: string,
    status: Status,
    config: Config)
  {
    function Name(): string {
      appName + "_" + serviceName + "_" + Decimal(key.svc)
    }
  }

  /** The Docker network `<owner>_<name>`; the owner is an app id or uuid. */
  datatype NetName = NetName(owner: string, name: string)

  /** Container ids are handed out in order from 1 and never reused. */
  datatype World = World(
    containers: map<Cid, Container>,
    networks: set<NetName>,
    volumes: set<string>,
    nextId: Cid)

  datatype Reply = Reply(world: World, ok: bool)

  predicate Active(c: Container) { c.status != StExited }

  function SetStatus(w: World, id: Cid, status: Status): World
    requires id in w.containers
  {
    w.(containers := w.containers[id := w.containers[id].(status := status)])
  }

  /** "Already stopped" (304) counts as success; an unknown id does not. */
  function StopOp(w: World, id: Cid): Reply {
    if id in w.containers then Reply(SetStatus(w, id, StExited), true) else Reply(w, false)
  }

  function PauseOp(w: World, id: Cid): Reply {
    if id in w.containers && w.containers[id].status == StRunning
    then Reply(SetStatus(w, id, StPaused), true)
    else Reply(w, false)
  }

  function UnpauseOp(w: World, id: Cid): Reply {
    if id in w.containers && w.containers[id].status == StPaused
    then Reply(SetStatus(w, id, StRunning), true)
    else Reply(w, false)
  }

  /** Not forced: a live container is refused; "already removed" (404) is success. */
  function RemoveOp(w: World, id: Cid): Reply {
    if id !in w.containers then Reply(w, true)
    else if Active(w.containers[id]) then Reply(w, false)
    else Reply(w.(containers := w.containers - {id}), true)
  }

  // ------------------------------------------------------ creating a container

  /** A mount is reported as source and destination; access modes are dropped. */
  function ReportedMount(entry: string): string {
    if ':' in entry then BeforeColon(entry) + ":" + AfterColon(entry) else ":" + entry
  }

  function ReportedMounts(entries: seq<string>): seq<string> {
    seq(|entries|, i requires 0 <= i < |entries| => ReportedMount(entries[i]))
  }

  /** Environment entries travel as `key=value` and are split at the first '='; the
      sync writes them to a plain object, where the key `__proto__` is lost. */
  function ReportedEnv(env: map<string, string>): map<string, string> {
    map k | k in env && Survives(k) :: env[k]
  }

  predicate Survives(variable: string) { variable != "" && '=' !in variable && variable != Proto }

  /** Joining a network that does not exist is logged and skipped. */
  function JoinedNetworks(a: nat, wanted: seq<string>, networks: set<NetName>): (joined: seq<string>)
    ensures forall n :: n in joined <==> n in wanted && NetName(Decimal(a), n) in networks
  {
    if wanted == [] then []
    else
      var earlier := JoinedNetworks(a, Init(wanted), networks);
      var n := Last(wanted);
      if NetName(Decimal(a), n) in networks && n !in earlier then earlier + [n] else earlier
  }

  // -------------------------------------------------------------- network modes

  function NetworkMode(c: Config): string { OrText(c.networkMode, "bridge") }

  /** The network namespace of the host or of another container, or none at all: no
      ports are published there and no network can be joined. */
  predicate SharesNamespace(mode: string) {
    mode == "host" || mode == "none" || StartsWith(mode, "container:")
  }

  /** A mode that is the Docker name of a network of app `a` attaches to it. */
  function OwnNetwork(a: nat, mode: string): Option<string> {
    var prefix := Decimal(a) + "_";
    if StartsWith(mode, prefix) then Some(mode[|prefix|..]) else None
  }

  /** The app's networks that a container started from `s` is attached to: through its
      mode, and by joining. */
  function Attached(s: Service, networks: set<NetName>): seq<string> {
    var mode := NetworkMode(s.config);
    var joined := JoinedNetworks(s.appId, s.config.Networks(), networks);
    if SharesNamespace(mode) then []
    else match OwnNetwork(s.appId, mode)
      case Some(n) => [n] + Without(joined, [n])
      case None => joined
  }

  function PublishedPorts(c: Config): seq<string> {
    if SharesNamespace(NetworkMode(c)) then [] else ReportedPorts(PortBindings(c.Ports()))
  }

  /** What a later inspection of a container started from `s` yields, on an
      engine that gives back what it was given. */
  function Report(s: Service, networks: set<NetName>): Config {
    Config(
      Some(PublishedPorts(s.config)),
      Some(ReportedEnv(s.config.Env())),
      Some(ReportedMounts(s.config.Volumes())),
      Some(Attached(s, networks)),
      Some(NetworkMode(s.config)),
      Some(OrText(s.config.restart, "unless-stopped")))
  }

  /** A container's mode is reported as it was, with the default filled in. */
  lemma ReportedMode(s: Service, networks: set<NetName>)
    ensures NetworkMode(Report(s, networks)) == NetworkMode(s.config)
  {
    hide PublishedPorts, ReportedEnv, ReportedMounts, Attached;
  }

  /** The modes without a namespace do not begin with a digit. */
  lemma OwnIsNoShared(a: nat, mode: string)
    ensures OwnNetwork(a, mode).Some? ==> !SharesNamespace(mode)
  {
    var prefix := Decimal(a) + "_";
    assert IsDigit(prefix[0]) by { assert Decimal(a)[0] in Decimal(a) && prefix[0] == Decimal(a)[0]; }
    StartsWithAt(mode, prefix, 0);
    StartsWithAt(mode, "container:", 0);
  }

  function NewContainer(s: Service, networks: set<NetName>): Container {
    Container(Key(s.appId, s.serviceId), s.appName, s.serviceName, s.imageName, StRunning, Report(s, networks))
  }

  predicate NameTaken(w: World, name: string) {
    exists id :: id in w.containers && w.containers[id].Name() == name
  }

  /** The engine can read the ports it is asked to publish, and publishes none for a
      container in the namespace of another. */
  predicate PortsTaken(s: Service) {
    var bindings := PortBindings(s.config.Ports());
    Readable(bindings) && (StartsWith(NetworkMode(s.config), "container:") ==> bindings == [])
  }

  /** The network of the app that the mode names is there. */
  predicate ModeThere(a: nat, mode: string, networks: set<NetName>) {
    OwnNetwork(a, mode).Some? ==> NetName(Decimal(a), OwnNetwork(a, mode).value) in networks
  }

  predicate Accepted(s: Service, networks: set<NetName>) {
    PortsTaken(s) && ModeThere(s.appId, NetworkMode(s.config), networks)
  }

  /** Create and start in one step; a name in use is a conflict, and what the engine
      does not accept is refused. Docker makes the named volumes a container
      mounts under the names it was given. */
  function StartOp(w: World, s: Service): Reply {
    if NameTaken(w, s.ContainerName()) || !Accepted(s, w.networks) then Reply(w, false)
    else Reply(
      w.(containers := w.containers[w.nextId := NewContainer(s, w.networks)],
         volumes := w.volumes + (set v | v in NamedVolumes(s.config.Volumes())),
         nextId := w.nextId + 1),
      true)
  }

  // ------------------------------------------------------ networks and volumes

  predicate NetworkInUse(w: World, a: nat, n: string) {
    exists id :: id in w.containers && w.containers[id].key.app == a
              && Active(w.containers[id]) && n in w.containers[id].config.Networks()
  }

  function CreateNetworkOp(w: World, owner: string, n: string): Reply {
    Reply(w.(networks := w.networks + {NetName(owner, n)}), true)
  }

  function RemoveNetworkOp(w: World, a: nat, owner: string, n: string): Reply {
    if NetworkInUse(w, a, n) then Reply(w, false)
    else Reply(w.(networks := w.networks - {NetName(Decimal(a), n), NetName(owner, n)}), true)
  }

  /** `Volume.generateDockerName` */
  function VolumeDockerName(a: nat, v: string): string { Decimal(a) + "_" + v }

  predicate VolumeInUse(w: World, volume: string) {
    exists id :: id in w.containers && volume in NamedVolumes(w.containers[id].config.Volumes())
  }

  function CreateVolumeOp(w: World, a: nat, v: string): Reply {
    Reply(w.(volumes := w.volumes + {VolumeDockerName(a, v)}), true)
  }

  /** A refusal to remove is logged, never thrown. */
  function RemoveVolumeOp(w: World, a: nat, v: string): Reply {
    var name := VolumeDockerName(a, v);
    Reply(if VolumeInUse(w, name) then w else w.(volumes := w.volumes - {name}), true)
  }

  // ------------------------------------------------------ the engine as an object

  class DockerEngine {
    var containers: map<Cid, Container>
    var networks: set<NetName>
    var volumes: set<string>
    var nextId: Cid

    constructor ()
      ensures Contents() == World(map[], {}, {}, 1)
    {
      containers, networks, volumes, nextId := map[], {}, {}, 1;
    }

    function Contents(): World
      reads this
    {
      World(containers, networks, volumes, nextId)
    }

    method StopContainer(id: Cid) returns (ok: bool)
      modifies this
      ensures Reply(Contents(), ok) == StopOp(old(Contents()), id)
    {
      ok := id in containers;
      if ok { containers := containers[id := containers[id].(status := StExited)]; }
    }

    method PauseContainer(id: Cid) returns (ok: bool)
      modifies this
      ensures Reply(Contents(), ok) == PauseOp(old(Contents()), id)
    {
      ok := id in containers && containers[id].status == StRunning;
      if ok { containers := containers[id := containers[id].(status := StPaused)]; }
    }

    method UnpauseContainer(id: Cid) returns (ok: bool)
      modifies this
      ensures Reply(Contents(), ok) == UnpauseOp(old(Contents()), id)
    {
      ok := id in containers && containers[id].status == StPaused;
      if ok { containers := containers[id := containers[id].(status := StRunning)]; }
    }

    method RemoveContainer(id: Cid) returns (ok: bool)
      modifies this
      ensures Reply(Contents(), ok) == RemoveOp(old(Contents()), id)
    {
      ok := id !in containers || !Active(containers[id]);
      if ok && id in containers { containers := containers - {id}; }
    }

    method StartContainer(s: Service) returns (ok: bool, id: Cid)
      modifies this
      ensures Reply(Contents(), ok) == StartOp(old(Contents()), s)
      ensures ok ==> id == old(nextId)
    {
      id := nextId;
      ok := !NameTaken(Contents(), s.ContainerName()) && Accepted(s, networks);
      if ok {
        containers := containers[id := NewContainer(s, networks)];
        volumes := volumes + set v | v in NamedVolumes(s.config.Volumes());
        nextId := nextId + 1;
      }
    }

    method CreateNetwork(owner: string, n: string)
      modifies this
      ensures Contents() == CreateNetworkOp(old(Contents()), owner, n).world
    {
      networks := networks + {NetName(owner, n)};
    }

    method RemoveNetwork(a: nat, owner: string, n: string) returns (ok: bool)
      modifies this
      ensures Reply(Contents(), ok) == RemoveNetworkOp(old(Contents()), a, owner, n)
    {
      ok := !NetworkInUse(Contents(), a, n);
      if ok { networks := networks - {NetName(Decimal(a), n), NetName(owner, n)}; }
    }

    method CreateVolume(a: nat, v: string)
      modifies this
      ensures Contents() == CreateVolumeOp(old(Contents()), a, v).world
    {
      volumes := volumes + {VolumeDockerName(a, v)};
    }

    method RemoveVolume(a: nat, v: string)
      modifies this
      ensures Contents() == RemoveVolumeOp(old(Contents()), a, v).world
    {
      var name := VolumeDockerName(a, v);
      if !VolumeInUse(Contents(), name) { volumes := volumes - {name}; }
    }

    /** All managed containers, in whatever order the engine lists them. */
    method List() returns (listing: seq<Cid>)
      ensures IsListing(listing, Contents())
    {
      listing := Ascending(containers.Keys);
    }
  }

  ghost predicate IsListing(listing: seq<Cid>, w: World) {
    NoDup(listing) && forall id :: id in listing <==> id in w.containers
  }
}
