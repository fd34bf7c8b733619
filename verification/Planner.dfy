/** The plan: the steps that turn a current state into a target state. These
    functions specify the planning methods of `ContainerManager`. */
module Planner {
  import opened Basics
  import opened Compose
  import opened Retry

  /** The retry table and the clock reading the planner consults. */
  datatype Gate = Gate(retries: Retries, now: int)

  predicate Allows(gate: Gate, image: string) {
    ShouldRetry(gate.retries, "image:" + image, gate.now)
  }

  // ------------------------------------------------------------ one service

  function TransitionSteps(a: nat, id: nat, cid: Cid, from: Mode, to: Mode): seq<AppStep>
    requires from != to
  {
    match (from, to)
    case (Running, Stopped) => [StopContainer(a, id, cid)]
    case (Running, Paused) => [PauseContainer(a, id, cid)]
    case (Stopped, Running) => [StartStoppedContainer(a, id, cid)]
    case (Paused, Running) => [UnpauseContainer(a, id, cid)]
    case (Paused, Stopped) => [UnpauseContainer(a, id, cid), StopContainer(a, id, cid)]
    case (Stopped, Paused) => [StartStoppedContainer(a, id, cid), PauseContainer(a, id, cid)]
  }

  predicate NeedsUpdate(cur: Service, tgt: Service) {
    Drifted(cur, tgt) || cur.status == Some(StExited)
  }

  function RecreateSteps(curApp: nat, tgtApp: nat, id: nat, cid: Cid, cur: Service, tgt: Service): seq<AppStep> {
    (if cur.imageName != tgt.imageName then [DownloadImage(tgtApp, tgt.imageName)] else [])
    + [StopContainer(curApp, id, cid), RemoveContainer(curApp, id, cid), StartContainer(tgtApp, tgt)]
  }

  function DropSteps(a: nat, id: nat, cid: Option<Cid>): seq<AppStep> {
    if cid.Some? then [StopContainer(a, id, cid.value), RemoveContainer(a, id, cid.value)] else []
  }

  function AddSteps(a: nat, tgt: Service): seq<AppStep> {
    if tgt.Desired() == Running
    then [DownloadImage(a, tgt.imageName), StartContainer(a, tgt)]
    else []
  }

  function BothSteps(curApp: nat, tgtApp: nat, id: nat, cur: Service, tgt: Service): seq<AppStep> {
    if cur.containerId.None? then []
    else if cur.Desired() != tgt.Desired()
    then TransitionSteps(curApp, id, cur.containerId.value, cur.Desired(), tgt.Desired())
    else if NeedsUpdate(cur, tgt)
    then RecreateSteps(curApp, tgtApp, id, cur.containerId.value, cur, tgt)
    else []
  }

  function ServiceSteps(curApp: nat, tgtApp: nat, id: nat,
                        cur: Option<Service>, tgt: Option<Service>, gate: Gate): seq<AppStep> {
    match (cur, tgt)
    case (None, None) => []
    case (Some(c), None) => DropSteps(curApp, id, c.containerId)
    case (None, Some(s)) => if Allows(gate, s.imageName) then AddSteps(tgtApp, s) else []
    case (Some(c), Some(s)) => BothSteps(curApp, tgtApp, id, c, s)
  }

  // -------------------------------------------------------- one application

  function RemoveAppSteps(a: nat, services: seq<Service>): seq<AppStep> {
    if services == [] then []
    else RemoveAppSteps(a, Init(services)) + DropSteps(a, Last(services).serviceId, Last(services).containerId)
  }

  function AddAppSteps(a: nat, services: seq<Service>): seq<AppStep> {
    if services == [] then [] else AddAppSteps(a, Init(services)) + AddSteps(a, Last(services))
  }

  function UpdateAppSteps(cur: App, tgt: App, ids: seq<nat>, gate: Gate): seq<AppStep> {
    if ids == [] then []
    else
      var id := Last(ids);
      UpdateAppSteps(cur, tgt, Init(ids), gate)
      + ServiceSteps(cur.appId, tgt.appId, id, LastById(cur.services, id), LastById(tgt.services, id), gate)
  }

  function ContainerSteps(cur: Option<App>, tgt: Option<App>, gate: Gate): seq<AppStep> {
    match (cur, tgt)
    case (None, None) => []
    case (Some(c), None) => RemoveAppSteps(c.appId, c.services)
    case (None, Some(t)) => AddAppSteps(t.appId, t.services)
    case (Some(c), Some(t)) => UpdateAppSteps(c, t, Dedup(Ids(c.services) + Ids(t.services)), gate)
  }

  datatype ResourceAction = MakeVolume | MakeNetwork | DropNetwork | DropVolume

  function ResourceStep(action: ResourceAction, a: nat, name: string): AppStep {
    match action
    case MakeVolume => CreateVolume(a, name)
    case MakeNetwork => CreateNetwork(a, name)
    case DropNetwork => RemoveNetwork(a, name)
    case DropVolume => RemoveVolume(a, name)
  }

  /** One step for each name, in order. */
  function Each(action: ResourceAction, a: nat, names: seq<string>): (steps: seq<AppStep>)
    ensures |steps| == |names|
    ensures forall i | 0 <= i < |names| :: steps[i] == ResourceStep(action, a, names[i])
  {
    if names == [] then [] else Each(action, a, Init(names)) + [ResourceStep(action, a, Last(names))]
  }

  function Services(app: Option<App>): seq<Service> {
    if app.Some? then app.value.services else []
  }

  /** Names the target uses and the current services do not. */
  function Missing(current: seq<string>, target: seq<string>): (names: seq<string>)
    ensures forall n :: n in names <==> n in target && n !in current
  {
    Without(Dedup(target), current)
  }

  function BeforeContainers(a: nat, cur: seq<Service>, tgt: seq<Service>): seq<AppStep> {
    Each(MakeVolume, a, Missing(VolumeNames(cur), VolumeNames(tgt)))
    + Each(MakeNetwork, a, Missing(NetworkNames(cur), NetworkNames(tgt)))
  }

  function AfterContainers(a: nat, cur: seq<Service>, tgt: seq<Service>): seq<AppStep> {
    Each(DropNetwork, a, Missing(NetworkNames(tgt), NetworkNames(cur)))
    + Each(DropVolume, a, Missing(VolumeNames(tgt), VolumeNames(cur)))
  }

  function AppSteps(a: nat, cur: Option<App>, tgt: Option<App>, gate: Gate): seq<AppStep> {
    BeforeContainers(a, Services(cur), Services(tgt))
    + ContainerSteps(cur, tgt, gate)
    + AfterContainers(a, Services(cur), Services(tgt))
  }

  // ---------------------------------------------------------- the whole plan

  function AppAt(apps: Apps, a: nat): Option<App> {
    if a in apps then Some(apps[a]) else None
  }

  function AppOrder(current: Apps, target: Apps): (order: seq<nat>)
    ensures NoDup(order)
    ensures forall a :: a in order <==> a in current || a in target
  {
    Dedup(Ascending(current.Keys) + Ascending(target.Keys))
  }

  function PlanFor(current: Apps, target: Apps, order: seq<nat>, gate: Gate): seq<AppStep> {
    if order == [] then []
    else
      var a := Last(order);
      PlanFor(current, target, Init(order), gate) + AppSteps(a, AppAt(current, a), AppAt(target, a), gate)
  }

  function Plan(current: Apps, target: Apps, gate: Gate): seq<AppStep> {
    PlanFor(current, target, AppOrder(current, target), gate)
  }
}
