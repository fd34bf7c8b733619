/** Executing a plan: each step acts on the engine, on the in-memory view and
    on the retry table, and a failed step does not stop the ones after it.
    These functions specify `ContainerManager.ExecuteStep` and its helpers. */
module Execution {
  import opened Basics
  import opened Compose
  import opened Engine
  import opened Retry
  import opened Planner

  datatype Sys = Sys(view: Apps, world: World, retries: Retries)

  /** What the environment does to one step: whether its first or second engine
      call is lost, and when it starts and ends. */
  datatype Env = Env(first: bool, second: bool, startedAt: int, endedAt: int)

  datatype Outcome = Outcome(sys: Sys, ok: bool)

  // ------------------------------------------------------ the in-memory view

  function RemoveService(view: Apps, a: nat, id: nat): Apps {
    if a !in view then view
    else
      var kept := WithoutId(view[a].services, id);
      if kept == [] then view - {a} else view[a := view[a].(services := kept)]
  }

  function AddService(view: Apps, a: nat, s: Service, cid: Cid): Apps {
    var app := if a in view then view[a] else App(a, s.appName, None, []);
    view[a := app.(services := app.services + [s.(containerId := Some(cid), status := Some(StRunning))])]
  }

  function UpdateState(view: Apps, a: nat, id: nat, state: Mode): Apps {
    if a in view then view[a := view[a].(services := WithState(view[a].services, id, state))] else view
  }

  /** `app?.services.find(s => s.serviceId === id)` */
  function FirstById(services: seq<Service>, id: nat): (found: Option<Service>)
    ensures found.Some? ==> found.value in services && found.value.serviceId == id
    ensures found.None? ==> forall s :: s in services ==> s.serviceId != id
  {
    if services == [] then None
    else if services[0].serviceId == id then Some(services[0])
    else FirstById(services[1..], id)
  }

  /** The first half of a network's Docker name: the app's uuid, else its id. */
  function OwnerOf(app: Option<App>, a: nat): string {
    if app.Some? then OrText(app.value.appUuid, Decimal(a)) else Decimal(a)
  }

  // ------------------------------------------------------------------- steps

  function ExecDownload(sys: Sys, image: string, e: Env): Outcome {
    var (retries, result) := Pull(sys.retries, "image:" + image, e.startedAt, !e.first, e.endedAt);
    Outcome(sys.(retries := retries), result == Pulled)
  }

  function ExecStart(sys: Sys, a: nat, s: Service, lost: bool): Outcome {
    if lost then Outcome(sys, false)
    else
      var r := StartOp(sys.world, s);
      if r.ok then Outcome(sys.(view := AddService(sys.view, a, s, sys.world.nextId), world := r.world), true)
      else Outcome(sys, false)
  }

  function ExecRemove(sys: Sys, a: nat, id: nat, cid: Cid, lost: bool): Outcome {
    if lost then Outcome(sys, false)
    else
      var r := RemoveOp(sys.world, cid);
      if r.ok then Outcome(sys.(view := RemoveService(sys.view, a, id), world := r.world), true)
      else Outcome(sys, false)
  }

  /** The service is read from the view before its container goes. */
  function ExecStartStopped(sys: Sys, a: nat, id: nat, cid: Cid, e: Env): Outcome {
    var found := FirstById(ServicesOf(sys.view, a), id);
    if found.None? then Outcome(sys, false)
    else
      var removed := ExecRemove(sys, a, id, cid, e.first);
      if removed.ok then ExecStart(removed.sys, a, found.value, e.second) else removed
  }

  function ExecStatus(sys: Sys, a: nat, id: nat, r: Reply, state: Mode, lost: bool): Outcome {
    if lost || !r.ok then Outcome(sys, false)
    else Outcome(sys.(view := UpdateState(sys.view, a, id, state), world := r.world), true)
  }

  function ExecWorld(sys: Sys, r: Reply, lost: bool): Outcome {
    if lost then Outcome(sys, false) else Outcome(sys.(world := r.world), r.ok)
  }

  function ExecStep(sys: Sys, target: Apps, step: AppStep, e: Env): Outcome {
    match step
    case DownloadImage(_, image) => ExecDownload(sys, image, e)
    case CreateVolume(a, v) => ExecWorld(sys, CreateVolumeOp(sys.world, a, v), e.first)
    case CreateNetwork(a, n) =>
      var app := if a in target then Some(target[a]) else AppAt(sys.view, a);
      ExecWorld(sys, CreateNetworkOp(sys.world, OwnerOf(app, a), n), e.first)
    case StopContainer(a, id, cid) => ExecStatus(sys, a, id, StopOp(sys.world, cid), Stopped, e.first)
    case PauseContainer(a, id, cid) => ExecStatus(sys, a, id, PauseOp(sys.world, cid), Paused, e.first)
    case UnpauseContainer(a, id, cid) => ExecStatus(sys, a, id, UnpauseOp(sys.world, cid), Running, e.first)
    case StartStoppedContainer(a, id, cid) => ExecStartStopped(sys, a, id, cid, e)
    case RemoveContainer(a, id, cid) => ExecRemove(sys, a, id, cid, e.first)
    case StartContainer(a, s) => ExecStart(sys, a, s, e.first)
    case RemoveNetwork(a, n) =>
      ExecWorld(sys, RemoveNetworkOp(sys.world, a, OwnerOf(AppAt(sys.view, a), a), n), e.first)
    case RemoveVolume(a, v) => ExecWorld(sys, RemoveVolumeOp(sys.world, a, v), e.first)
  }

  // ------------------------------------------------- restarting after a failed probe

  /** The first entry carrying a container id, app by app. */
  function FirstByContainer(services: seq<Service>, cid: Cid): (found: Option<Service>)
    ensures found.Some? ==> found.value in services && found.value.containerId == Some(cid)
    ensures found.None? ==> forall s <- services :: s.containerId != Some(cid)
  {
    if services == [] then None
    else if services[0].containerId == Some(cid) then Some(services[0])
    else FirstByContainer(services[1..], cid)
  }

  function FindContainer(view: Apps, order: seq<nat>, cid: Cid): (found: Option<(nat, Service)>)
    requires forall a <- order :: a in view
    ensures found.Some? ==>
      && found.value.0 in order
      && found.value.1 in view[found.value.0].services && found.value.1.containerId == Some(cid)
    ensures found.None? ==> forall a <- order :: forall s <- view[a].services :: s.containerId != Some(cid)
  {
    if order == [] then None
    else
      var found := FirstByContainer(view[order[0]].services, cid);
      if found.Some? then Some((order[0], found.value)) else FindContainer(view, order[1..], cid)
  }

  datatype Losses = Losses(stop: bool, remove: bool, start: bool)

  /** Stop, remove and start again; the view is only touched at the end. */
  function ExecRestart(sys: Sys, cid: Cid, lost: Losses): Sys {
    var found := FindContainer(sys.view, Ascending(sys.view.Keys), cid);
    if found.None? then sys
    else
      var (a, s) := found.value;
      var stopped := StopOp(sys.world, cid);
      if lost.stop || !stopped.ok then sys
      else
        var removed := RemoveOp(stopped.world, cid);
        if lost.remove || !removed.ok then sys.(world := stopped.world)
        else
          var started := StartOp(removed.world, s);
          if lost.start || !started.ok then sys.(world := removed.world)
          else sys.(view := AddService(RemoveService(sys.view, a, s.serviceId), a, s, removed.world.nextId),
                    world := started.world)
  }

  /** The state after a prefix of a plan, one environment per step. */
  function Run(sys: Sys, target: Apps, steps: seq<AppStep>, es: seq<Env>): Sys
    requires |es| == |steps|
  {
    if steps == [] then sys
    else ExecStep(Run(sys, target, Init(steps), Init(es)), target, Last(steps), Last(es)).sys
  }

  /** The steps of a run that fail, in order; the run goes on past them. */
  function FailedSteps(sys: Sys, target: Apps, steps: seq<AppStep>, es: seq<Env>): seq<AppStep>
    requires |es| == |steps|
  {
    if steps == [] then []
    else
      FailedSteps(sys, target, Init(steps), Init(es))
      + (if ExecStep(Run(sys, target, Init(steps), Init(es)), target, Last(steps), Last(es)).ok then [] else [Last(steps)])
  }

  lemma {:induction false} RunConcat(sys: Sys, target: Apps, s1: seq<AppStep>, s2: seq<AppStep>, e1: seq<Env>, e2: seq<Env>)
    requires |e1| == |s1| && |e2| == |s2|
    ensures Run(sys, target, s1 + s2, e1 + e2) == Run(Run(sys, target, s1, e1), target, s2, e2)
  {
    if s2 == [] {
      assert s1 + s2 == s1 && e1 + e2 == e1;
    } else {
      RunConcat(sys, target, s1, Init(s2), e1, Init(e2));
      assert Init(s1 + s2) == s1 + Init(s2) && Init(e1 + e2) == e1 + Init(e2);
    }
  }

  // -------------------------------------------------------- reading Docker back

  function ViewOf(cid: Cid, c: Container): Service {
    Service(c.key.svc, c.serviceName, c.image, c.key.app, c.appName,
            Some(ModeOf(c.status)), c.config, Some(cid), Some(c.status))
  }

  function SyncOne(view: Apps, cid: Cid, c: Container): Apps {
    var a := c.key.app;
    var app := if a in view then view[a] else App(a, c.appName, None, []);
    view[a := app.(services := app.services + [ViewOf(cid, c)])]
  }

  function SyncView(w: World, listing: seq<Cid>): Apps
    requires forall id <- listing :: id in w.containers
  {
    if listing == [] then map[]
    else SyncOne(SyncView(w, Init(listing)), Last(listing), w.containers[Last(listing)])
  }

  /** One reconciliation pass: sync, plan, execute. */
  function Pass(w: World, retries: Retries, target: Apps, listing: seq<Cid>, now: int, es: seq<Env>): Sys
    requires forall id <- listing :: id in w.containers
    requires |es| == |Plan(SyncView(w, listing), target, Gate(retries, now))|
  {
    var view := SyncView(w, listing);
    Run(Sys(view, w, retries), target, Plan(view, target, Gate(retries, now)), es)
  }
}
