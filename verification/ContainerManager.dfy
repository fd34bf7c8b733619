/** `ContainerManager` of agent/src/compose/container-manager.ts in its own
    form: an object that updates its two states, builds plans by pushing to
    lists and executes them step by step. Every method is tied to the
    functions of `Planner` and `Execution`. */
module Manager {
  import opened Basics
  import opened Compose
  import opened Engine
  import opened Retry
  import opened Planner
  import opened Execution
  import opened Expectations

  predicate IsCreate(step: AppStep) { step.CreateVolume? || step.CreateNetwork? }

  /** `steps.filter(...)` on the create steps, or on the others. */
  function Filter(steps: seq<AppStep>, creates: bool): seq<AppStep> {
    if steps == [] then []
    else Filter(Init(steps), creates) + (if IsCreate(Last(steps)) == creates then [Last(steps)] else [])
  }

  lemma {:induction false} FilterEach(action: ResourceAction, a: nat, names: seq<string>, creates: bool)
    ensures Filter(Each(action, a, names), creates)
         == if creates == (action == MakeVolume || action == MakeNetwork) then Each(action, a, names) else []
  {
    if names != [] {
      FilterEach(action, a, Init(names), creates);
      var steps := Each(action, a, names);
      assert Init(steps) == Each(action, a, Init(names));
    }
  }

  lemma {:induction false} FilterConcat(s1: seq<AppStep>, s2: seq<AppStep>, creates: bool)
    ensures Filter(s1 + s2, creates) == Filter(s1, creates) + Filter(s2, creates)
  {
    if s2 == [] {
      assert s1 + s2 == s1;
    } else {
      FilterConcat(s1, Init(s2), creates);
      assert Init(s1 + s2) == s1 + Init(s2);
    }
  }

  lemma FilterPair(make: ResourceAction, drop: ResourceAction, a: nat, n1: seq<string>, n2: seq<string>)
    requires make == MakeVolume || make == MakeNetwork
    requires drop == DropVolume || drop == DropNetwork
    ensures Filter(Each(make, a, n1) + Each(drop, a, n2), true) == Each(make, a, n1)
    ensures Filter(Each(make, a, n1) + Each(drop, a, n2), false) == Each(drop, a, n2)
  {
    FilterEach(make, a, n1, true);
    FilterEach(make, a, n1, false);
    FilterEach(drop, a, n2, true);
    FilterEach(drop, a, n2, false);
    FilterConcat(Each(make, a, n1), Each(drop, a, n2), true);
    FilterConcat(Each(make, a, n1), Each(drop, a, n2), false);
  }

  /** The loops below grow a list by one element at a time. */
  lemma PrefixStep<T>(s: seq<T>, i: nat)
    requires i < |s|
    ensures s[..i + 1] != [] && Init(s[..i + 1]) == s[..i] && Last(s[..i + 1]) == s[i]
  {}

  lemma WholePrefix<T>(s: seq<T>)
    ensures s[..|s|] == s
  {}

  lemma RunNone(sys: Sys, target: Apps)
    ensures Run(sys, target, [], []) == sys && FailedSteps(sys, target, [], []) == []
  {}

  lemma RunOneMore(sys: Sys, target: Apps, steps: seq<AppStep>, es: seq<Env>, i: nat)
    requires |es| == |steps| && i < |steps|
    ensures var next := ExecStep(Run(sys, target, steps[..i], es[..i]), target, steps[i], es[i]);
      && Run(sys, target, steps[..i + 1], es[..i + 1]) == next.sys
      && FailedSteps(sys, target, steps[..i + 1], es[..i + 1])
         == FailedSteps(sys, target, steps[..i], es[..i]) + (if next.ok then [] else [steps[i]])
  {
    PrefixStep(steps, i);
    PrefixStep(es, i);
    hide ExecStep;
  }

  class ContainerManager {
    var currentState: Apps
    var targetState: Apps
    var isApplyingState: bool
    const docker: DockerEngine
    const retryManager: RetryManager

    constructor (docker: DockerEngine, retryManager: RetryManager)
      ensures this.docker == docker && this.retryManager == retryManager
      ensures currentState == map[] && targetState == map[] && !isApplyingState
    {
      this.docker, this.retryManager := docker, retryManager;
      currentState, targetState, isApplyingState := map[], map[], false;
    }

    function System(): Sys
      reads this, docker, retryManager
    {
      Sys(currentState, docker.Contents(), retryManager.retryState)
    }

    // ------------------------------------------------------------ planning

    /** Adds the names one by one to an insertion-ordered set. */
    method AddNames(known: seq<string>, names: seq<string>, ghost earlier: seq<string>) returns (r: seq<string>)
      requires known == Dedup(earlier)
      ensures r == Dedup(earlier + names)
    {
      r := known;
      assert earlier + names[..0] == earlier;
      for i := 0 to |names|
        invariant r == Dedup(earlier + names[..i])
      {
        assert Init(earlier + names[..i + 1]) == earlier + names[..i];
        if names[i] !in r { r := r + [names[i]]; }
      }
      WholePrefix(names);
    }

    method CollectNetworks(app: Option<App>) returns (r: seq<string>)
      ensures r == Dedup(NetworkNames(Services(app)))
    {
      r := [];
      var services := Services(app);
      for i := 0 to |services|
        invariant r == Dedup(NetworkNames(services[..i]))
      {
        PrefixStep(services, i);
        r := AddNames(r, services[i].config.Networks(), NetworkNames(services[..i]));
      }
      WholePrefix(services);
    }

    method CollectVolumes(app: Option<App>) returns (r: seq<string>)
      ensures r == Dedup(VolumeNames(Services(app)))
    {
      r := [];
      var services := Services(app);
      for i := 0 to |services|
        invariant r == Dedup(VolumeNames(services[..i]))
      {
        PrefixStep(services, i);
        var names := [];
        var entries := services[i].config.Volumes();
        for j := 0 to |entries|
          invariant names == NamedVolumes(entries[..j])
        {
          PrefixStep(entries, j);
          if entries[j] == "" || entries[j][0] != '/' { names := names + [BeforeColon(entries[j])]; }
        }
        WholePrefix(entries);
        r := AddNames(r, names, VolumeNames(services[..i]));
      }
      WholePrefix(services);
    }

    /** One step for every collected name that the other side lacks. */
    method StepsForMissing(action: ResourceAction, a: nat, names: seq<string>, other: seq<string>,
                           ghost otherNames: seq<string>) returns (steps: seq<AppStep>)
      requires forall n :: n in other <==> n in otherNames
      ensures steps == Each(action, a, Without(names, otherNames))
    {
      steps := [];
      for i := 0 to |names|
        invariant steps == Each(action, a, Without(names[..i], otherNames))
      {
        PrefixStep(names, i);
        if names[i] !in other {
          var kept := Without(names[..i], otherNames);
          assert Init(kept + [names[i]]) == kept;
          steps := steps + [ResourceStep(action, a, names[i])];
        }
      }
      WholePrefix(names);
    }

    method ReconcileNetworksForApp(a: nat, cur: Option<App>, tgt: Option<App>) returns (steps: seq<AppStep>)
      ensures steps == Each(MakeNetwork, a, Missing(NetworkNames(Services(cur)), NetworkNames(Services(tgt))))
                     + Each(DropNetwork, a, Missing(NetworkNames(Services(tgt)), NetworkNames(Services(cur))))
    {
      var current := CollectNetworks(cur);
      var target := CollectNetworks(tgt);
      var creates := StepsForMissing(MakeNetwork, a, target, current, NetworkNames(Services(cur)));
      var removes := StepsForMissing(DropNetwork, a, current, target, NetworkNames(Services(tgt)));
      steps := creates + removes;
    }

    method ReconcileVolumesForApp(a: nat, cur: Option<App>, tgt: Option<App>) returns (steps: seq<AppStep>)
      ensures steps == Each(MakeVolume, a, Missing(VolumeNames(Services(cur)), VolumeNames(Services(tgt))))
                     + Each(DropVolume, a, Missing(VolumeNames(Services(tgt)), VolumeNames(Services(cur))))
    {
      var current := CollectVolumes(cur);
      var target := CollectVolumes(tgt);
      var creates := StepsForMissing(MakeVolume, a, target, current, VolumeNames(Services(cur)));
      var removes := StepsForMissing(DropVolume, a, current, target, VolumeNames(Services(tgt)));
      steps := creates + removes;
    }

    method StepsToRemoveApp(app: App) returns (steps: seq<AppStep>)
      ensures steps == RemoveAppSteps(app.appId, app.services)
    {
      steps := [];
      for i := 0 to |app.services|
        invariant steps == RemoveAppSteps(app.appId, app.services[..i])
      {
        PrefixStep(app.services, i);
        var service := app.services[i];
        if service.containerId.Some? {
          var cid := service.containerId.value;
          steps := steps + [StopContainer(app.appId, service.serviceId, cid),
                            RemoveContainer(app.appId, service.serviceId, cid)];
        }
      }
      WholePrefix(app.services);
    }

    method StepsToAddApp(app: App) returns (steps: seq<AppStep>)
      ensures steps == AddAppSteps(app.appId, app.services)
    {
      steps := [];
      for i := 0 to |app.services|
        invariant steps == AddAppSteps(app.appId, app.services[..i])
      {
        PrefixStep(app.services, i);
        var service := app.services[i];
        if service.Desired() == Running {
          steps := steps + [DownloadImage(app.appId, service.imageName), StartContainer(app.appId, service)];
        }
      }
      WholePrefix(app.services);
    }

    /** Keeps the current variables the target defines, one key at a time. */
    method FilterEnvironment(current: map<string, string>, target: map<string, string>)
      returns (kept: map<string, string>)
      ensures kept == FilteredEnvironment(current, target)
    {
      kept := map[];
      var left := target.Keys;
      while left != {}
        invariant left <= target.Keys
        invariant kept == map k | k in target && k !in left && k in current :: current[k]
        decreases left
      {
        var k :| k in left;
        if k in current { kept := kept[k := current[k]]; }
        left := left - {k};
      }
    }

    method ServiceNeedsUpdate(cur: Service, tgt: Service) returns (needed: bool)
      ensures needed == NeedsUpdate(cur, tgt)
      ensures needed <==> !Meets(cur.imageName, cur.config, tgt) || cur.status == Some(StExited)
    {
      UpdateNeededIff(cur, tgt);
      hide Meets;
      var imageChanged := cur.imageName != tgt.imageName;
      var portsChanged := cur.config.Ports() != tgt.config.Ports();
      var kept := FilterEnvironment(cur.config.Env(), tgt.config.Env());
      var envChanged := kept != tgt.config.Env();
      var volumesChanged := cur.config.Volumes() != tgt.config.Volumes();
      var networksChanged := cur.config.Networks() != tgt.config.Networks();
      var restartChanged := tgt.config.restart.Some?
        && OrText(cur.config.restart, "no") != OrText(tgt.config.restart, "no");
      var networkModeChanged := tgt.config.networkMode.Some?
        && OrText(cur.config.networkMode, "bridge") != OrText(tgt.config.networkMode, "bridge");
      var configChanged := portsChanged || envChanged || volumesChanged || networksChanged
        || restartChanged || networkModeChanged;
      var containerStopped := cur.status == Some(StExited);
      needed := imageChanged || configChanged || containerStopped;
    }

    method StepsForBoth(current: App, target: App, id: nat, cur: Service, tgt: Service)
      returns (steps: seq<AppStep>)
      ensures steps == BothSteps(current.appId, target.appId, id, cur, tgt)
    {
      var from, to := cur.Desired(), tgt.Desired();
      steps := [];
      if from != to && cur.containerId.Some? {
        var cid := cur.containerId.value;
        if from == Running && to == Stopped {
          return [StopContainer(current.appId, id, cid)];
        }
        if from == Running && to == Paused {
          return [PauseContainer(current.appId, id, cid)];
        }
        if from == Stopped && to == Running {
          return [StartStoppedContainer(current.appId, id, cid)];
        }
        if from == Paused && to == Running {
          return [UnpauseContainer(current.appId, id, cid)];
        }
        if from == Paused && to == Stopped {
          return [UnpauseContainer(current.appId, id, cid), StopContainer(current.appId, id, cid)];
        }
        return [StartStoppedContainer(current.appId, id, cid), PauseContainer(current.appId, id, cid)];
      }
      var needsUpdate := ServiceNeedsUpdate(cur, tgt);
      if needsUpdate && cur.containerId.Some? {
        var cid := cur.containerId.value;
        if cur.imageName != tgt.imageName {
          steps := steps + [DownloadImage(target.appId, tgt.imageName)];
        }
        steps := steps + [StopContainer(current.appId, id, cid)];
        steps := steps + [RemoveContainer(current.appId, id, cid)];
        steps := steps + [StartContainer(target.appId, tgt)];
      }
    }

    method StepsToUpdateApp(current: App, target: App, now: int) returns (steps: seq<AppStep>)
      ensures steps == UpdateAppSteps(current, target, Dedup(Ids(current.services) + Ids(target.services)),
                                      Gate(retryManager.retryState, now))
    {
      var ids := Dedup(Ids(current.services) + Ids(target.services));
      ghost var gate := Gate(retryManager.retryState, now);
      steps := [];
      for i := 0 to |ids|
        invariant steps == UpdateAppSteps(current, target, ids[..i], gate)
      {
        PrefixStep(ids, i);
        var id := ids[i];
        var cur := LastById(current.services, id);
        var tgt := LastById(target.services, id);
        if cur.Some? && tgt.None? && cur.value.containerId.Some? {
          var cid := cur.value.containerId.value;
          steps := steps + [StopContainer(current.appId, id, cid), RemoveContainer(current.appId, id, cid)];
        }
        if cur.None? && tgt.Some? && tgt.value.Desired() == Running {
          var canRetry := retryManager.ShouldRetryNow("image:" + tgt.value.imageName, now);
          if canRetry {
            steps := steps + [DownloadImage(target.appId, tgt.value.imageName),
                              StartContainer(target.appId, tgt.value)];
          }
        }
        if cur.Some? && tgt.Some? {
          var more := StepsForBoth(current, target, id, cur.value, tgt.value);
          steps := steps + more;
        }
      }
      WholePrefix(ids);
    }

    method StepsForApp(a: nat, now: int) returns (steps: seq<AppStep>)
      ensures steps == AppSteps(a, AppAt(currentState, a), AppAt(targetState, a), Gate(retryManager.retryState, now))
    {
      var cur, tgt := AppAt(currentState, a), AppAt(targetState, a);
      var volumes := ReconcileVolumesForApp(a, cur, tgt);
      var networks := ReconcileNetworksForApp(a, cur, tgt);
      FilterPair(MakeVolume, DropVolume, a, Missing(VolumeNames(Services(cur)), VolumeNames(Services(tgt))),
                 Missing(VolumeNames(Services(tgt)), VolumeNames(Services(cur))));
      FilterPair(MakeNetwork, DropNetwork, a, Missing(NetworkNames(Services(cur)), NetworkNames(Services(tgt))),
                 Missing(NetworkNames(Services(tgt)), NetworkNames(Services(cur))));
      var containers := [];
      if cur.Some? && tgt.None? {
        containers := StepsToRemoveApp(cur.value);
      } else if cur.None? && tgt.Some? {
        containers := StepsToAddApp(tgt.value);
      } else if cur.Some? && tgt.Some? {
        containers := StepsToUpdateApp(cur.value, tgt.value, now);
      }
      steps := (Filter(volumes, true) + Filter(networks, true))
        + containers
        + (Filter(networks, false) + Filter(volumes, false));
    }

    method CalculateSteps(now: int) returns (steps: seq<AppStep>)
      ensures steps == Plan(currentState, targetState, Gate(retryManager.retryState, now))
    {
      var order := AppOrder(currentState, targetState);
      ghost var gate := Gate(retryManager.retryState, now);
      steps := [];
      for i := 0 to |order|
        invariant steps == PlanFor(currentState, targetState, order[..i], gate)
      {
        PrefixStep(order, i);
        var more := StepsForApp(order[i], now);
        steps := steps + more;
      }
      WholePrefix(order);
    }

    // ----------------------------------------------------------- execution

    method RemoveServiceFromCurrentState(a: nat, id: nat)
      modifies this`currentState
      ensures currentState == RemoveService(old(currentState), a, id)
    {
      if a in currentState {
        var kept := WithoutId(currentState[a].services, id);
        currentState := currentState[a := currentState[a].(services := kept)];
        if kept == [] { currentState := currentState - {a}; }
      }
    }

    method AddServiceToCurrentState(a: nat, service: Service, cid: Cid)
      modifies this`currentState
      ensures currentState == AddService(old(currentState), a, service, cid)
    {
      if a !in currentState {
        currentState := currentState[a := App(a, service.appName, None, [])];
      }
      var entry := service.(containerId := Some(cid), status := Some(StRunning));
      currentState := currentState[a := currentState[a].(services := currentState[a].services + [entry])];
    }

    method UpdateServiceState(a: nat, id: nat, state: Mode)
      modifies this`currentState
      ensures currentState == UpdateState(old(currentState), a, id, state)
    {
      if a in currentState {
        currentState := currentState[a := currentState[a].(services := WithState(currentState[a].services, id, state))];
      }
    }

    method DownloadImageStep(image: string, e: Env) returns (ok: bool)
      modifies retryManager
      ensures Outcome(System(), ok) == ExecDownload(old(System()), image, e)
    {
      var key := "image:" + image;
      var allowed := retryManager.ShouldRetryNow(key, e.startedAt);
      if !allowed {
        return false;
      }
      if e.first {
        retryManager.RecordFailure(key, e.endedAt);
        return false;
      }
      retryManager.RecordSuccess(key);
      return true;
    }

    method StartContainerStep(a: nat, service: Service, lost: bool) returns (ok: bool)
      modifies this`currentState, docker
      ensures Outcome(System(), ok) == ExecStart(old(System()), a, service, lost)
    {
      if lost {
        return false;
      }
      var cid;
      ok, cid := docker.StartContainer(service);
      if ok { AddServiceToCurrentState(a, service, cid); }
    }

    method RemoveContainerStep(a: nat, id: nat, cid: Cid, lost: bool) returns (ok: bool)
      modifies this`currentState, docker
      ensures Outcome(System(), ok) == ExecRemove(old(System()), a, id, cid, lost)
    {
      if lost {
        return false;
      }
      ok := docker.RemoveContainer(cid);
      if ok { RemoveServiceFromCurrentState(a, id); }
    }

    method ExecuteStep(step: AppStep, e: Env) returns (ok: bool)
      modifies this`currentState, docker, retryManager
      ensures Outcome(System(), ok) == ExecStep(old(System()), targetState, step, e)
    {
      ok := false;
      match step
      case DownloadImage(_, image) =>
        ok := DownloadImageStep(image, e);
      case CreateVolume(a, v) =>
        if !e.first { docker.CreateVolume(a, v); ok := true; }
      case CreateNetwork(a, n) =>
        var app := if a in targetState then Some(targetState[a]) else AppAt(currentState, a);
        if !e.first { docker.CreateNetwork(OwnerOf(app, a), n); ok := true; }
      case StopContainer(a, id, cid) =>
        if !e.first {
          ok := docker.StopContainer(cid);
          if ok { UpdateServiceState(a, id, Stopped); }
        }
      case PauseContainer(a, id, cid) =>
        if !e.first {
          ok := docker.PauseContainer(cid);
          if ok { UpdateServiceState(a, id, Paused); }
        }
      case UnpauseContainer(a, id, cid) =>
        if !e.first {
          ok := docker.UnpauseContainer(cid);
          if ok { UpdateServiceState(a, id, Running); }
        }
      case StartStoppedContainer(a, id, cid) =>
        var found := FirstById(ServicesOf(currentState, a), id);
        if found.Some? {
          ok := RemoveContainerStep(a, id, cid, e.first);
          if ok { ok := StartContainerStep(a, found.value, e.second); }
        }
      case RemoveContainer(a, id, cid) =>
        ok := RemoveContainerStep(a, id, cid, e.first);
      case StartContainer(a, service) =>
        ok := StartContainerStep(a, service, e.first);
      case RemoveNetwork(a, n) =>
        if !e.first { ok := docker.RemoveNetwork(a, OwnerOf(AppAt(currentState, a), a), n); }
      case RemoveVolume(a, v) =>
        if !e.first { docker.RemoveVolume(a, v); ok := true; }
    }

    /** What a failed liveness probe leads to. */
    method RestartUnhealthyContainer(cid: Cid, lost: Losses)
      modifies this`currentState, docker
      ensures System() == ExecRestart(old(System()), cid, lost)
    {
      var found := FindContainer(currentState, Ascending(currentState.Keys), cid);
      if found.None? || lost.stop {
        return;
      }
      var (a, service) := found.value;
      var ok := docker.StopContainer(cid);
      if !ok || lost.remove {
        return;
      }
      ok := docker.RemoveContainer(cid);
      if !ok || lost.start {
        return;
      }
      var newId;
      ok, newId := docker.StartContainer(service);
      if ok {
        RemoveServiceFromCurrentState(a, service.serviceId);
        AddServiceToCurrentState(a, service, newId);
      }
    }

    /** Plans once, then executes every step and goes on past failures. */
    method ApplyTargetState(now: int, env: nat -> Env) returns (steps: seq<AppStep>, failures: seq<AppStep>)
      modifies this, docker, retryManager
      ensures old(isApplyingState) ==> unchanged(this) && unchanged(docker) && unchanged(retryManager)
      ensures targetState == old(targetState) && isApplyingState == old(isApplyingState)
      ensures !old(isApplyingState) ==>
        && steps == Plan(old(currentState), targetState, Gate(old(retryManager.retryState), now))
        && System() == Run(old(System()), targetState, steps, seq(|steps|, i requires 0 <= i < |steps| => env(i)))
        && failures == FailedSteps(old(System()), targetState, steps, seq(|steps|, i requires 0 <= i < |steps| => env(i)))
    {
      hide Run, FailedSteps, ExecStep, Plan;
      steps, failures := [], [];
      if isApplyingState {
        return;
      }
      isApplyingState := true;
      steps := CalculateSteps(now);
      RunNone(System(), targetState);
      ghost var es := seq(|steps|, i requires 0 <= i < |steps| => env(i));
      for i := 0 to |steps|
        invariant targetState == old(targetState)
        invariant System() == Run(old(System()), targetState, steps[..i], es[..i])
        invariant failures == FailedSteps(old(System()), targetState, steps[..i], es[..i])
      {
        RunOneMore(old(System()), targetState, steps, es, i);
        var ok := ExecuteStep(steps[i], env(i));
        if !ok { failures := failures + [steps[i]]; }
      }
      WholePrefix(steps);
      WholePrefix(es);
      isApplyingState := false;
    }

    /** Rebuilds the current state from the engine's listing. */
    method SyncCurrentStateFromDocker() returns (listing: seq<Cid>)
      modifies this`currentState
      ensures IsListing(listing, docker.Contents())
      ensures currentState == SyncView(docker.Contents(), listing)
    {
      listing := docker.List();
      var containers := docker.containers;
      currentState := map[];
      for i := 0 to |listing|
        invariant currentState == SyncView(docker.Contents(), listing[..i])
      {
        PrefixStep(listing, i);
        var cid := listing[i];
        var c := containers[cid];
        if c.key.app !in currentState {
          currentState := currentState[c.key.app := App(c.key.app, c.appName, None, [])];
        }
        var app := currentState[c.key.app];
        currentState := currentState[c.key.app := app.(services := app.services + [ViewOf(cid, c)])];
      }
      WholePrefix(listing);
    }

    method SetTarget(target: Apps)
      modifies this`targetState
      ensures targetState == target
    {
      targetState := target;
    }
  }
}
