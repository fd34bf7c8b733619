# Device agent: reconcilers, health probes and task runs in Dafny

This project models the parts of a device-management platform that have to be
right over time, and proves what they keep:

- the **container reconciler** of the agent, which reads Docker into a view, plans
  typed steps towards a target and executes them one by one past failures
  (`Compose`, `Ports`, `Planner`, `Engine`, `Execution`, `Manager`, and the proofs
  in `Expectations`, `Blocks`, `Agreement`, `Robust`, `Restarts`, `Runs`,
  `StepEffects`, `Exceptions`, `CleanSteps`, `CleanBlocks`, `CleanPass`,
  `Convergence`, `Stabilisation`, `Recovery`, `ReadBack`, `StepOrder`, `PlanSteps`,
  `KeepWhileUsed`);
- **image back-off** (`Retry`, `PullRuns`);
- the **health-probe machine** (`HealthCounters`, `Health`, `HealthRuns`,
  `HealthSafety`, `HealthSignals`);
- the **sensor-config reconciler** (`Sensors`, `SensorPlans`, `SensorTable`,
  `SensorNames`, `SensorRows`) and the **event-emitting config store** (`ConfigEvents`);
- **Docker names** and the round trips of networks and volumes (`Names`,
  `NetworkRoundTrip`, `VolumeRoundTrip`);
- the **housekeeper** (`Housekeeper`, `HousekeeperRuns`, `HousekeeperRegistry`,
  `HousekeeperRows`) and the **mail escaper** (`Sanitizer`).

Code that updates fields is a class whose methods are proved equal to functions on
an abstract state; the properties are lemmas about those functions, over every run.
`Basics` holds shared vocabulary.

## How Docker is modelled

The engine is a finite world: containers with app and service id, name, reported
configuration and a status of running, paused or exited; a set of networks named by
an owner and a name; a set of volume names. What it is taken to do:

- It refuses a container name in use, ports it cannot read, ports for a container in
  another one's namespace, and a mode that names a network of the app that is not
  there. It takes every other text as it is, and creates and starts a container in
  one step. A call either happens, is refused by the engine's
  own rules, or is lost without effect; which calls are lost is arbitrary (`Env`,
  `Losses`). A listing comes back in any order.
- Ports are numbers from 1 to 65535: it reads them from the texts it is given, leaves a
  protocol after a slash aside, puts a free port for host port 0, and lists the numbers.
  It reports mounts without an access mode, the environment as `key=value` texts, and
  the networks that existed when they were joined. A container with network mode `host`,
  `none` or `container:…` has no published ports and cannot join a network; one whose
  mode is the Docker name of a network of its own app is attached to that network first.
  Any other mode changes nothing. Ports, mounts and networks are listed in the order
  they were asked for; an engine with an order of its own, or one that tidies paths,
  would make more services drift. What survives that read-back is not assumed: it is the
  predicate `Faithful`, spelled out by `ReadBack.FaithfulMeans`.
- It stops paused containers; it refuses to pause one that is not running, to
  remove a network that a running or paused container of the app lists, and a volume
  any container mounts. An exited container does not protect its networks.
- Creating a network that exists is a success; `NetworkRoundTrip` says exactly when
  the agent's own comparison makes that so. Otherwise, as on an engine that chooses
  address ranges, the step is reported as failed (`ResourceRecreationAttempt`) and the
  world is the same; a pass then reports those failures beside the ones stated here.

A world is *admissible* if no service has two containers, ids are handed out in order,
ports and networks are listed as the engine lists them, each container name belongs to
its service, and the wanted networks that a running or paused container lists exist.
Exited containers may list networks that are gone. `Recovery.RecoversFromAnyRun` shows
that every failing run stays within such worlds. A world *can resume* the services
wanted paused (`AllSupported`) if each has a container, the networks that their modes
name exist or can be created, and that of an exited container exists already.

`Naming` fixes the container names a service may have. *Stable* means at most one
name a service, so that no service is renamed. *Disjoint* means no name is shared by
two services.

## Where the code does not do what it sets out to do

The code is modelled as it is; each of these is a proved statement.

- A target without stopped services settles if and only if every service survives
  its own read-back and networks are created under the id they are joined by
  (`SettlesIffSound`). A service wanted running that does not survive is redeployed on
  every pass, and one wanted paused on every second pass (`MisfitNeverSettles`):
  among them one with an empty restart policy, a mount with an access mode such as
  `data:/data:ro`, a variable named `__proto__`, a network listed twice, two ports
  with one container port, a port written as `0:80`, `08080:80` or `53:53/udp`
  (`UnplainPorts`), network mode `host` with any port or network, mode `1001_net` in
  app 1001 unless `net` is the first network it lists (`FaithfulMeans`), and any
  service with a network in an app that has a uuid of its own. A service wanted
  running that the engine refuses is attempted on every pass instead; one wanted
  paused is lost once it drifts.
- A service whose desired state is stopped is started again on every second pass
  (`StoppedNeverSettles`).
- A network that is to be removed can still be in use, and its removal is then
  refused: exactly by the services whose network mode names it although their
  `networks` do not list it (`KeptWhileUsed`).
- The volume a `createVolume` step makes is not mounted by the entries it was made
  for; only an entry that spells out its Docker name mounts it
  (`CreatedVolumeMountedIff`).
- Replacing a container can leave a service with two if its name changed and the
  removal is lost (`DuplicateIffRenamed`).
- Networks that only exited containers list are taken for existing: after such a
  network was removed, the first pass starts containers without it, and one more
  pass is needed (`PassStocks`).
- A restart whose last start is lost leaves a stale view until the next sync
  (`RestartKeepsAgreement`).
- Starting to monitor a container twice leaves a second timer running
  (`StartingAgainLeaksIff`).
- While ids and names are one-to-one, a sensor whose name a row already has is never
  registered: the row may have been left by a registration that wrote it and then threw,
  or belong to a discovered sensor (`NeverListedIff`, `LateRegistrationSticks`). A
  sensor that takes over the name of one to be removed needs a second reconcile, because
  registrations come first (`SecondReconcileIff`). A renamed sensor leaves its old row
  behind (`RenameOrphansRow`); a sensor with an empty id is reported as unregistered and
  stays (`ReplanIsFailedIff`).
- No event announces the removal of a setting named like an inherited property,
  such as `constructor` (`InheritedNameStays`), nor that `__proto__` is set to `{}`.
  The closing event of every update goes out on `config:changed`, the channel of a
  setting named `changed`, and has no value: its listener loses the setting with each
  update that announces anything (`HeardAtChanged`, `ChangedIsNeverKept`). In all other
  runs the events rebuild the config (`ReplayRebuildsIff`).
- The comment in `isEqualConfig` says that address ranges chosen by the engine are
  forgiven. `networkManager.create` calls it the other way round, so they are not:
  a second create is an error on an engine that chooses them
  (`SecondCreateIsNoOpIff`, against `ExistingEqualsWantedIff`). The exemption for
  config-only networks also discards the one for address ranges.
- Volumes of other programs are claimed if somewhere in their name a digit is
  followed by an underscore and a printable character: `backup_2024_5_data` counts as
  volume `5_data` of app 2024 (`VolumeClaimedIff`).
- A housekeeper task that is registered with a schedule while a shutdown waits for
  running tasks leaves the list at its end with its cron job still ticking, and
  nothing but a toggle begun before can stop that job any more (`OrphanArisesIff`,
  `OrphansAreLate`). Unregistering a task stops it exactly if no delayed startup run
  of its name is pending and no such job of an earlier registration of the name lives
  on (`UnregisteringStopsIff`).
- A task body that rejects with nothing, as `Promise.reject()` does, leaves its row at
  running for ever: the catch clause fails on `error.message` before it writes
  (`RowsTidyIff`).

## Model

| member | source | states |
|---|---|---|
| Compose.EnvironmentTestIsSubmap | agent/src/compose/container-manager.ts:1329-1341 | the environment comparison asks whether the target is a submap of the current environment |
| Manager.FilterPair | agent/src/compose/container-manager.ts:979-1028 | filtering the reconcile lists by action splits them into exactly their creations and their removals |
| Expectations.UpdateNeededIff | agent/src/compose/container-manager.ts:1319-1369 | an update is needed if and only if the image, ports, mounts or networks differ, a variable the target defines is absent or has another value, a given restart policy or network mode differs after its default, or the container has exited |
| Manager.ContainerManager.ReconcileNetworksForApp | agent/src/compose/container-manager.ts:834-888 | creates the networks only the target uses, then removes those only the current services use, each once |
| Manager.ContainerManager.ReconcileVolumesForApp | agent/src/compose/container-manager.ts:890-958 | the same for named volumes, bind mounts left aside |
| Manager.ContainerManager.StepsToRemoveApp | agent/src/compose/container-manager.ts:1033-1055 | stop and remove for each entry with a container |
| Manager.ContainerManager.StepsToAddApp | agent/src/compose/container-manager.ts:1057-1093 | download and start for each service wanted running, others skipped |
| Manager.ContainerManager.ServiceNeedsUpdate | agent/src/compose/container-manager.ts:1319-1369 | true exactly if the container has exited or does not meet the target, field by field |
| Manager.ContainerManager.StepsForBoth | agent/src/compose/container-manager.ts:1184-1419 | one of the six state transitions, else recreation when needed, else nothing |
| Manager.ContainerManager.StepsToUpdateApp | agent/src/compose/container-manager.ts:1095-1424 | per service id, current ids first: removal, gated addition, or the steps for both |
| Manager.ContainerManager.CalculateSteps | agent/src/compose/container-manager.ts:964-1031 | the nested loops produce `Plan`: per app volumes, networks, containers, network and volume removals |
| Manager.ContainerManager.DownloadImageStep | agent/src/compose/container-manager.ts:1434-1474 | refuses, pulls and forgets, or pulls and counts a failure, by the retry table |
| Manager.ContainerManager.ExecuteStep | agent/src/compose/container-manager.ts:1430-1637 | each step's effect on engine, view and retry table, and whether it throws, under any lost call |
| Manager.ContainerManager.ApplyTargetState | agent/src/compose/container-manager.ts:695-829 | plans once, executes the whole plan past failures, reports exactly the failed steps; does nothing while already applying |
| Manager.ContainerManager.SyncCurrentStateFromDocker | agent/src/compose/container-manager.ts:529-682 | the view becomes what the listing of all containers says, whatever it was |
| Manager.ContainerManager.RemoveServiceFromCurrentState | agent/src/compose/container-manager.ts:1943-1955 | drops every entry with the service id |
| Manager.ContainerManager.AddServiceToCurrentState | agent/src/compose/container-manager.ts:1957-1979 | appends the service with its container id, creating the app entry if needed |
| Manager.ContainerManager.UpdateServiceState | agent/src/compose/container-manager.ts:1981-2003 | writes the state of the first entry with the service id |
| Manager.ContainerManager.RestartUnhealthyContainer | agent/src/compose/container-manager.ts:2531-2615 | stop, remove and start of the service found, with the view touched only at the end |
| Engine.DockerEngine.StartContainer | agent/src/compose/docker-manager.ts:147-302 | a name in use, unreadable ports and a missing network named as mode are refused; otherwise one new running container that reports what the engine keeps of the service under its network mode |
| Expectations.StartMeans | agent/src/compose/docker-manager.ts:147-302 | when a service is taken, and what its container then holds: labels, image, each surviving variable, each mount, the bindings published, the networks joined, mode and restart policy with their defaults, and the volumes made |
| Expectations.BindingsMean | agent/src/compose/docker-manager.ts:172-198 | asked for are exactly the complete port entries whose container port no later one binds again |
| Expectations.NamedVolumesMean | agent/src/compose/container-manager.ts:890-958 | the managed volumes are the texts before the first colon of the entries that are no host paths |
| Engine.DockerEngine.StopContainer | agent/src/compose/docker-manager.ts:307-340 | running and paused containers exit; an already exited one is tolerated |
| Engine.DockerEngine.RemoveContainer | agent/src/compose/docker-manager.ts:401-449 | which removals are refused and which tolerated |
| Engine.DockerEngine.PauseContainer | agent/src/compose/docker-manager.ts:345-368 | pauses a running container, refuses any other |
| Engine.DockerEngine.UnpauseContainer | agent/src/compose/docker-manager.ts:373-396 | resumes a paused container, refuses any other |
| Engine.DockerEngine.CreateNetwork | agent/src/compose/container-manager.ts:1712-1740 | the network exists afterwards under its owner's name |
| Engine.DockerEngine.RemoveNetwork | agent/src/compose/network.ts:226-267 | removes every network of the app with the name, refused while one is in use |
| Engine.DockerEngine.CreateVolume | agent/src/compose/container-manager.ts:1772-1802 | the volume exists under app id and name |
| Engine.DockerEngine.RemoveVolume | agent/src/compose/volume.ts:99-114 | removes it unless a container mounts it; a refusal is not an error |
| Engine.DockerEngine.List | agent/src/compose/docker-manager.ts:454-470 | every container once, in some order |
| Engine.JoinedNetworks | agent/src/compose/docker-manager.ts:252-281 | a container joins exactly the wanted networks that exist under its app's id |
| ReadBack.CreatedVolumeMountedIff | agent/src/compose/volume.ts:87-118 | a container mounts the volume a create step made if and only if an entry spells out its Docker name; the entries it was made for never do |
| Blocks.PlanIsBlocks | agent/src/compose/container-manager.ts:964-1031 | a plan is, for each app, its creations, one block a service, its removals |
| Blocks.BlocksOrdered | agent/src/compose/container-manager.ts:964-1031 | every service of either state has exactly one block, after its app's creations |
| PlanSteps.PlanMeans | agent/src/compose/container-manager.ts:1033-1424 | for each kind of container step, the exact condition on the service's current and target entry under which a plan holds it |
| PlanSteps.PlanResourcesMean | agent/src/compose/container-manager.ts:834-958 | a creation or removal is planned if and only if only the target's or only the current services of the app use the name |
| PlanSteps.PlanPrepares | agent/src/compose/container-manager.ts:1184-1419 | a pull stands right before the start it is for, a stop and a removal right before the start of the successor, and the way between stopped and paused leads through running |
| PlanSteps.AppsInOrder | agent/src/compose/container-manager.ts:970-976 | apps are planned for by ascending id, current ones first |
| PlanSteps.FailedPullHoldsBack | agent/src/compose/container-manager.ts:1136-1182 | after a download step, a service of the image that is new in an app already there has a step in a later plan if and only if it is wanted running and the pull succeeded, or its pause is over and it was not the tenth failure |
| Runs.SyncAgrees | agent/src/compose/container-manager.ts:529-682 | a sync of a world with one container a service names exactly its containers |
| StepEffects.SyncShows | agent/src/compose/container-manager.ts:529-682 | a synced view has exactly one entry for each container, with its labels, image, configuration, id, status and state |
| StepEffects.StatusStepMeans | agent/src/compose/container-manager.ts:1480-1513 | when a stop, pause or resume takes effect, and what becomes of the container |
| StepEffects.StatusStepNotes | agent/src/compose/container-manager.ts:1981-2003 | its entry notes the new state and nothing else in the view changes |
| StepEffects.RemoveStepMeans | agent/src/compose/container-manager.ts:1582-1588 | when a removal takes effect; it takes the service's entries along |
| StepEffects.StartStepMeans | agent/src/compose/container-manager.ts:1589-1620 | a start adds one container made for the service and one entry under its id |
| StepEffects.StartStoppedStepMeans | agent/src/compose/container-manager.ts:1515-1580 | an exited container is removed and the very entry that was noted is started again |
| StepEffects.CreateNetworkMeans | agent/src/compose/container-manager.ts:1712-1740 | the network is created under the uuid of the wanted app, or else of the current one, or else the app id |
| StepEffects.RemoveNetworkMeans | agent/src/compose/container-manager.ts:1742-1770 | a network that no running or paused container of the app lists goes, any other stays |
| StepEffects.VolumeStepsMean | agent/src/compose/container-manager.ts:1772-1830 | a volume is made under app id and name, and removed unless a container mounts it |
| StepEffects.FailuresMean | agent/src/compose/container-manager.ts:742-790 | a run reports exactly its failing steps, one for one |
| Agreement.StepKeeps | agent/src/compose/container-manager.ts:1430-1637 | each container step, lost or not, keeps one container per service and the view in agreement |
| Agreement.PassKeepsAgreement | agent/src/compose/container-manager.ts:742-790 | so does every prefix of a plan under arbitrary failures, the failed restart after a removal included |
| Robust.PlanIsSane | agent/src/compose/container-manager.ts:742-790 | no prefix of any plan, made from however wrong a view, gives a service two containers |
| Runs.EveryRunIsSafe | agent/src/compose/container-manager.ts:471-829 | over every run of syncs, new targets, failing passes and failing restarts, and inside each pass, no service has two containers; the triples (app, service, container) of view and Docker are equal unless a restart since the last sync lost its start |
| Recovery.StepKeepsJoined | agent/src/compose/container-manager.ts:1430-1637 | no step, lost or not, takes a network from under a running or paused container |
| Recovery.RecoversFromAnyRun | agent/src/compose/container-manager.ts:471-829 | after any such run, even one broken off inside a pass, two failure-free passes (four with paused services) reach any sound target |
| Exceptions.DuplicateIffRenamed | agent/src/compose/container-manager.ts:1387-1419 | a replacement can duplicate a service's container if and only if the new name is free beforehand and the engine takes the service |
| Restarts.RestartKeepsAgreement | agent/src/compose/container-manager.ts:2531-2615 | a restart never duplicates, and keeps agreement if and only if it does not lose its start after the removal |
| Restarts.RestartIsSane | agent/src/compose/container-manager.ts:2531-2615 | nor does it duplicate when the view was wrong before |
| Restarts.RestartMeans | agent/src/compose/container-manager.ts:2531-2615 | case by case what a restart leaves: unless a call is lost or the engine refuses, the old container is gone and one made for the very entry found runs in its place, under whose id the entry stands; all else is as it was |
| CleanPass.PassMoves | agent/src/compose/container-manager.ts:1430-1637 | a failure-free pass refines one step of a small automaton for every service at once |
| Convergence.MoveLowersRank | agent/src/compose/container-manager.ts:1184-1419 | the rank (exited, drifted, paused, matching) of a service falls with each automaton step until it is zero |
| Convergence.PassStocks | agent/src/compose/container-manager.ts:964-1637 | one failure-free pass from any admissible world leaves only active containers, whose networks exist, at most one pass from the goal (three if paused) |
| Convergence.PassLowersRanks | agent/src/compose/container-manager.ts:964-1637 | from then on each failure-free pass lowers every positive rank and leaves rank-zero services untouched |
| Convergence.PlanEmptyIffGoal | agent/src/compose/container-manager.ts:964-1031 | the plan of a fresh view, resource steps included, is empty if and only if the world is at its goal |
| Stabilisation.Stabilises | agent/src/compose/container-manager.ts:529-1637 | from any admissible world two passes (four with paused services) leave no containers but one a service, in the wanted state, with the wanted image, every variable the target defines at its target value, and all other settings as asked; every later plan is empty |
| Stabilisation.FirstDeployment | agent/src/compose/container-manager.ts:1057-1093 | on an engine without containers one pass is enough, for any running target whose container names are distinct |
| Stabilisation.SettlesIffSound | agent/src/compose/container-manager.ts:964-1637 | without stopped services, two passes (four with paused ones) suffice from every admissible world that can resume the paused ones if and only if services survive read-back and networks are created where they are joined |
| Stabilisation.MisfitNeverSettles | agent/src/compose/container-manager.ts:1361-1419 | a service that does not is never at its target, and every plan, as long as it has a container or is wanted running, redeploys or pauses it again |
| Stabilisation.StoppedNeverSettles | agent/src/compose/container-manager.ts:1361-1367 | a service wanted stopped that the engine takes, ports and mode, alternates between exited and running for ever |
| Stabilisation.StoppedRefusedIsLost | agent/src/compose/container-manager.ts:1361-1419 | one whose ports the engine refuses has lost its container after two passes |
| ReadBack.FaithfulMeans | agent/src/compose/container-manager.ts:570-660 | which configurations are taken and read back unchanged, in terms of their ports, variables, mounts, networks, network mode and restart policy |
| Ports.PortsReadBack | agent/src/compose/container-manager.ts:655-659 | ports read back if and only if each is a plain pair of numbers with its own container port |
| Ports.PlainPortMeans | agent/src/compose/docker-manager.ts:172-198 | plain means two numbers from 1 to 65535 in plain decimals, with a colon between |
| Ports.PublishedMeans | agent/src/compose/docker-manager.ts:172-198 | which numbers the engine publishes for a binding, protocol suffix and port zero included |
| Ports.UnplainPorts | agent/src/compose/docker-manager.ts:172-198 | entries with a leading zero or a protocol suffix, which the agent accepts, are not plain and so do not read back |
| Ports.ReportedIsPlain | agent/src/compose/container-manager.ts:655-659 | every port read back is plain, so that what was read back can be started again |
| ReadBack.NetworksReadBack | agent/src/compose/docker-manager.ts:252-281 | networks read back if and only if none is listed twice |
| ReadBack.AttachedReadsBack | agent/src/compose/docker-manager.ts:228-281 | under any network mode, networks read back if and only if none is listed twice, none at all without a namespace, and the one that the mode names first |
| ReadBack.MountMeans | agent/src/compose/docker-manager.ts:202-209 | a mount reads back if and only if it is a source and a destination and nothing more |
| StepOrder.StepSpares | agent/src/compose/container-manager.ts:1742-1830 | a network or volume disappears only by its own removal step |
| StepOrder.AppsAreIndependent | agent/src/compose/container-manager.ts:977-1028 | the steps carrying one app's id depend only on that app's current and target entries |
| StepOrder.QuietIsLeftAlone | agent/src/compose/container-manager.ts:1184-1421 | a service with equal desired state, no drift and a live status is named by no container step, and none of its networks or volumes is removed |
| StepOrder.DropsOnlyUnwanted | agent/src/compose/container-manager.ts:873-885 | only resources that no target service of the app uses are removed |
| StepOrder.CreatedBeforeUse | agent/src/compose/container-manager.ts:977-1011 | at every step that starts a container all its networks and managed volumes are in place, if those that listed containers refer to were at the start |
| KeepWhileUsed.KeptWhileUsed | agent/src/compose/container-manager.ts:1011-1028 | without pending state changes, a removal finds the network listed by exactly those containers of the app whose wanted mode names it, and the volume named by none, whether or not images are let through or names shared |
| Retry.RetryManager.ShouldRetryNow | agent/src/compose/retry-manager.ts:33-48 | allowed for an unknown key, refused from the tenth failure on, else once the pause is over |
| Retry.RetryManager.RecordFailure | agent/src/compose/retry-manager.ts:53-75 | counts the failure and sets the next pause from the table |
| Retry.RetryManager.RecordSuccess | agent/src/compose/retry-manager.ts:80-86 | forgets the key |
| PullRuns.TableSummarises | agent/src/compose/retry-manager.ts:18-86 | the table entry of an image is the number of failures since its last success and the end of the last pause |
| PullRuns.NotRefusedIff | agent/src/compose/retry-manager.ts:33-48 | an image is allowed exactly when it has no failures pending, or fewer than ten and the last pause is over |
| PullRuns.BoundedBackoff | agent/src/compose/container-manager.ts:1434-1474 | at most ten pulls between successes; the k-th failure no earlier than the pauses before it add up to, 1510 seconds for the tenth |
| PullRuns.NinePauses | agent/src/compose/retry-manager.ts:20-28 | each of the nine pauses before the tenth failure, 1510 seconds together |
| PullRuns.ExhaustedStaysRefused | agent/src/compose/container-manager.ts:1434-1452 | after ten failures in a row the image is never pulled again |
| HealthCounters.CountersRefineHistory | agent/src/compose/health-check-manager.ts:211-245 | the status is healthy (unhealthy) exactly when the latest decisive run of results was one of successes (failures), unknown if there was none |
| HealthCounters.DropsAreSpaced | agent/src/compose/health-check-manager.ts:211-245 | every turn to unhealthy costs a full run of failures and, after the first, a full run of successes |
| HealthCounters.ManyDropsManyChecks | agent/src/compose/health-check-manager.ts:211-245 | k turns need k failure runs and k - 1 success runs of checks |
| Health.HealthCheckManager.StartMonitoring | agent/src/compose/health-check-manager.ts:50-82 | registers each configured probe with one timer; started at once without a startup probe |
| Health.HealthCheckManager.StopMonitoring | agent/src/compose/health-check-manager.ts:87-101 | clears the recorded timers and forgets probes and flags |
| Health.HealthCheckManager.PerformCheck | agent/src/compose/health-check-manager.ts:167-186 | a firing timer is ignored, postponed for startup, or begins a check |
| Health.HealthCheckManager.ResumeCheck | agent/src/compose/health-check-manager.ts:186-206 | a result is processed, a known failed container is dropped by its restart handler, and the next check is scheduled |
| Health.HealthCheckManager.ProcessOne | agent/src/compose/health-check-manager.ts:211-245 | counts one result and reports a status change only when a threshold is reached |
| Health.HealthCheckManager.HandleStatusChange | agent/src/compose/health-check-manager.ts:250-300 | the flag and the signal of a status change; readiness signals only real changes |
| Health.HealthCheckManager.ScheduleNextCheck | agent/src/compose/health-check-manager.ts:305-315 | one new timer, recorded, for a probe still registered |
| HealthRuns.EveryRunInvariant | agent/src/compose/health-check-manager.ts:50-206 | in every interleaving each registered probe has exactly one pending timer or check in flight, and the flags follow the probes |
| HealthSafety.ChecksWaitForStartup | agent/src/compose/health-check-manager.ts:174-183 | no liveness or readiness check begins before the container has started |
| HealthSafety.StartedStays | agent/src/compose/health-check-manager.ts:266-273 | having started is never taken back while monitored |
| HealthSafety.NoSignalAfterStop | agent/src/compose/health-check-manager.ts:87-101 | no signal names a container that is not monitored, whatever is still in flight |
| HealthSafety.EveryProbeCounts | agent/src/compose/health-check-manager.ts:211-245 | in every run each registered probe's counters are those of its delivered results |
| HealthSafety.FlagsRefineHistory | agent/src/compose/health-check-manager.ts:250-300 | ready and live are exactly what the probes' histories decide |
| HealthSafety.EveryFailureIsADrop | agent/src/compose/health-check-manager.ts:275-288 | failure signals and turns of the liveness probe to unhealthy are equally many |
| HealthSafety.FailureSignalsAreSpaced | agent/src/compose/health-check-manager.ts:211-288 | k failure signals need k failure runs and k - 1 success runs of executed checks |
| HealthSafety.AtMostOneFailure | agent/src/compose/container-manager.ts:245-254 | a container the agent knows is reported failed at most once |
| HealthSafety.StartingAgainLeaksIff | agent/src/compose/health-check-manager.ts:120-162 | starting a probe leaves one activity if and only if none of its key was left |
| HealthSignals.EveryReadinessIsTold | agent/src/compose/health-check-manager.ts:287-297 | over every run the readiness signals of a container alternate, ready first, and the last one is what it is |
| HealthSignals.StartupToldIff | agent/src/compose/health-check-manager.ts:266-273 | completed startup is signalled by exactly the results after which the latest decisive run is one of successes and was not before |
| HealthSignals.StartedIffCompleted | agent/src/compose/health-check-manager.ts:266-273 | a monitored container has started if and only if it has no startup probe or such a result has been delivered |
| HealthSignals.TickBeginsIff | agent/src/compose/health-check-manager.ts:167-206 | a firing timer begins one check if its container has started or the probe is the startup probe, and is set anew otherwise |
| HealthSignals.MonitoredIff | agent/src/compose/health-check-manager.ts:87-101 | a container ceases to be monitored exactly by being ended or by failing while the agent knows it |
| HealthSignals.ThresholdsMean | agent/src/compose/health-check-manager.ts:216-217 | the thresholds as given, at least one; by default one success or three failures |
| Sensors.SensorConfigManager.CalculateSteps | agent/src/device-manager/config.ts:227-290 | registrations, then unregistrations, then updates, by id |
| Sensors.SensorConfigManager.RegisterDevice | agent/src/device-manager/config.ts:320-409 | row then list; a taken name or a rejected write throws before either, a late failure between them |
| Sensors.SensorConfigManager.UpdateDevice | agent/src/device-manager/config.ts:414-525 | upserts the row of the device's name, then replaces the first entry with its id |
| Sensors.SensorConfigManager.UnregisterDevice | agent/src/device-manager/config.ts:530-579 | deletes the row of the listed name, then every entry with the id |
| Sensors.SensorConfigManager.ExecuteStep | agent/src/device-manager/config.ts:295-315 | dispatches the three actions; an empty id is skipped without an error |
| Sensors.SensorConfigManager.Reconcile | agent/src/device-manager/config.ts:110-222 | copies the other fields, executes the plan past failures, and counts the steps of each kind that succeed and those that fail |
| SensorPlans.StepLeavesPlan | agent/src/device-manager/config.ts:227-290 | a planned step that takes effect, and no other, leaves the next plan |
| SensorPlans.PlanIsUnique | agent/src/device-manager/config.ts:227-290 | with unique ids no step is planned twice |
| SensorPlans.ReplanMidway | agent/src/device-manager/config.ts:159-199 | at every point of a failing run, replanning gives the steps without effect so far and then those still to come |
| SensorPlans.ReplanIsUntaken | agent/src/device-manager/config.ts:110-222 | after any failing run the next plan is exactly the steps without effect, in order |
| SensorPlans.ReplanIsFailedIff | agent/src/device-manager/config.ts:295-315 | these are exactly the failed steps if and only if no listed device with an empty id is to go |
| SensorTable.StepKeepsBackedIff | agent/src/device-manager/config.ts:320-579 | with ids and names one-to-one, a planned step keeps each listed device equal to its row if and only if its write does not outlive it |
| SensorTable.RunKeepsBackedIff | agent/src/device-manager/config.ts:159-199 | the same at every point of a whole failing reconcile |
| SensorTable.RunStaysWithin | agent/src/device-manager/config.ts:110-222 | rows of all other names, discovered sensors among them, are untouched throughout |
| SensorTable.PlanEmptyIff | agent/src/device-manager/config.ts:227-290 | nothing is planned if and only if list and target hold the same devices |
| SensorTable.PlanMeans | agent/src/device-manager/config.ts:227-290 | exactly the new devices are registered, those gone unregistered and those that differ updated |
| SensorTable.PlanInOrder | agent/src/device-manager/config.ts:227-290 | registrations come first, updates last |
| SensorRows.RegisterStores | agent/src/device-manager/config.ts:340-400 | what a fault-free registration stores, column by column, and that it touches nothing else |
| SensorRows.UpdateStores | agent/src/device-manager/config.ts:430-520 | the same for an update, with or without a row before |
| SensorRows.UnregisterDeletes | agent/src/device-manager/config.ts:530-579 | an unregistration deletes the row of the listed name and every entry with the id, and no other row |
| SensorRows.SettledIsStored | agent/src/device-manager/config.ts:110-222 | after a fault-free reconcile in which no step fails every target device is stored, column by column, under its name |
| SensorTable.SettledWhenNothingFails | agent/src/device-manager/config.ts:110-222 | a pass reaches the target exactly when none of its steps fails |
| SensorNames.RegisteredIff | agent/src/device-manager/config.ts:320-400 | a planned registration lists its device if and only if its own step meets no fault and its name was free beforehand, whatever fails elsewhere |
| SensorNames.LateRegistrationSticks | agent/src/device-manager/config.ts:381-400 | a registration that writes its row and then throws gets its device stuck |
| SensorNames.NeverListedIff | agent/src/device-manager/config.ts:110-222 | with ids and names one-to-one, over all sequences of reconciles a wanted device is never listed if and only if a row has its name now |
| SensorNames.NameFreedIff | agent/src/device-manager/config.ts:530-579 | a fault-free reconcile frees a taken name if and only if a device listed under it is unregistered |
| SensorNames.SecondReconcileIff | agent/src/device-manager/config.ts:227-290 | two fault-free reconciles list a device if and only if its name was free or its owner is to go; one only in the first case |
| SensorTable.RenameOrphansRow | agent/src/device-manager/config.ts:462-511 | a successful rename keeps the row of the old name, listed only if another device has that name |
| ConfigEvents.ConfigManager.UpdateConfig | agent/src/config/manager.ts:55-130 | the events in order, the closing one included, its key list, and the stored config |
| ConfigEvents.OneEventPerDifference | agent/src/config/manager.ts:65-118 | on each channel one event with new and previous value if the key differs or is gone, none otherwise, and on `changed` the closing event last |
| ConfigEvents.AnnouncedInOrder | agent/src/config/manager.ts:65-107 | new and changed keys are announced in the order of the update, and after them the deleted ones in the order of the old config |
| ConfigEvents.NothingToAnnounceIff | agent/src/config/manager.ts:112-130 | an update emits nothing, not even the closing event, if and only if no key has an event of its own |
| ConfigEvents.UpdateIsHeardIff | agent/src/config/manager.ts:65-118 | a listener stays up to date if and only if no key changes silently and no value of `changed` is followed by the closing event |
| ConfigEvents.ReplayRebuildsKey | agent/src/config/manager.ts:55-130 | folding the events of any run rebuilds the stored value of every key but `changed` and the inherited names |
| ConfigEvents.ChangedIsNeverKept | agent/src/config/manager.ts:112-118 | after any run of updates the listener of `changed` knows no value |
| ConfigEvents.ReplayRebuildsIff | agent/src/config/manager.ts:55-130 | the events alone rebuild the config at every point of a run if and only if no update changes a key silently or stores a value under `changed` |
| ConfigEvents.InheritedNameStays | agent/src/config/manager.ts:93-93 | a concrete run where the listener keeps a removed setting |
| Names.NetworkNameRoundTripIff | agent/src/compose/network.ts:30-66 | owner and name are recovered from a Docker name if and only if the owner is all digits or 32 or more hex characters or hyphens and the name has no space |
| Names.NetworkNameReadsBackIff | agent/src/compose/network.ts:30-66 | what exactly any such name is read back as, errors included |
| Names.DockerNameIsInjective | agent/src/compose/network.ts:311-313 | owner and name are determined by the Docker name |
| Names.VolumeNameReadsBackIff | agent/src/compose/volume.ts:116-142 | app id and volume name are recovered if and only if the name has no space |
| Names.VolumeClaimedIff | agent/src/compose/volume.ts:120-142 | which volume names of any kind are claimed, and as which app id and name: the first digit run before an underscore and what follows |
| Names.ParseIntMeans | agent/src/compose/network.ts:68-88 | which number a label or owner is read as: the digits that stand first after spaces and a sign |
| Names.ParseIntIff | agent/src/compose/network.ts:68-88 | a text is a number if and only if it has such digits |
| Names.HexMeans | agent/src/compose/network.ts:46-66 | the characters an owner may have, one by one |
| NetworkRoundTrip.ReadBackConfig | agent/src/compose/network.ts:68-224 | the configuration read back from an engine, field by field |
| NetworkRoundTrip.ReadableIff | agent/src/compose/network.ts:68-88 | the network is readable if and only if its labels leave the app id legible, and then under its own name and ids |
| NetworkRoundTrip.SecondCreateIsNoOpIff | agent/src/compose/network-manager.ts:31-55 | creating a network again is a no-op if and only if labels leave the agent's own alone and the engine chose no address ranges |
| NetworkRoundTrip.ExistingEqualsWantedIff | agent/src/compose/network.ts:269-290 | compared the other way round, chosen ranges are forgiven except for config-only networks |
| NetworkRoundTrip.AsksFor | agent/src/compose/network.ts:90-224 | what is asked of the engine for a compose network, option by option, defaults and labels included |
| NetworkRoundTrip.EqualConfigIff | agent/src/compose/network.ts:269-290 | when one configuration is taken for equal to another, field by field |
| NetworkRoundTrip.ExistingNetworkAcceptedIff | agent/src/compose/network-manager.ts:31-55 | another compose object under the name of an existing network is accepted if and only if they agree field by field, and otherwise an error; nothing changes either way |
| VolumeRoundTrip.VolumeReadsBackIff | agent/src/compose/volume.ts:28-66 | a volume comes back equal if and only if its name has no space |
| VolumeRoundTrip.AsksFor | agent/src/compose/volume.ts:41-66 | what is asked of the engine for a compose volume, option by option |
| VolumeRoundTrip.ExistingVolumeAcceptedIff | agent/src/compose/volume-manager.ts:46-67 | an existing volume is accepted if and only if both compose objects ask for the same, whatever the app uuids |
| Housekeeper.TaskRunner.RunTask | housekeeper/src/housekeeper.ts:88-95 | goes ahead exactly when the name is not running |
| Housekeeper.TaskRunner.RegisterOne | housekeeper/src/housekeeper.ts:168-203 | registers a new name once, with a ticking job if it has a schedule, and nothing when disabled |
| Housekeeper.TaskRunner.UnregisterOne | housekeeper/src/housekeeper.ts:208-219 | removes the name and the job its task has |
| Housekeeper.TaskRunner.BeginToggle | housekeeper/src/housekeeper.ts:263-276 | throws for an unknown name, otherwise awaits its write |
| Housekeeper.TaskRunner.ResumeToggle | housekeeper/src/housekeeper.ts:268-286 | starts or stops the job if the write succeeded and the task still has it |
| Housekeeper.TaskRunner.RunTaskManually | housekeeper/src/housekeeper.ts:224-231 | throws for an unknown name, otherwise triggers a run |
| Housekeeper.TaskRunner.ResumeAfterInsert | housekeeper/src/housekeeper.ts:102-120 | the new row belongs to the call, or the call ends without one |
| Housekeeper.TaskRunner.ResumeAfterBody | housekeeper/src/housekeeper.ts:118-162 | a body that resolves, fails with an error, or rejects with nothing |
| Housekeeper.TaskRunner.ResumeAfterSuccess | housekeeper/src/housekeeper.ts:131-139 | a failed success update goes on to an error update |
| Housekeeper.TaskRunner.ResumeAfterError | housekeeper/src/housekeeper.ts:151-162 | the name is released whatever the database answers |
| Housekeeper.TaskRunner.RunStartupTasks | housekeeper/src/housekeeper.ts:353-376 | immediate tasks begin and delayed ones get a timer, in order |
| Housekeeper.TaskRunner.Shutdown | housekeeper/src/housekeeper.ts:384-399 | deletes the cron job of every listed task and clears every startup timer |
| Housekeeper.TaskRunner.FinishShutdown | housekeeper/src/housekeeper.ts:401-420 | clears the list and stops no job |
| HousekeeperRuns.EveryRunIsExclusive | housekeeper/src/housekeeper.ts:88-163 | under every interleaving the running names are exactly those with a call in flight, one call each, each past its insert on a row of its own |
| HousekeeperRuns.TriggerBeginsIff | housekeeper/src/housekeeper.ts:224-231 | a manual trigger has no effect at all if a call is in flight, and begins one call otherwise |
| HousekeeperRuns.StepTidyIff | housekeeper/src/housekeeper.ts:102-162 | one event keeps every row at running while held and then once success or error, if and only if the database does not mislead and no body rejects with nothing |
| HousekeeperRuns.RowsTidyIff | housekeeper/src/housekeeper.ts:88-163 | the same at every point of every run |
| HousekeeperRuns.EachCompletionReleases | housekeeper/src/housekeeper.ts:160-162 | each completion brings its call closer to releasing its name, and nothing else moves it |
| HousekeeperRows.RowsTellTheirCalls | housekeeper/src/housekeeper.ts:88-163 | over every run each row bears the name and trigger of the event that began its call, and has a success exactly where the body resolved and that write took effect, and an error exactly where the body failed or the success write threw and that write took effect |
| HousekeeperRegistry.RunningMeans | housekeeper/src/housekeeper.ts:88-95 | which events bring a name to be running: a tick of its job, its timer, a manual run of a registered task, the startup loop for a task to be run at once |
| HousekeeperRegistry.TasksMean | housekeeper/src/housekeeper.ts:168-219 | what each event does to the list of tasks |
| HousekeeperRegistry.JobTicksIff | housekeeper/src/housekeeper.ts:168-286 | a job ticks from its registration until it is toggled off, its task is unregistered, or a shutdown begins with its task listed |
| HousekeeperRegistry.ToggleKeepsJob | housekeeper/src/housekeeper.ts:263-286 | a toggle is for the job its task had when it began |
| HousekeeperRegistry.TimersMean | housekeeper/src/housekeeper.ts:353-399 | the startup loop sets one timer for each delayed task, each elapses once, a shutdown clears them all |
| HousekeeperRuns.ShutdownLeavesManualRuns | housekeeper/src/housekeeper.ts:384-399 | the start of a shutdown silences all jobs if and only if none without a task is alive; from then on, while no task with a schedule is registered and no startup loop runs, only manual calls begin |
| HousekeeperRuns.OrphanArisesIff | housekeeper/src/housekeeper.ts:384-420 | a job loses its task exactly where a shutdown ends with the task listed, and is not stopped afterwards except by a toggle under way |
| HousekeeperRuns.OrphansAreLate | housekeeper/src/housekeeper.ts:384-420 | over every run, each such job was made by a registration while a shutdown waited |
| HousekeeperRuns.UnregisteredBeginsIff | housekeeper/src/housekeeper.ts:168-219 | in every reachable state a call of an unregistered name begins exactly with its pending startup timer or a tick of a job that lost its task, while it is not running |
| HousekeeperRuns.UnregisteringStopsIff | housekeeper/src/housekeeper.ts:208-219 | unregistering stops a task for good if and only if no startup timer of its name is pending and no job of the name that lost its task is alive |
| Sanitizer.EscapeIsPerCharacter | postoffice/src/sanitizer.ts:41-42 | the three replacements in sequence translate each character once |
| Sanitizer.EscapedHasNoBrackets | postoffice/src/sanitizer.ts:41-42 | escaped text has no angle bracket |
| Sanitizer.DecodeUndoesEscape | postoffice/src/sanitizer.ts:41-42 | decoding the entities in one pass gives back the original |
| Sanitizer.EscapeIsInjective | postoffice/src/sanitizer.ts:41-42 | different texts never look the same once escaped |
| Sanitizer.SanitizedHtmlReadsBack | postoffice/src/sanitizer.ts:8-17 | deleting the inserted breaks and decoding gives back the original |
| Sanitizer.NoBareDots | postoffice/src/sanitizer.ts:8-17 | in the text each full stop, and nothing else, becomes a space, and each one in the markup stands right after a hidden break |

## Left out

- Manager.ContainerManager.RestartUnhealthyContainer: runs to its end; it comes between passes and does not interleave with one, and monitoring and log attachment of the new container are not part of it.
- Manager.ContainerManager.SyncCurrentStateFromDocker: a sync does not run in the middle of a pass, and every listed container can be inspected.
- Manager.ContainerManager.ExecuteStep: service error marks and their reset, step pauses and the simulated mode are not modelled.
- Stabilisation.Stabilises: counts passes that begin with a sync; passes without one, as the timer of the automatic reconciliation makes them, are part of the runs it recovers from. It wants services running, or paused with a container already there; a missing service wanted paused or stopped is never started, and its networks are created again every pass.
- KeepWhileUsed.KeptWhileUsed: for volumes, about targets whose entries name a destination, and about the volume names that entries mention; the managed volume itself is never mounted, see `CreatedVolumeMountedIff`.
- Stabilisation.SettlesIffSound: for targets in which no app's network prefix is another app's id.
- Stabilisation.StoppedNeverSettles: says nothing of a service wanted stopped whose mode names a network of the app that is missing or not wanted.
- Engine.DockerEngine.StartContainer: container names, mounts, variables and restart policies that Docker finds malformed are not refused, modes that name networks outside the app or other containers find them there, the image is there and its name is reported as asked, port ranges and host-port clashes are not modelled, ports are listed whatever the status, and a container whose start fails is not left behind.
- Engine.DockerEngine.CreateNetwork: the error for an existing network with another configuration is stated in `NetworkRoundTrip`, not in the reconciler's runs.
- Engine.DockerEngine.RemoveNetwork: finds the networks by owner and name, not through the engine's listing and the parsing of its names.
- ReadBack.NetworksReadBack: on an engine that lists networks in the order they were joined.
- Docker's created, restarting, removing and dead states, containers created but not started, host-port clashes, and pulls made inside a start.
- Services written in the flat format with networks and volumes outside `config`, user labels that override the agent's own on containers, resource limits.
- The `state` field of the view after a step: it keeps old values until the next sync, and only ids are claimed.
- Persistence of current and target state in the local database, target clean-up, hashing, logging and events to the cloud.
- Health probe delays and periods, the check executor, the text of the last check, and exceptions thrown by listeners.
- Sensor rows' uuid and time stamps; rows changed by anything other than the reconciler; exceptions thrown by listeners after a step.
- ConfigEvents.ConfigManager.UpdateConfig: values are represented by their JSON text, so two values with one text are the same value; values changed after they were handed over, and listeners that throw or call back into the store, are not modelled.
- App ids beyond the exact range of a double; removal of networks through the engine's listing; backup and migration of volumes.
- Housekeeper time stamps, captured output, the config table, cron parsing, the length of a shutdown's wait, and the end of the process after a rejection nobody handles.
- The timestamps of sanitised log entries.
- Circuit breaker, message transport, HTTP routes, user interface, billing, simulators and machine learning.
