/** The health-check manager as a step machine over timers and checks in
    flight (agent/src/compose/health-check-manager.ts). The functions on `State`
    specify the methods of the class at the end. */
module Health {
  import opened Basics
  import opened HealthCounters

  type Cid = nat

  datatype ProbeType = Startup | Liveness | Readiness

  datatype Probe = Probe(successThreshold: Option<int>, failureThreshold: Option<int>)
  {
    /** An absent threshold and zero both mean the default. */
    function Thresholds(): HealthCounters.Thresholds {
      HealthCounters.Thresholds(OrNumber(successThreshold, 1), OrNumber(failureThreshold, 3))
    }
  }

  function OrNumber(o: Option<int>, default: int): int {
    if o.Some? && o.value != 0 then o.value else default
  }

  datatype ProbeKey = ProbeKey(id: Cid, kind: ProbeType)

  datatype ProbeState = ProbeState(probe: Probe, counters: Counters, timerId: Option<nat>)

  datatype ContainerHealth = ContainerHealth(isLive: bool, isReady: bool, isStarted: bool)

  datatype Monitor = Monitor(id: Cid, startup: Option<Probe>, liveness: Option<Probe>, readiness: Option<Probe>)
  {
    function ProbeFor(kind: ProbeType): Option<Probe> {
      match kind
      case Startup => startup
      case Liveness => liveness
      case Readiness => readiness
    }
  }

  datatype Signal =
    | StartupCompleted(id: Cid)
    | LivenessFailed(id: Cid)
    | ReadinessChanged(id: Cid, ready: bool)

  /** `timers` are the pending timeouts, `checks` the executor calls awaited;
      both carry ids drawn from `next`. `signals` is what has been emitted. */
  datatype State = State(
    probes: map<ProbeKey, ProbeState>,
    health: map<Cid, ContainerHealth>,
    timers: map<nat, ProbeKey>,
    checks: map<nat, ProbeKey>,
    next: nat,
    signals: seq<Signal>)

  const EMPTY: State := State(map[], map[], map[], map[], 0, [])

  // ------------------------------------------------------------------- steps

  function ScheduleNext(s: State, key: ProbeKey): State {
    if key !in s.probes then s
    else s.(timers := s.timers[s.next := key],
            probes := s.probes[key := s.probes[key].(timerId := Some(s.next))],
            next := s.next + 1)
  }

  function StartProbe(s: State, key: ProbeKey, probe: Option<Probe>): State {
    if probe.None? then s
    else s.(timers := s.timers[s.next := key],
            probes := s.probes[key := ProbeState(probe.value, INITIAL, Some(s.next))],
            next := s.next + 1)
  }

  function Start(s: State, m: Monitor): State {
    var s0 := s.(health := s.health[m.id := ContainerHealth(true, false, m.startup.None?)]);
    var s1 := StartProbe(s0, ProbeKey(m.id, Startup), m.startup);
    var s2 := StartProbe(s1, ProbeKey(m.id, Liveness), m.liveness);
    StartProbe(s2, ProbeKey(m.id, Readiness), m.readiness)
  }

  function StopProbe(s: State, key: ProbeKey): State {
    if key !in s.probes then s
    else
      var t := s.probes[key].timerId;
      s.(timers := if t.Some? then s.timers - {t.value} else s.timers, probes := s.probes - {key})
  }

  function Stop(s: State, id: Cid): State {
    var s1 := StopProbe(s, ProbeKey(id, Startup));
    var s2 := StopProbe(s1, ProbeKey(id, Liveness));
    var s3 := StopProbe(s2, ProbeKey(id, Readiness));
    s3.(health := s3.health - {id})
  }

  /** A timer fires: either the probe waits for startup, or its check begins. */
  function Fire(s: State, t: nat): State
    requires t in s.timers
  {
    var key := s.timers[t];
    var fired := s.(timers := s.timers - {t});
    if key !in s.probes then fired
    else if key.kind != Startup && key.id in s.health && !s.health[key.id].isStarted then ScheduleNext(fired, key)
    else fired.(checks := fired.checks[fired.next := key], next := fired.next + 1)
  }

  function StatusChanged(s: State, key: ProbeKey, status: HealthStatus): State {
    if key.id !in s.health then s
    else
      var h := s.health[key.id];
      var now := status == Healthy;
      match key.kind
      case Startup =>
        if now then s.(health := s.health[key.id := h.(isStarted := true)], signals := s.signals + [StartupCompleted(key.id)])
        else s
      case Liveness =>
        s.(health := s.health[key.id := h.(isLive := now)],
           signals := s.signals + if status == Unhealthy then [LivenessFailed(key.id)] else [])
      case Readiness =>
        s.(health := s.health[key.id := h.(isReady := now)],
           signals := s.signals + if h.isReady != now then [ReadinessChanged(key.id, now)] else [])
  }

  function ProcessResult(s: State, key: ProbeKey, ok: bool): State {
    if key !in s.probes then s
    else
      var p := s.probes[key];
      var c := Count(p.counters, p.probe.Thresholds(), ok);
      var counted := s.(probes := s.probes[key := p.(counters := c)]);
      if c.status != p.counters.status then StatusChanged(counted, key, c.status) else counted
  }

  /** Starting probes neither reads nor writes the flags. */
  lemma SetsHealthAside(s: State, m: Monitor)
    ensures var h0 := s.health[m.id := ContainerHealth(true, false, false)];
      var s1 := StartProbe(s.(health := h0), ProbeKey(m.id, Startup), m.startup);
      var s2 := StartProbe(s1, ProbeKey(m.id, Liveness), m.liveness);
      var s3 := StartProbe(s2, ProbeKey(m.id, Readiness), m.readiness);
      && s3.health == h0
      && Start(s, m) == s3.(health := h0[m.id := ContainerHealth(true, false, m.startup.None?)])
  {}

  /** The result makes a liveness probe unhealthy. */
  predicate FailsLiveness(s: State, key: ProbeKey, ok: bool) {
    && key in s.probes && key.kind == Liveness && key.id in s.health
    && s.probes[key].counters.status != Unhealthy
    && Count(s.probes[key].counters, s.probes[key].probe.Thresholds(), ok).status == Unhealthy
  }

  /** A check comes back. If it fails a liveness probe of a container the agent
      knows, the restart handler stops monitoring before it first waits. */
  function Return(s: State, c: nat, ok: bool, known: bool): State
    requires c in s.checks
  {
    var key := s.checks[c];
    var back := s.(checks := s.checks - {c});
    var processed := ProcessResult(back, key, ok);
    var handled := if known && FailsLiveness(back, key, ok) then Stop(processed, key.id) else processed;
    ScheduleNext(handled, key)
  }

  // --------------------------------------------------------------- the object

  class HealthCheckManager {
    var probes: map<ProbeKey, ProbeState>
    var containerHealth: map<Cid, ContainerHealth>
    var timers: map<nat, ProbeKey>
    var checks: map<nat, ProbeKey>
    var next: nat
    var signals: seq<Signal>

    constructor ()
      ensures Contents() == EMPTY
    {
      probes, containerHealth, timers, checks, next, signals := map[], map[], map[], map[], 0, [];
    }

    function Contents(): State
      reads this
    {
      State(probes, containerHealth, timers, checks, next, signals)
    }

    method StartMonitoring(m: Monitor)
      modifies this
      ensures Contents() == Start(old(Contents()), m)
    {
      containerHealth := containerHealth[m.id := ContainerHealth(true, false, false)];
      StartOneProbe(ProbeKey(m.id, Startup), m.startup);
      StartOneProbe(ProbeKey(m.id, Liveness), m.liveness);
      StartOneProbe(ProbeKey(m.id, Readiness), m.readiness);
      SetsHealthAside(old(Contents()), m);
      hide StartProbe;
      if m.startup.None? {
        containerHealth := containerHealth[m.id := containerHealth[m.id].(isStarted := true)];
      }
    }

    method StartOneProbe(key: ProbeKey, probe: Option<Probe>)
      modifies this
      ensures Contents() == StartProbe(old(Contents()), key, probe)
    {
      if probe.Some? {
        probes := probes[key := ProbeState(probe.value, INITIAL, Some(next))];
        timers := timers[next := key];
        next := next + 1;
      }
    }

    method StopMonitoring(id: Cid)
      modifies this
      ensures Contents() == Stop(old(Contents()), id)
    {
      StopOneProbe(ProbeKey(id, Startup));
      StopOneProbe(ProbeKey(id, Liveness));
      StopOneProbe(ProbeKey(id, Readiness));
      containerHealth := containerHealth - {id};
    }

    method StopOneProbe(key: ProbeKey)
      modifies this
      ensures Contents() == StopProbe(old(Contents()), key)
    {
      if key in probes {
        var t := probes[key].timerId;
        if t.Some? { timers := timers - {t.value}; }
        probes := probes - {key};
      }
    }

    /** The timeout callback, up to the point where the check is awaited. */
    method PerformCheck(t: nat)
      requires t in timers
      modifies this
      ensures Contents() == Fire(old(Contents()), t)
    {
      var key := timers[t];
      timers := timers - {t};
      if key !in probes {
        return;
      }
      if key.kind != Startup {
        if key.id in containerHealth && !containerHealth[key.id].isStarted {
          ScheduleNextCheck(key);
          return;
        }
      }
      checks := checks[next := key];
      next := next + 1;
    }

    /** The rest of the check once its result is known. */
    method ResumeCheck(c: nat, ok: bool, known: bool)
      requires c in checks
      modifies this
      ensures Contents() == Return(old(Contents()), c, ok, known)
    {
      var key := checks[c];
      checks := checks - {c};
      var failed := ProcessOne(key, ok);
      if failed && known { StopMonitoring(key.id); }
      ScheduleNextCheck(key);
    }

    method ProcessOne(key: ProbeKey, ok: bool) returns (failed: bool)
      modifies this
      ensures Contents() == ProcessResult(old(Contents()), key, ok)
      ensures failed == FailsLiveness(old(Contents()), key, ok)
    {
      failed := false;
      if key !in probes {
        return;
      }
      var p := probes[key];
      var th := p.probe.Thresholds();
      var c := p.counters;
      if ok {
        c := Counters(c.status, c.successes + 1, 0);
        if c.successes >= th.success && c.status != Healthy { c := c.(status := Healthy); }
      } else {
        c := Counters(c.status, 0, c.failures + 1);
        if c.failures >= th.failure && c.status != Unhealthy { c := c.(status := Unhealthy); }
      }
      probes := probes[key := p.(counters := c)];
      if c.status != p.counters.status { failed := HandleStatusChange(key, c.status); }
    }

    method HandleStatusChange(key: ProbeKey, status: HealthStatus) returns (failed: bool)
      modifies this
      ensures Contents() == StatusChanged(old(Contents()), key, status)
      ensures failed == (key.id in containerHealth && key.kind == Liveness && status == Unhealthy)
    {
      failed := false;
      if key.id !in containerHealth {
        return;
      }
      var h := containerHealth[key.id];
      match key.kind
      case Startup =>
        if status == Healthy {
          containerHealth := containerHealth[key.id := h.(isStarted := true)];
          signals := signals + [StartupCompleted(key.id)];
        }
      case Liveness =>
        containerHealth := containerHealth[key.id := h.(isLive := status == Healthy)];
        if status == Unhealthy {
          signals := signals + [LivenessFailed(key.id)];
          failed := true;
        }
      case Readiness =>
        var wasReady := h.isReady;
        containerHealth := containerHealth[key.id := h.(isReady := status == Healthy)];
        if wasReady != (status == Healthy) {
          signals := signals + [ReadinessChanged(key.id, status == Healthy)];
        }
    }

    method ScheduleNextCheck(key: ProbeKey)
      modifies this
      ensures Contents() == ScheduleNext(old(Contents()), key)
    {
      if key in probes {
        probes := probes[key := probes[key].(timerId := Some(next))];
        timers := timers[next := key];
        next := next + 1;
      }
    }
  }
}
