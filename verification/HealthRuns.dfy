/** The timer protocol of the health-check manager, over every interleaving of
    starts, stops, timeouts and returning checks. */
module HealthRuns {
  import opened Basics
  import opened HealthCounters
  import opened Health

  datatype Event =
    | Begin(m: Monitor)
    | End(id: Cid)
    | Tick(t: nat)
    | Result(c: nat, ok: bool, known: bool)

  function TimersOf(s: State, key: ProbeKey): set<nat> {
    set t | t in s.timers && s.timers[t] == key
  }

  function ChecksOf(s: State, key: ProbeKey): set<nat> {
    set c | c in s.checks && s.checks[c] == key
  }

  /** Nothing of this container is left in the manager. A fresh id is unused. */
  ghost predicate Unused(s: State, id: Cid) {
    && id !in s.health
    && forall kind :: ChecksOf(s, ProbeKey(id, kind)) == {}
  }

  ghost predicate Enabled(s: State, e: Event) {
    match e
    case Begin(m) => Unused(s, m.id)
    case End(_) => true
    case Tick(t) => t in s.timers
    case Result(c, _, _) => c in s.checks
  }

  function Step(s: State, e: Event): State {
    match e
    case Begin(m) => Start(s, m)
    case End(id) => Stop(s, id)
    case Tick(t) => if t in s.timers then Fire(s, t) else s
    case Result(c, ok, known) => if c in s.checks then Return(s, c, ok, known) else s
  }

  // ---------------------------------------------------- one activity per probe

  /** One pending timer, the one the probe records, or one check in flight. */
  ghost predicate Busy(s: State, key: ProbeKey)
    requires key in s.probes
  {
    || (s.probes[key].timerId.Some? && TimersOf(s, key) == {s.probes[key].timerId.value} && ChecksOf(s, key) == {})
    || (TimersOf(s, key) == {} && exists c :: ChecksOf(s, key) == {c})
  }

  /** The timer a probe records is its own for as long as it is pending. */
  ghost predicate Recorded(s: State, key: ProbeKey)
    requires key in s.probes
  {
    s.probes[key].timerId.Some? ==>
      var t := s.probes[key].timerId.value;
      t < s.next && (t in s.timers ==> s.timers[t] == key)
  }

  ghost predicate Resting(s: State, key: ProbeKey) {
    TimersOf(s, key) == {} && ChecksOf(s, key) == {}
  }

  /** Every registered probe is busy, save perhaps `except`, which rests. */
  ghost predicate Active(s: State, except: Option<ProbeKey>) {
    && (forall t <- s.timers :: t < s.next)
    && (forall c <- s.checks :: c < s.next)
    && (forall key <- s.probes :: Recorded(s, key))
    && (forall key: ProbeKey ::
          if key in s.probes then (if except == Some(key) then Resting(s, key) else Busy(s, key))
          else TimersOf(s, key) == {})
  }

  /** Only timers, checks and registrations matter to activity. */
  lemma ActiveSame(s: State, s': State, except: Option<ProbeKey>)
    requires Active(s, except) && s'.timers == s.timers && s'.checks == s.checks && s'.next == s.next
    requires s'.probes.Keys == s.probes.Keys
    requires forall key <- s.probes :: s'.probes[key].timerId == s.probes[key].timerId
    ensures Active(s', except)
  {
    forall key: ProbeKey
      ensures TimersOf(s', key) == TimersOf(s, key) && ChecksOf(s', key) == ChecksOf(s, key)
    {}
  }

  /** A new timer for a probe that is registered and rests, or is new. */
  lemma TimerAdded(s: State, s': State, key: ProbeKey, p: ProbeState)
    requires Active(s, if key in s.probes then Some(key) else None) && ChecksOf(s, key) == {}
    requires p.timerId == Some(s.next)
    requires s'.timers == s.timers[s.next := key] && s'.probes == s.probes[key := p]
    requires s'.checks == s.checks && s'.next == s.next + 1
    ensures Active(s', None)
  {
    assert s.next !in s.timers;
    forall o: ProbeKey
      ensures TimersOf(s', o) == (if o == key then {s.next} else TimersOf(s, o)) && ChecksOf(s', o) == ChecksOf(s, o)
    {}
  }

  lemma ScheduleActive(s: State, key: ProbeKey)
    requires Active(s, Some(key))
    ensures Active(ScheduleNext(s, key), None)
  {
    if key in s.probes {
      TimerAdded(s, ScheduleNext(s, key), key, s.probes[key].(timerId := Some(s.next)));
    }
  }

  lemma StartProbeActive(s: State, key: ProbeKey, probe: Option<Probe>)
    requires Active(s, None) && key !in s.probes && ChecksOf(s, key) == {}
    ensures Active(StartProbe(s, key, probe), None)
    ensures StartProbe(s, key, probe).checks == s.checks
    ensures StartProbe(s, key, probe).probes.Keys == s.probes.Keys + if probe.Some? then {key} else {}
  {
    if probe.Some? {
      TimerAdded(s, StartProbe(s, key, probe), key, ProbeState(probe.value, INITIAL, Some(s.next)));
    }
  }

  /** Stopping a probe clears its timers, for it has at most the one it records. */
  lemma StopProbeClears(s: State, key: ProbeKey, except: Option<ProbeKey>, o: ProbeKey)
    requires Active(s, except)
    ensures ChecksOf(StopProbe(s, key), o) == ChecksOf(s, o)
    ensures TimersOf(StopProbe(s, key), o) == if o == key then {} else TimersOf(s, o)
  {
    assert key in s.probes && except != Some(key) ==> Busy(s, key);
    forall t | t in s.timers && s.timers[t] == key
      ensures t !in StopProbe(s, key).timers
    {
      assert t in TimersOf(s, key);
    }
  }

  lemma StopProbeEffect(s: State, key: ProbeKey)
    ensures var s' := StopProbe(s, key);
      && s'.probes == s.probes - {key} && s'.checks == s.checks && s'.next == s.next
      && forall t <- s'.timers :: t in s.timers && s'.timers[t] == s.timers[t]
  {}

  /** What activity asks of one probe. */
  ghost predicate ActiveAt(s: State, except: Option<ProbeKey>, o: ProbeKey) {
    if o in s.probes then Recorded(s, o) && (if except == Some(o) then Resting(s, o) else Busy(s, o))
    else TimersOf(s, o) == {}
  }

  lemma ActiveIsAll(s: State, except: Option<ProbeKey>)
    ensures Active(s, except) <==>
      && (forall t <- s.timers :: t < s.next)
      && (forall c <- s.checks :: c < s.next)
      && forall o: ProbeKey :: ActiveAt(s, except, o)
  {
    hide TimersOf, Busy, Resting, Recorded;
    if forall o: ProbeKey :: ActiveAt(s, except, o) {
      forall o: ProbeKey
        ensures o in s.probes ==> Recorded(s, o) && (if except == Some(o) then Resting(s, o) else Busy(s, o))
        ensures o !in s.probes ==> TimersOf(s, o) == {}
      {
        assert ActiveAt(s, except, o);
      }
    }
  }

  lemma StopProbeAt(s: State, key: ProbeKey, except: Option<ProbeKey>, o: ProbeKey)
    requires Active(s, except)
    ensures ActiveAt(StopProbe(s, key), except, o)
  {
    StopProbeClears(s, key, except, o);
    StopProbeEffect(s, key);
    ActiveIsAll(s, except);
    assert ActiveAt(s, except, o);
    hide Active, StopProbe, TimersOf, ChecksOf;
  }

  lemma StopProbeActive(s: State, key: ProbeKey, except: Option<ProbeKey>)
    requires Active(s, except)
    ensures Active(StopProbe(s, key), except)
  {
    hide *;
    StopProbeEffect(s, key);
    ActiveIsAll(s, except);
    ActiveIsAll(StopProbe(s, key), except);
    forall o: ProbeKey
      ensures ActiveAt(StopProbe(s, key), except, o)
    {
      StopProbeAt(s, key, except, o);
    }
  }

  lemma StopActive(s: State, id: Cid, except: Option<ProbeKey>)
    requires Active(s, except)
    ensures Active(Stop(s, id), except) && Stop(s, id).checks == s.checks
    ensures Stop(s, id).probes.Keys == s.probes.Keys - {ProbeKey(id, Startup), ProbeKey(id, Liveness), ProbeKey(id, Readiness)}
  {
    hide Active;
    forall s0: State, key ensures StopProbe(s0, key).probes.Keys == s0.probes.Keys - {key} && StopProbe(s0, key).checks == s0.checks {}
    hide StopProbe;
    var s1 := StopProbe(s, ProbeKey(id, Startup));
    var s2 := StopProbe(s1, ProbeKey(id, Liveness));
    var s3 := StopProbe(s2, ProbeKey(id, Readiness));
    StopProbeActive(s, ProbeKey(id, Startup), except);
    StopProbeActive(s1, ProbeKey(id, Liveness), except);
    StopProbeActive(s2, ProbeKey(id, Readiness), except);
    ActiveSame(s3, Stop(s, id), except);
  }

  lemma StartActive(s: State, m: Monitor)
    requires Active(s, None) && Unused(s, m.id) && forall kind :: ProbeKey(m.id, kind) !in s.probes
    ensures Active(Start(s, m), None)
    ensures forall key: ProbeKey :: key in Start(s, m).probes <==>
      key in s.probes || (key.id == m.id && m.ProbeFor(key.kind).Some?)
  {
    hide Active, ChecksOf, StartProbe;
    var s0 := s.(health := s.health[m.id := ContainerHealth(true, false, m.startup.None?)]);
    var s1 := StartProbe(s0, ProbeKey(m.id, Startup), m.startup);
    var s2 := StartProbe(s1, ProbeKey(m.id, Liveness), m.liveness);
    ActiveSame(s, s0, None);
    SameChecks(s, s0);
    StartProbeActive(s0, ProbeKey(m.id, Startup), m.startup);
    SameChecks(s, s1);
    StartProbeActive(s1, ProbeKey(m.id, Liveness), m.liveness);
    SameChecks(s, s2);
    StartProbeActive(s2, ProbeKey(m.id, Readiness), m.readiness);
  }

  lemma SameChecks(s: State, s': State)
    requires s.checks == s'.checks
    ensures forall key :: ChecksOf(s', key) == ChecksOf(s, key)
  {}

  /** Taking away a pending timer leaves its probe at rest. */
  lemma TimerTaken(s: State, t: nat)
    requires Active(s, None) && t in s.timers
    ensures var key := s.timers[t];
            key in s.probes && Active(s.(timers := s.timers - {t}), Some(key))
  {
    var key := s.timers[t];
    var s' := s.(timers := s.timers - {t});
    assert t in TimersOf(s, key);
    forall o: ProbeKey
      ensures TimersOf(s', o) == TimersOf(s, o) - (if o == key then {t} else {}) && ChecksOf(s', o) == ChecksOf(s, o)
    {}
  }

  /** Taking back a check leaves its probe at rest if it is still registered. */
  lemma CheckTaken(s: State, c: nat)
    requires Active(s, None) && c in s.checks
    ensures var key := s.checks[c];
            Active(s.(checks := s.checks - {c}), if key in s.probes then Some(key) else None)
  {
    var key := s.checks[c];
    var s' := s.(checks := s.checks - {c});
    assert c in ChecksOf(s, key);
    forall o: ProbeKey
      ensures TimersOf(s', o) == TimersOf(s, o) && ChecksOf(s', o) == ChecksOf(s, o) - (if o == key then {c} else {})
    {}
  }

  lemma CheckAdded(s: State, key: ProbeKey)
    requires Active(s, Some(key)) && key in s.probes
    ensures Active(s.(checks := s.checks[s.next := key], next := s.next + 1), None)
  {
    var s' := s.(checks := s.checks[s.next := key], next := s.next + 1);
    assert s.next !in s.checks;
    forall o: ProbeKey
      ensures TimersOf(s', o) == TimersOf(s, o) && ChecksOf(s', o) == ChecksOf(s, o) + (if o == key then {s.next} else {})
    {}
  }

  lemma FireActive(s: State, t: nat)
    requires Active(s, None) && t in s.timers
    ensures Active(Fire(s, t), None)
  {
    hide Active, ScheduleNext;
    var key := s.timers[t];
    var fired := s.(timers := s.timers - {t});
    TimerTaken(s, t);
    ScheduleActive(fired, key);
    CheckAdded(fired, key);
  }

  lemma ProcessActive(s: State, key: ProbeKey, ok: bool, except: Option<ProbeKey>)
    requires Active(s, except)
    ensures Active(ProcessResult(s, key, ok), except)
    ensures ProcessResult(s, key, ok).probes.Keys == s.probes.Keys
  {
    hide Active, Count;
    ProcessTimers(s, key, ok);
    ActiveSame(s, ProcessResult(s, key, ok), except);
  }

  lemma StatusTimers(s: State, key: ProbeKey, status: HealthStatus)
    ensures var s' := StatusChanged(s, key, status);
            && s'.timers == s.timers && s'.checks == s.checks && s'.next == s.next && s'.probes == s.probes
  {}

  /** Processing a result touches no timer, check or registration. */
  lemma ProcessTimers(s: State, key: ProbeKey, ok: bool)
    ensures var s' := ProcessResult(s, key, ok);
            && s'.timers == s.timers && s'.checks == s.checks && s'.next == s.next
            && s'.probes.Keys == s.probes.Keys
            && forall o <- s.probes :: s'.probes[o].timerId == s.probes[o].timerId
  {
    if key in s.probes {
      var p := s.probes[key];
      var c := Count(p.counters, p.probe.Thresholds(), ok);
      StatusTimers(s.(probes := s.probes[key := p.(counters := c)]), key, c.status);
    }
    hide Count, StatusChanged;
  }

  lemma ExceptGone(s: State, key: ProbeKey)
    requires Active(s, Some(key)) && key !in s.probes
    ensures Active(s, None)
  {}

  lemma NothingToSchedule(s: State, key: ProbeKey)
    requires key !in s.probes
    ensures ScheduleNext(s, key) == s
  {}

  lemma ReturnActive(s: State, c: nat, ok: bool, known: bool)
    requires Active(s, None) && c in s.checks
    ensures Active(Return(s, c, ok, known), None)
  {
    hide Active, ScheduleNext, ProcessResult, Stop, FailsLiveness;
    var key := s.checks[c];
    var back := s.(checks := s.checks - {c});
    var except := if key in s.probes then Some(key) else None;
    CheckTaken(s, c);
    ProcessActive(back, key, ok, except);
    var processed := ProcessResult(back, key, ok);
    StopActive(processed, key.id, except);
    var handled := if known && FailsLiveness(back, key, ok) then Stop(processed, key.id) else processed;
    if key in s.probes {
      ScheduleActive(handled, key);
    } else {
      NothingToSchedule(handled, key);
    }
  }

  // ----------------------------------------------------- health follows probes

  predicate HasStatus(s: State, key: ProbeKey, status: HealthStatus) {
    key in s.probes && s.probes[key].counters.status == status
  }

  /** The container is ready exactly when its readiness probe is healthy, live
      exactly when its liveness probe is not unhealthy, and not yet started only
      while a startup probe is registered that is not healthy. */
  ghost predicate Sound(s: State, id: Cid)
    requires id in s.health
  {
    && (s.health[id].isReady <==> HasStatus(s, ProbeKey(id, Readiness), Healthy))
    && (s.health[id].isLive <==> !HasStatus(s, ProbeKey(id, Liveness), Unhealthy))
    && (!s.health[id].isStarted ==> ProbeKey(id, Startup) in s.probes && !HasStatus(s, ProbeKey(id, Startup), Healthy))
  }

  ghost predicate Consistent(s: State) {
    && (forall key <- s.probes :: key.id in s.health)
    && (forall id <- s.health :: Sound(s, id))
  }

  /** A result changes one probe's counters, and at most its container's flag. */
  lemma ProcessEffect(s: State, key: ProbeKey, ok: bool)
    requires key in s.probes && key.id in s.health
    ensures var s' := ProcessResult(s, key, ok);
            var was := s.probes[key].counters.status;
            var now := Count(s.probes[key].counters, s.probes[key].probe.Thresholds(), ok).status;
            var h := s.health[key.id];
            && s'.probes.Keys == s.probes.Keys && s'.health.Keys == s.health.Keys
            && (forall o <- s.probes :: o != key ==> s'.probes[o] == s.probes[o])
            && (forall id <- s.health :: id != key.id ==> s'.health[id] == s.health[id])
            && s'.probes[key].counters.status == now
            && s'.health[key.id] ==
                 if now == was then h
                 else match key.kind
                   case Startup => h.(isStarted := h.isStarted || now == Healthy)
                   case Liveness => h.(isLive := now == Healthy)
                   case Readiness => h.(isReady := now == Healthy)
  {
    var p := s.probes[key];
    CountStatus(p.counters, p.probe.Thresholds(), ok);
    hide Count;
  }

  /** The status never returns to unknown. */
  lemma CountStatus(c: Counters, th: HealthCounters.Thresholds, ok: bool)
    ensures Count(c, th, ok).status == c.status || Count(c, th, ok).status != Unknown
  {}

  lemma OthersSound(s: State, s': State, id: Cid)
    requires id in s.health && id in s'.health && s'.health[id] == s.health[id] && Sound(s, id)
    requires s'.probes.Keys == s.probes.Keys && forall o <- s.probes :: o.id == id ==> s'.probes[o] == s.probes[o]
    ensures Sound(s', id)
  {}

  lemma OwnSound(s: State, key: ProbeKey, ok: bool)
    requires key in s.probes && key.id in s.health && Sound(s, key.id)
    ensures key.id in ProcessResult(s, key, ok).health && Sound(ProcessResult(s, key, ok), key.id)
  {
    ProcessEffect(s, key, ok);
    CountStatus(s.probes[key].counters, s.probes[key].probe.Thresholds(), ok);
    hide ProcessResult, Count;
  }

  lemma ProcessConsistent(s: State, key: ProbeKey, ok: bool)
    requires Consistent(s)
    ensures Consistent(ProcessResult(s, key, ok))
  {
    hide ProcessResult, Count, Sound;
    if key in s.probes {
      var s' := ProcessResult(s, key, ok);
      ProcessEffect(s, key, ok);
      OwnSound(s, key, ok);
      forall id | id in s'.health
        ensures Sound(s', id)
      {
        if id != key.id { OthersSound(s, s', id); }
      }
    } else {
      UnregisteredResult(s, key, ok);
    }
  }

  lemma UnregisteredResult(s: State, key: ProbeKey, ok: bool)
    requires key !in s.probes
    ensures ProcessResult(s, key, ok) == s
  {}

  lemma ProcessCounts(s: State, key: ProbeKey, ok: bool)
    requires key in s.probes
    ensures ProcessResult(s, key, ok).probes.Keys == s.probes.Keys
    ensures ProcessResult(s, key, ok).probes[key]
         == s.probes[key].(counters := Count(s.probes[key].counters, s.probes[key].probe.Thresholds(), ok))
  {
    hide Count;
  }

  lemma ScheduleConsistent(s: State, key: ProbeKey)
    requires Consistent(s)
    ensures Consistent(ScheduleNext(s, key))
  {
    var s' := ScheduleNext(s, key);
    forall id | id in s'.health
      ensures Sound(s', id)
    {
      assert Sound(s, id);
    }
  }

  lemma StopEffect(s: State, id: Cid)
    ensures Stop(s, id).health == s.health - {id}
    ensures Stop(s, id).probes == map key | key in s.probes && key.id != id :: s.probes[key]
    ensures Stop(s, id).signals == s.signals
  {
    var s' := Stop(s, id);
    forall key: ProbeKey
      ensures key in s'.probes <==> key in s.probes && key.id != id
    {
      match key.kind case Startup => case Liveness => case Readiness =>
    }
  }

  lemma StopConsistent(s: State, id: Cid)
    requires Consistent(s)
    ensures Consistent(Stop(s, id))
  {
    StopEffect(s, id);
    hide Stop;
    var s' := Stop(s, id);
    forall o | o in s'.health
      ensures Sound(s', o)
    {
      assert Sound(s, o);
    }
  }

  lemma StartEffect(s: State, m: Monitor)
    requires forall kind :: ProbeKey(m.id, kind) !in s.probes
    ensures var s' := Start(s, m);
            && s'.health == s.health[m.id := ContainerHealth(true, false, m.startup.None?)]
            && s'.signals == s.signals
            && (forall key: ProbeKey :: key in s'.probes <==> key in s.probes || (key.id == m.id && m.ProbeFor(key.kind).Some?))
            && (forall key <- s.probes :: s'.probes[key] == s.probes[key])
            && (forall key <- s'.probes :: key.id == m.id ==>
                  s'.probes[key].counters == INITIAL && Some(s'.probes[key].probe) == m.ProbeFor(key.kind))
  {
    var s' := Start(s, m);
    forall key: ProbeKey
      ensures key in s'.probes <==> key in s.probes || (key.id == m.id && m.ProbeFor(key.kind).Some?)
    {
      match key.kind case Startup => case Liveness => case Readiness =>
    }
  }

  lemma StartConsistent(s: State, m: Monitor)
    requires Consistent(s) && m.id !in s.health
    ensures Consistent(Start(s, m))
  {
    StartEffect(s, m);
    hide Start;
    var s' := Start(s, m);
    forall o | o in s'.health
      ensures Sound(s', o)
    {
      if o != m.id { assert Sound(s, o); }
    }
  }

  /** What holds in every state of every run. */
  ghost predicate Invariant(s: State) {
    Active(s, None) && Consistent(s)
  }

  lemma StepInvariant(s: State, e: Event)
    requires Invariant(s) && Enabled(s, e)
    ensures Invariant(Step(s, e))
  {
    hide Active, Consistent, ScheduleNext, ProcessResult, Start, Stop, FailsLiveness, StartProbe;
    match e
    case Begin(m) =>
      UnusedUnregistered(s, m.id);
      StartActive(s, m);
      StartConsistent(s, m);
    case End(id) =>
      StopActive(s, id, None);
      StopConsistent(s, id);
    case Tick(t) =>
      FireActive(s, t);
      FireConsistent(s, t);
    case Result(c, ok, known) =>
      ReturnActive(s, c, ok, known);
      ReturnConsistent(s, c, ok, known);
  }

  lemma UnusedUnregistered(s: State, id: Cid)
    requires Consistent(s) && Unused(s, id)
    ensures forall kind :: ProbeKey(id, kind) !in s.probes
  {}

  lemma SameHealth(s: State, s': State)
    requires Consistent(s) && s'.probes == s.probes && s'.health == s.health
    ensures Consistent(s')
  {
    forall o | o in s'.health
      ensures Sound(s', o)
    {
      assert Sound(s, o);
    }
  }

  lemma FireConsistent(s: State, t: nat)
    requires Consistent(s) && t in s.timers
    ensures Consistent(Fire(s, t))
  {
    hide Consistent, ScheduleNext;
    var fired := s.(timers := s.timers - {t});
    SameHealth(s, fired);
    ScheduleConsistent(fired, s.timers[t]);
    SameHealth(s, fired.(checks := fired.checks[fired.next := s.timers[t]], next := fired.next + 1));
  }

  lemma ReturnConsistent(s: State, c: nat, ok: bool, known: bool)
    requires Consistent(s) && c in s.checks
    ensures Consistent(Return(s, c, ok, known))
  {
    hide Consistent, ScheduleNext, ProcessResult, Stop, FailsLiveness;
    var key := s.checks[c];
    var back := s.(checks := s.checks - {c});
    SameHealth(s, back);
    ProcessConsistent(back, key, ok);
    var processed := ProcessResult(back, key, ok);
    StopConsistent(processed, key.id);
    ScheduleConsistent(processed, key);
    ScheduleConsistent(Stop(processed, key.id), key);
  }

  // ---------------------------------------------------------------------- runs

  function After(run: seq<Event>): State {
    if run == [] then EMPTY else Step(After(Init(run)), Last(run))
  }

  /** Monitoring begins only for containers of which nothing is left. */
  ghost predicate IsRun(run: seq<Event>) {
    forall i | 0 <= i < |run| :: Enabled(After(run[..i]), run[i])
  }

  lemma RunPrefix(run: seq<Event>, n: nat)
    requires IsRun(run) && n <= |run|
    ensures IsRun(run[..n])
    ensures n < |run| ==> After(run[..n + 1]) == Step(After(run[..n]), run[n])
  {
    hide Enabled, Step;
    forall i | 0 <= i < n
      ensures Enabled(After(run[..n][..i]), run[..n][i])
    {
      assert run[..n][..i] == run[..i];
    }
    if n < |run| { assert Init(run[..n + 1]) == run[..n]; }
  }

  /** In every interleaving each registered probe has exactly one pending timer
      or check in flight, and every container's flags follow its probes. */
  lemma {:induction false} EveryRunInvariant(run: seq<Event>)
    requires IsRun(run)
    ensures Invariant(After(run))
  {
    if run != [] {
      var n := |run| - 1;
      RunPrefix(run, n);
      assert run[..n] == Init(run) && run[..n + 1] == run;
      EveryRunInvariant(Init(run));
      StepInvariant(After(Init(run)), Last(run));
    } else {
      assert forall key :: TimersOf(EMPTY, key) == {};
    }
  }
}
