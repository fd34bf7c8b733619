/** What the signals of the health-check manager tell a listener, over whole runs:
    readiness and startup as they are, and when checks begin and monitoring ends. */
module HealthSignals {
  import opened Basics
  import opened HealthCounters
  import opened Health
  import opened HealthRuns
  import opened HealthSafety

  // ------------------------------------------------------------------- readiness

  /** What the readiness signals about `id` said, in order. */
  function ReadySaid(signals: seq<Signal>, id: Cid): seq<bool> {
    if signals == [] then []
    else
      ReadySaid(Init(signals), id)
      + match Last(signals)
        case ReadinessChanged(x, ready) => if x == id then [ready] else []
        case _ => []
  }

  /** How often startup of `id` was said to be completed. */
  function StartupsSaid(signals: seq<Signal>, id: Cid): nat {
    if signals == [] then 0 else StartupsSaid(Init(signals), id) + (if Last(signals) == StartupCompleted(id) then 1 else 0)
  }

  lemma SaidSnoc(signals: seq<Signal>, x: Signal, id: Cid)
    ensures ReadySaid(signals + [x], id)
         == ReadySaid(signals, id) + if x.ReadinessChanged? && x.id == id then [x.ready] else []
    ensures StartupsSaid(signals + [x], id) == StartupsSaid(signals, id) + if x == StartupCompleted(id) then 1 else 0
  {
    assert Init(signals + [x]) == signals;
  }

  ghost predicate IsReady(s: State, id: Cid) { id in s.health && s.health[id].isReady }

  ghost predicate IsStarted(s: State, id: Cid) { id in s.health && s.health[id].isStarted }

  /** A status change says exactly what it changes. */
  lemma ChangeSays(s: State, key: ProbeKey, status: HealthStatus, id: Cid)
    requires id in s.health
    ensures var t := StatusChanged(s, key, status);
      && id in t.health
      && ReadySaid(t.signals, id)
         == ReadySaid(s.signals, id) + (if t.health[id].isReady == s.health[id].isReady then [] else [t.health[id].isReady])
      && StartupsSaid(t.signals, id)
         == StartupsSaid(s.signals, id) + (if key == ProbeKey(id, Startup) && status == Healthy then 1 else 0)
      && t.health[id].isStarted == (s.health[id].isStarted || (key == ProbeKey(id, Startup) && status == Healthy))
  {
    hide ReadySaid, StartupsSaid;
    if key.id in s.health {
      match key.kind
      case Startup => SaidSnoc(s.signals, StartupCompleted(key.id), id);
      case Liveness =>
        SaidSnoc(s.signals, LivenessFailed(key.id), id);
        assert s.signals + [] == s.signals;
      case Readiness =>
        SaidSnoc(s.signals, ReadinessChanged(key.id, status == Healthy), id);
        assert s.signals + [] == s.signals;
    }
  }

  /** The result turns a probe healthy. */
  predicate TurnsHealthy(s: State, key: ProbeKey, ok: bool) {
    && key in s.probes && s.probes[key].counters.status != Healthy
    && Count(s.probes[key].counters, s.probes[key].probe.Thresholds(), ok).status == Healthy
  }

  lemma ResultSays(s: State, key: ProbeKey, ok: bool, id: Cid)
    requires id in s.health
    ensures var t := ProcessResult(s, key, ok);
      && id in t.health
      && ReadySaid(t.signals, id)
         == ReadySaid(s.signals, id) + (if t.health[id].isReady == s.health[id].isReady then [] else [t.health[id].isReady])
      && StartupsSaid(t.signals, id)
         == StartupsSaid(s.signals, id) + (if key == ProbeKey(id, Startup) && TurnsHealthy(s, key, ok) then 1 else 0)
      && t.health[id].isStarted == (s.health[id].isStarted || (key == ProbeKey(id, Startup) && TurnsHealthy(s, key, ok)))
  {
    if key in s.probes {
      var p := s.probes[key];
      var c := Count(p.counters, p.probe.Thresholds(), ok);
      ChangeSays(s.(probes := s.probes[key := p.(counters := c)]), key, c.status, id);
    }
    hide Count, StatusChanged, ReadySaid, StartupsSaid;
  }

  /** The event delivers a result that turns the probe healthy. */
  predicate MakesHealthy(s: State, e: Event, key: ProbeKey) {
    Delivers(s, e, key) && TurnsHealthy(s, key, e.ok)
  }

  /** Step by step, for a container that is and stays monitored. */
  lemma StepSays(s: State, e: Event, id: Cid)
    requires Consistent(s) && Enabled(s, e) && id in s.health
    ensures var t, startup := Step(s, e), ProbeKey(id, Startup);
      && StartupsSaid(t.signals, id) == StartupsSaid(s.signals, id) + (if MakesHealthy(s, e, startup) then 1 else 0)
      && (id in t.health ==>
        && ReadySaid(t.signals, id)
           == ReadySaid(s.signals, id) + (if t.health[id].isReady == s.health[id].isReady then [] else [t.health[id].isReady])
        && t.health[id].isStarted == (s.health[id].isStarted || MakesHealthy(s, e, startup)))
      && (id !in t.health ==> ReadySaid(t.signals, id) == ReadySaid(s.signals, id))
  {
    hide ReadySaid, StartupsSaid, Start, Stop, Sound, TurnsHealthy;
    match e
    case Begin(m) =>
      UnusedUnregistered(s, m.id);
      StartEffect(s, m);
    case End(x) => StopEffect(s, x);
    case Tick(t) =>
    case Result(c, ok, known) =>
      var key := s.checks[c];
      var back := s.(checks := s.checks - {c});
      ResultSays(back, key, ok, id);
      StopEffect(ProcessResult(back, key, ok), key.id);
      SameProbes(s, back, key, ok);
      if FailsLiveness(back, key, ok) { FailureIsNoChange(back, key, ok, id); }
      hide ProcessResult, FailsLiveness;
  }

  lemma SameProbes(s: State, t: State, key: ProbeKey, ok: bool)
    requires t.probes == s.probes
    ensures TurnsHealthy(t, key, ok) == TurnsHealthy(s, key, ok)
  {}

  lemma FailureIsNoChange(s: State, key: ProbeKey, ok: bool, id: Cid)
    requires id in s.health && FailsLiveness(s, key, ok)
    ensures id in ProcessResult(s, key, ok).health
    ensures ProcessResult(s, key, ok).health[id].isReady == s.health[id].isReady
  {
    ProcessEffect(s, key, ok);
    hide Count, ProcessResult;
  }

  // ------------------------------------------------------------------ whole runs

  /** Container ids are not reused: monitoring of `id` begins at most once. */
  ghost predicate Once(run: seq<Event>, id: Cid) {
    forall i, j | 0 <= i < j < |run| :: !(Begins(run[i], id) && Begins(run[j], id))
  }

  lemma OncePrefix(run: seq<Event>, id: Cid)
    requires run != [] && Once(run, id)
    ensures Once(Init(run), id)
    ensures Begins(Last(run), id) ==> !Begun(Init(run), id)
  {
    assert Last(run) == run[|run| - 1];
    assert forall i | 0 <= i < |Init(run)| :: Init(run)[i] == run[i];
  }

  /** True and false in turn, true first. */
  ghost predicate Alternates(said: seq<bool>) {
    forall i | 0 <= i < |said| :: said[i] <==> i % 2 == 0
  }

  /** The last readiness signal, or not ready if there was none. */
  function LastSaid(said: seq<bool>): bool { if said == [] then false else Last(said) }

  /** Whatever a listener was last told about a container's readiness is what it is,
      and no signal repeats the one before. */
  ghost predicate ReadinessTold(run: seq<Event>, id: Cid) {
    var s := After(run);
    var said := ReadySaid(s.signals, id);
    && Alternates(said)
    && (id in s.health ==> s.health[id].isReady == LastSaid(said))
    && (!Begun(run, id) ==> said == [] && id !in s.health)
  }

  lemma {:induction false} EveryReadinessIsTold(run: seq<Event>, id: Cid)
    requires IsRun(run) && Once(run, id)
    ensures ReadinessTold(run, id)
  {
    if run != [] {
      var n := |run| - 1;
      assert run[..n] == Init(run) && run[..n + 1] == run;
      RunPrefix(run, n);
      StateAt(run, n);
      OncePrefix(run, id);
      EveryReadinessIsTold(Init(run), id);
      BegunSnoc(run, id);
      ReadinessStep(After(Init(run)), Last(run), id);
      hide After, Step, Enabled, Consistent, Active, Begun, Once, ReadySaid, IsRun, Alternates, LastSaid;
    } else {
      assert !Begun([], id);
    }
  }

  lemma ReadinessStep(s: State, e: Event, id: Cid)
    requires Invariant(s) && Enabled(s, e) && Alternates(ReadySaid(s.signals, id))
    requires id in s.health ==> s.health[id].isReady == LastSaid(ReadySaid(s.signals, id))
    requires Begins(e, id) ==> ReadySaid(s.signals, id) == []
    ensures var t := Step(s, e);
      && Alternates(ReadySaid(t.signals, id))
      && (id in t.health ==> t.health[id].isReady == LastSaid(ReadySaid(t.signals, id)))
      && (id !in s.health && !Begins(e, id) ==> id !in t.health && ReadySaid(t.signals, id) == ReadySaid(s.signals, id))
  {
    hide Step, Enabled, Active, Sound, ReadySaid, StartupsSaid, MakesHealthy, Alternates;
    var said := ReadySaid(s.signals, id);
    if id in s.health {
      StepSays(s, e, id);
      SaidInTurn(said, !LastSaid(said));
      assert said + [] == said;
    } else {
      StepSilent(s, e, id);
    }
  }

  lemma SaidInTurn(said: seq<bool>, ready: bool)
    requires Alternates(said) && ready != LastSaid(said)
    ensures Alternates(said + [ready]) && LastSaid(said + [ready]) == ready
  {}

  /** A container that is not monitored is not spoken of, and starts out not ready,
      and started unless it has a startup probe. */
  lemma StepSilent(s: State, e: Event, id: Cid)
    requires Consistent(s) && Enabled(s, e) && id !in s.health
    ensures var t := Step(s, e);
      && ReadySaid(t.signals, id) == ReadySaid(s.signals, id)
      && StartupsSaid(t.signals, id) == StartupsSaid(s.signals, id)
      && (id in t.health <==> Begins(e, id))
      && (id in t.health ==> !t.health[id].isReady && t.health[id].isStarted == e.m.startup.None?)
      && (id in t.health ==> (ProbeKey(id, Startup) in t.probes <==> e.m.startup.Some?))
  {
    hide ReadySaid, StartupsSaid, Sound;
    var more := StepSignals(s, e);
    if more == [] {
      assert s.signals + more == s.signals;
    } else {
      assert more == [more[0]] && About(more[0]) != id;
      SaidSnoc(s.signals, more[0], id);
    }
    if !Begins(e, id) { StepMonitored(s, e, id); }
    if e.Begin? {
      UnusedUnregistered(s, e.m.id);
      StartEffect(s, e.m);
    }
    hide Step, Start;
  }

  // --------------------------------------------------------------------- startup

  /** The event at `i` delivers the startup result that makes the latest decisive run
      of results one of successes. */
  ghost predicate CompletesAt(run: seq<Event>, i: nat, id: Cid)
    requires i < |run|
  {
    var s, key := After(run[..i]), ProbeKey(id, Startup);
    && Delivers(s, run[i], key)
    && var th := s.probes[key].probe.Thresholds();
       !Decided(History(run[..i], key), th, true) && Decided(History(run[..i + 1], key), th, true)
  }

  lemma MakesHealthyIff(run: seq<Event>, i: nat, id: Cid)
    requires IsRun(run) && i < |run|
    ensures MakesHealthy(After(run[..i]), run[i], ProbeKey(id, Startup)) <==> CompletesAt(run, i, id)
  {
    var key, longer := ProbeKey(id, Startup), run[..i + 1];
    var s, e := After(run[..i]), run[i];
    if Delivers(s, e, key) {
      var th := s.probes[key].probe.Thresholds();
      RunPrefix(run, i);
      assert Init(longer) == run[..i] && Last(longer) == e;
      EveryProbeCounts(run[..i], key);
      HistorySnoc(longer, key);
      CountSnoc(History(run[..i], key), e, th);
      CountersRefineHistory(History(run[..i], key), th);
      CountersRefineHistory(History(longer, key), th);
    }
    hide After, History, Decided, Count, Delivers, IsRun;
  }

  /** A completed startup is announced by exactly the results that complete it. */
  lemma StartupToldIff(run: seq<Event>, i: nat, id: Cid)
    requires IsRun(run) && i < |run|
    ensures StartupsSaid(After(run[..i + 1]).signals, id) == StartupsSaid(After(run[..i]).signals, id)
              + if id in After(run[..i]).health && CompletesAt(run, i, id) then 1 else 0
  {
    StateAt(run, i);
    MakesHealthyIff(run, i, id);
    hide After, Step, Enabled, Consistent, Active, CompletesAt, IsRun, StartupsSaid, MakesHealthy;
    var s, e := After(run[..i]), run[i];
    if id in s.health {
      StepSays(s, e, id);
    } else {
      StepSilent(s, e, id);
    }
  }

  ghost predicate Completed(run: seq<Event>, id: Cid) {
    exists i :: 0 <= i < |run| && CompletesAt(run, i, id)
  }

  lemma CompletedSnoc(run: seq<Event>, id: Cid)
    requires run != []
    ensures Completed(run, id) <==> Completed(Init(run), id) || CompletesAt(run, |run| - 1, id)
  {
    forall i | 0 <= i < |run| - 1
      ensures CompletesAt(run, i, id) <==> CompletesAt(Init(run), i, id)
    {
      assert Init(run)[..i] == run[..i] && Init(run)[..i + 1] == run[..i + 1];
    }
    hide CompletesAt;
  }

  ghost predicate StartedOnCompletion(run: seq<Event>, id: Cid) {
    var s := After(run);
    && (!Begun(run, id) ==> !Completed(run, id) && id !in s.health)
    && (id in s.health ==>
         (s.health[id].isStarted <==> ProbeKey(id, Startup) !in s.probes || Completed(run, id)))
  }

  /** A monitored container counts as started exactly if it has no startup probe or a
      result has completed its startup. */
  lemma {:induction false} StartedIffCompleted(run: seq<Event>, id: Cid)
    requires IsRun(run) && Once(run, id)
    ensures StartedOnCompletion(run, id)
  {
    if run != [] {
      var n := |run| - 1;
      assert run[..n] == Init(run) && run[..n + 1] == run;
      RunPrefix(run, n);
      StateAt(run, n);
      OncePrefix(run, id);
      StartedIffCompleted(Init(run), id);
      BegunSnoc(run, id);
      CompletedSnoc(run, id);
      MakesHealthyIff(run, n, id);
      StartupStep(After(Init(run)), Last(run), id);
      hide After, Step, Enabled, Consistent, Active, Begun, Once, IsRun, Completed, CompletesAt, MakesHealthy;
    } else {
      assert !Completed([], id);
    }
  }

  lemma StartupStep(s: State, e: Event, id: Cid)
    requires Invariant(s) && Enabled(s, e)
    ensures var t, key := Step(s, e), ProbeKey(id, Startup);
      && (id !in s.health ==> (id in t.health <==> Begins(e, id)) && !MakesHealthy(s, e, key))
      && (id !in s.health && id in t.health ==> (t.health[id].isStarted <==> key !in t.probes))
      && (id in s.health && id in t.health ==>
        && t.health[id].isStarted == (s.health[id].isStarted || MakesHealthy(s, e, key))
        && (key in t.probes <==> key in s.probes))
      && (Begins(e, id) ==> id !in s.health)
  {
    hide Step, Active, MakesHealthy;
    if id in s.health {
      StepSays(s, e, id);
      if id in Step(s, e).health { ProbesStay(s, e, ProbeKey(id, Startup)); }
    } else {
      StepSilent(s, e, id);
      UnmonitoredIsDeaf(s, e, id);
    }
  }

  lemma UnmonitoredIsDeaf(s: State, e: Event, id: Cid)
    requires Consistent(s) && id !in s.health
    ensures !MakesHealthy(s, e, ProbeKey(id, Startup))
  {}

  /** Monitoring stands or falls with all probes of a container. */
  lemma ProbesStay(s: State, e: Event, key: ProbeKey)
    requires Consistent(s) && Enabled(s, e) && key.id in s.health && key.id in Step(s, e).health
    ensures key in Step(s, e).probes <==> key in s.probes
  {
    hide Start, Stop, Sound, Count;
    match e
    case Begin(m) =>
      UnusedUnregistered(s, m.id);
      StartEffect(s, m);
    case End(x) => StopEffect(s, x);
    case Tick(t) =>
    case Result(c, ok, known) =>
      var from := s.checks[c];
      var back := s.(checks := s.checks - {c});
      StopEffect(ProcessResult(back, from, ok), from.id);
      ProcessTimers(back, from, ok);
      hide ProcessResult, FailsLiveness;
  }

  // ------------------------------------------------------- checks and monitoring

  /** In every reachable state a firing timer begins one check if its container has
      started or the probe is the startup probe, and is set anew otherwise. */
  lemma TickBeginsIff(s: State, t: nat)
    requires Invariant(s) && t in s.timers
    ensures var key, after := s.timers[t], Step(s, Tick(t));
      && key in s.probes && key.id in s.health
      && if key.kind == Startup || s.health[key.id].isStarted
         then TimersOf(after, key) == {} && ChecksOf(after, key) == {s.next}
         else TimersOf(after, key) == {s.next} && ChecksOf(after, key) == {}
  {
    TimerTaken(s, t);
    assert s.next !in s.timers && s.next !in s.checks;
    hide Sound, Busy, Recorded;
  }

  /** Monitoring of a container ends exactly when it is ended, or when a container the
      agent knows is reported to have failed. */
  lemma MonitoredIff(s: State, e: Event, id: Cid)
    requires Invariant(s) && Enabled(s, e)
    ensures id in Step(s, e).health <==>
      || Begins(e, id)
      || (id in s.health && e != End(id)
          && !(e.Result? && e.known && Failures(Step(s, e).signals, id) > Failures(s.signals, id)))
  {
    hide Active, Sound, Failures, Start, Stop;
    StepFailures(s, e, id);
    match e
    case Begin(m) =>
      UnusedUnregistered(s, m.id);
      StartEffect(s, m);
    case End(x) => StopEffect(s, x);
    case Tick(t) =>
    case Result(c, ok, known) =>
      var key := s.checks[c];
      var back := s.(checks := s.checks - {c});
      StopEffect(ProcessResult(back, key, ok), key.id);
      if key in s.probes { ProcessEffect(back, key, ok); } else { UnregisteredResult(back, key, ok); }
      hide ProcessResult, Count;
  }

  /** The results in a row that decide: as given, at least one; by default one success
      or three failures. */
  lemma ThresholdsMean(p: Probe)
    ensures p.Thresholds().For(true) == match p.successThreshold
      case Some(n) => if n > 0 then n else 1
      case None => 1
    ensures p.Thresholds().For(false) == match p.failureThreshold
      case Some(n) => if n > 0 then n else if n == 0 then 3 else 1
      case None => 3
  {}
}
