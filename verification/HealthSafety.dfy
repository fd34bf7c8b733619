/** What whole runs of the health-check manager guarantee: startup gating, silence
    after a stop, statuses that follow the recorded results, and a bound on how
    often a container can be reported as failed. */
module HealthSafety {
  import opened Basics
  import opened HealthCounters
  import opened Health
  import opened HealthRuns

  // ---------------------------------------------------------------- gating

  /** A liveness or readiness check begins only once its container has started. */
  lemma ChecksWaitForStartup(run: seq<Event>, n: nat, c: nat)
    requires IsRun(run) && n < |run|
    requires c !in After(run[..n]).checks && c in After(run[..n + 1]).checks
    requires After(run[..n + 1]).checks[c].kind != Startup
    ensures var id := After(run[..n + 1]).checks[c].id;
            id in After(run[..n]).health && After(run[..n]).health[id].isStarted
  {
    RunPrefix(run, n);
    EveryRunInvariant(run[..n]);
    var s := After(run[..n]);
    assert Enabled(s, run[n]);
    OnlyTicksCheck(s, run[n], c);
  }

  lemma OnlyTicksCheck(s: State, e: Event, c: nat)
    requires Invariant(s) && Enabled(s, e) && c !in s.checks && c in Step(s, e).checks
    ensures e.Tick? && Step(s, e).checks[c] == s.timers[e.t]
    ensures s.timers[e.t] in s.probes && s.timers[e.t].id in s.health
    ensures s.timers[e.t].kind != Startup ==> s.health[s.timers[e.t].id].isStarted
  {
    StepChecks(s, e);
    if e.Tick? { TimerTaken(s, e.t); }
    hide Active, Sound, StartProbe;
  }

  lemma StepChecks(s: State, e: Event)
    requires Enabled(s, e)
    ensures !e.Tick? ==> Step(s, e).checks.Keys <= s.checks.Keys
  {
    hide Count, FailsLiveness;
    match e
    case Result(c, ok, known) => ProcessTimers(s.(checks := s.checks - {c}), s.checks[c], ok);
    case _ =>
  }

  /** Having started is never taken back while the container is monitored. */
  lemma StartedStays(s: State, e: Event, id: Cid)
    requires Invariant(s) && Enabled(s, e)
    requires id in s.health && s.health[id].isStarted && id in Step(s, e).health
    ensures Step(s, e).health[id].isStarted
  {
    hide Active, Start, Stop, Sound, StatusChanged, Count;
    match e
    case Begin(m) =>
      UnusedUnregistered(s, m.id);
      StartEffect(s, m);
    case End(x) => StopEffect(s, x);
    case Tick(t) =>
    case Result(c, ok, known) =>
      var key := s.checks[c];
      var back := s.(checks := s.checks - {c});
      StopEffect(ProcessResult(back, key, ok), key.id);
      if key in s.probes { ProcessEffect(back, key, ok); }
      hide ProcessResult, Stop, FailsLiveness, Count;
  }

  // ------------------------------------------------------- silence after a stop

  function About(signal: Signal): Cid { signal.id }

  ghost predicate Begins(e: Event, id: Cid) { e.Begin? && e.m.id == id }

  lemma ProcessSignals(s: State, key: ProbeKey, ok: bool) returns (more: seq<Signal>)
    ensures ProcessResult(s, key, ok).signals == s.signals + more && |more| <= 1
    ensures more != [] ==> key in s.probes && key.id in s.health && About(more[0]) == key.id
  {
    hide Count;
    more := ProcessResult(s, key, ok).signals[|s.signals|..];
  }

  /** A step adds signals only for a container that is monitored before it. */
  lemma StepSignals(s: State, e: Event) returns (more: seq<Signal>)
    requires Consistent(s) && Enabled(s, e)
    ensures Step(s, e).signals == s.signals + more && |more| <= 1
    ensures more != [] ==>
      && e.Result? && s.checks[e.c] in s.probes
      && About(more[0]) == s.checks[e.c].id && About(more[0]) in s.health
  {
    match e
    case Begin(m) =>
      UnusedUnregistered(s, m.id);
      StartEffect(s, m);
      more := [];
    case End(x) =>
      StopEffect(s, x);
      more := [];
    case Tick(t) =>
      more := [];
    case Result(c, ok, known) =>
      hide Stop, FailsLiveness, ProcessResult, Sound;
      var back := s.(checks := s.checks - {c});
      more := ProcessSignals(back, s.checks[c], ok);
      StopEffect(ProcessResult(back, s.checks[c], ok), s.checks[c].id);
  }

  lemma StepMonitored(s: State, e: Event, id: Cid)
    requires Consistent(s) && Enabled(s, e) && id !in s.health && !Begins(e, id)
    ensures id !in Step(s, e).health
  {
    match e
    case Begin(m) =>
      UnusedUnregistered(s, m.id);
      StartEffect(s, m);
    case End(x) => StopEffect(s, x);
    case Tick(t) =>
    case Result(c, ok, known) =>
      var key := s.checks[c];
      var back := s.(checks := s.checks - {c});
      StopEffect(ProcessResult(back, key, ok), key.id);
      if key in s.probes { ProcessEffect(back, key, ok); }
      hide ProcessResult, Stop, FailsLiveness, Count;
  }

  lemma StateAt(run: seq<Event>, n: nat)
    requires IsRun(run) && n < |run|
    ensures Invariant(After(run[..n])) && Enabled(After(run[..n]), run[n])
    ensures After(run[..n + 1]) == Step(After(run[..n]), run[n])
  {
    hide After, Step, Invariant, Enabled;
    RunPrefix(run, n);
    EveryRunInvariant(run[..n]);
  }

  lemma NextSilence(s: State, e: Event, id: Cid) returns (more: seq<Signal>)
    requires Invariant(s) && Enabled(s, e) && id !in s.health && !Begins(e, id)
    ensures id !in Step(s, e).health && Step(s, e).signals == s.signals + more
    ensures forall x <- more :: About(x) != id
  {
    hide Step, Enabled, Active, Sound;
    more := StepSignals(s, e);
    StepMonitored(s, e, id);
  }

  /** Once a container is not monitored, no signal names it until monitoring
      begins anew, whatever checks are still in flight. */
  lemma {:induction false} NoSignalAfterStop(run: seq<Event>, i: nat, j: nat, id: Cid) returns (more: seq<Signal>)
    requires IsRun(run) && i <= j <= |run| && id !in After(run[..i]).health
    requires forall n | i <= n < j :: !Begins(run[n], id)
    ensures id !in After(run[..j]).health
    ensures After(run[..j]).signals == After(run[..i]).signals + more
    ensures forall x <- more :: About(x) != id
  {
    hide IsRun, After, Step, Invariant, Enabled, Begins;
    if i == j {
      more := [];
    } else {
      var earlier := NoSignalAfterStop(run, i, j - 1, id);
      StateAt(run, j - 1);
      var last := NextSilence(After(run[..j - 1]), run[j - 1], id);
      more := earlier + last;
      assert forall x <- more :: x in earlier || x in last;
    }
  }

  lemma StopEnds(s: State, id: Cid)
    ensures id !in Stop(s, id).health
  {
    StopEffect(s, id);
  }

  // --------------------------------------------------------- recorded results

  /** Event `e` delivers a result to the registered probe `key`. */
  predicate Delivers(s: State, e: Event, key: ProbeKey) {
    e.Result? && e.c in s.checks && s.checks[e.c] == key && key in s.probes
  }

  /** The results delivered to a probe since monitoring last began. */
  function History(run: seq<Event>, key: ProbeKey): seq<bool> {
    if run == [] then []
    else
      var e, earlier := Last(run), History(Init(run), key);
      if e.Begin? && e.m.id == key.id then []
      else if Delivers(After(Init(run)), e, key) then earlier + [e.ok]
      else earlier
  }

  /** The counters of every registered probe count its history. */
  ghost predicate Counted(run: seq<Event>, key: ProbeKey) {
    var s := After(run);
    key in s.probes ==> s.probes[key].counters == CountAll(History(run, key), s.probes[key].probe.Thresholds())
  }

  /** What a step does to one registered probe. */
  lemma StepProbe(s: State, e: Event, key: ProbeKey)
    requires Consistent(s) && Enabled(s, e) && key in Step(s, e).probes
    ensures var p := Step(s, e).probes[key];
            if key !in s.probes then Begins(e, key.id) && p.counters == INITIAL
            else
              && !Begins(e, key.id) && p.probe == s.probes[key].probe
              && p.counters == if Delivers(s, e, key) then Count(s.probes[key].counters, p.probe.Thresholds(), e.ok)
                               else s.probes[key].counters
  {
    hide Start, Stop, Sound, StatusChanged, Count;
    match e
    case Begin(m) =>
      UnusedUnregistered(s, m.id);
      StartEffect(s, m);
    case End(x) => StopEffect(s, x);
    case Tick(t) =>
    case Result(c, ok, known) =>
      var from := s.checks[c];
      var back := s.(checks := s.checks - {c});
      StopEffect(ProcessResult(back, from, ok), from.id);
      if from in s.probes {
        ProcessEffect(back, from, ok);
        ProcessCounts(back, from, ok);
      }
      hide ProcessResult, Stop, FailsLiveness, Count;
  }

  lemma {:induction false} EveryProbeCounts(run: seq<Event>, key: ProbeKey)
    requires IsRun(run)
    ensures Counted(run, key)
  {
    if run != [] {
      hide Step, Enabled, Consistent, Active, Count;
      var n := |run| - 1;
      RunPrefix(run, n);
      assert run[..n] == Init(run) && run[..n + 1] == run;
      EveryRunInvariant(Init(run));
      EveryProbeCounts(Init(run), key);
      if key in After(run).probes {
        StepProbe(After(Init(run)), Last(run), key);
        HistorySnoc(run, key);
        CountSnoc(History(Init(run), key), Last(run), After(run).probes[key].probe.Thresholds());
      }
    }
  }

  lemma HistorySnoc(run: seq<Event>, key: ProbeKey)
    requires run != []
    ensures Begins(Last(run), key.id) ==> History(run, key) == []
    ensures !Begins(Last(run), key.id) ==>
      History(run, key) == History(Init(run), key) + if Delivers(After(Init(run)), Last(run), key) then [Last(run).ok] else []
  {
    hide Delivers;
  }

  lemma CountSnoc(h: seq<bool>, e: Event, th: HealthCounters.Thresholds)
    ensures e.Result? ==> CountAll(h + [e.ok], th) == Count(CountAll(h, th), th, e.ok)
    ensures CountAll([], th) == INITIAL
  {
    if e.Result? { assert Init(h + [e.ok]) == h; }
  }

  /** At every moment of every run a container is reported ready exactly when
      the latest decisive run of readiness results was one of successes, and
      live exactly when the latest decisive run of liveness results was not one
      of failures. */
  lemma FlagsRefineHistory(run: seq<Event>, id: Cid)
    requires IsRun(run) && id in After(run).health
    ensures var s := After(run);
            var r, l := ProbeKey(id, Readiness), ProbeKey(id, Liveness);
            && (s.health[id].isReady <==> r in s.probes && Decided(History(run, r), s.probes[r].probe.Thresholds(), true))
            && (s.health[id].isLive <==> !(l in s.probes && Decided(History(run, l), s.probes[l].probe.Thresholds(), false)))
  {
    EveryRunInvariant(run);
    hide After, History, Active, Decided;
    var s := After(run);
    var r, l := ProbeKey(id, Readiness), ProbeKey(id, Liveness);
    assert Sound(s, id);
    EveryProbeCounts(run, r);
    EveryProbeCounts(run, l);
    if r in s.probes { CountersRefineHistory(History(run, r), s.probes[r].probe.Thresholds()); }
    if l in s.probes { CountersRefineHistory(History(run, l), s.probes[l].probe.Thresholds()); }
  }

  // ------------------------------------------------------------ failure signals

  function Failures(signals: seq<Signal>, id: Cid): nat {
    if signals == [] then 0
    else Failures(Init(signals), id) + (if Last(signals) == LivenessFailed(id) then 1 else 0)
  }

  lemma {:induction false} FailuresConcat(s1: seq<Signal>, s2: seq<Signal>, id: Cid)
    ensures Failures(s1 + s2, id) == Failures(s1, id) + Failures(s2, id)
  {
    if s2 == [] {
      assert s1 + s2 == s1;
    } else {
      FailuresConcat(s1, Init(s2), id);
      assert Init(s1 + s2) == s1 + Init(s2);
    }
  }

  /** Container ids are not reused: monitoring of `id` begins at most once, with
      liveness probe `p`. */
  ghost predicate Fresh(run: seq<Event>, id: Cid, p: Probe) {
    && (forall i, j | 0 <= i < j < |run| :: !(Begins(run[i], id) && Begins(run[j], id)))
    && (forall i | 0 <= i < |run| && Begins(run[i], id) :: run[i].m.liveness == Some(p))
  }

  lemma FreshPrefix(run: seq<Event>, id: Cid, p: Probe)
    requires run != [] && Fresh(run, id, p)
    ensures Fresh(Init(run), id, p)
  {}

  lemma ProcessFailures(s: State, key: ProbeKey, ok: bool, id: Cid)
    ensures Failures(ProcessResult(s, key, ok).signals, id) == Failures(s.signals, id)
              + if key == ProbeKey(id, Liveness) && FailsLiveness(s, key, ok) then 1 else 0
  {
    if key in s.probes { CountStatus(s.probes[key].counters, s.probes[key].probe.Thresholds(), ok); }
    hide Count;
    var more := ProcessSignals(s, key, ok);
    FailuresConcat(s.signals, more, id);
    if more != [] { assert more == [more[0]] && Init(more) == []; }
  }

  /** Step by step: failure signals are exactly the turns to unhealthy. */
  lemma StepFailures(s: State, e: Event, id: Cid)
    requires Consistent(s) && Enabled(s, e)
    ensures var l := ProbeKey(id, Liveness);
            Failures(Step(s, e).signals, id) == Failures(s.signals, id)
              + if Delivers(s, e, l) && FailsLiveness(s, l, e.ok) then 1 else 0
  {
    hide Failures;
    match e
    case Begin(m) =>
      UnusedUnregistered(s, m.id);
      StartEffect(s, m);
    case End(x) => StopEffect(s, x);
    case Tick(t) =>
    case Result(c, ok, known) =>
      var key := s.checks[c];
      var back := s.(checks := s.checks - {c});
      StopEffect(ProcessResult(back, key, ok), key.id);
      ProcessFailures(back, key, ok, id);
      hide Stop, Count, ProcessResult, Sound;
  }

  ghost predicate Begun(run: seq<Event>, id: Cid) { exists e <- run :: Begins(e, id) }

  /** What the failure signals of one liveness probe amount to. */
  ghost predicate Tallied(run: seq<Event>, id: Cid, p: Probe) {
    var l := ProbeKey(id, Liveness);
    && Failures(After(run).signals, id) == Drops(History(run, l), p.Thresholds())
    && (!Begun(run, id) ==> History(run, l) == [] && id !in After(run).health)
    && (l in After(run).probes ==> After(run).probes[l].probe == p)
  }

  lemma {:induction false} EveryFailureIsADrop(run: seq<Event>, id: Cid, p: Probe)
    requires IsRun(run) && Fresh(run, id, p)
    ensures Tallied(run, id, p)
  {
    if run != [] {
      var l := ProbeKey(id, Liveness);
      var n := |run| - 1;
      RunPrefix(run, n);
      assert run[..n] == Init(run) && run[..n + 1] == run;
      assert Enabled(After(run[..n]), run[n]);
      FreshPrefix(run, id, p);
      EveryRunInvariant(Init(run));
      EveryFailureIsADrop(Init(run), id, p);
      EveryProbeCounts(Init(run), l);
      HistorySnoc(run, l);
      BegunSnoc(run, id);
      hide Step, Enabled, Active, Count, History, After, Begun, Drops;
      var s, e := After(Init(run)), Last(run);
      StepFailures(s, e, id);
      if !Begins(e, id) { StepMonitoredIff(s, e, id); }
      TallyStep(s, e, id, p, History(Init(run), l));
      LivenessProbeStays(s, e, id, p);
    }
  }

  lemma BegunSnoc(run: seq<Event>, id: Cid)
    requires run != []
    ensures Begun(run, id) <==> Begun(Init(run), id) || Begins(Last(run), id)
  {
    assert forall e :: e in run <==> e in Init(run) || e == Last(run);
  }

  lemma StepMonitoredIff(s: State, e: Event, id: Cid)
    requires Consistent(s) && Enabled(s, e) && !Begins(e, id)
    ensures id !in s.health ==> id !in Step(s, e).health
  {
    if id !in s.health { StepMonitored(s, e, id); }
  }

  lemma LivenessProbeStays(s: State, e: Event, id: Cid, p: Probe)
    requires Consistent(s) && Enabled(s, e)
    requires ProbeKey(id, Liveness) in s.probes ==> s.probes[ProbeKey(id, Liveness)].probe == p
    requires Begins(e, id) ==> e.m.liveness == Some(p)
    ensures ProbeKey(id, Liveness) in Step(s, e).probes ==> Step(s, e).probes[ProbeKey(id, Liveness)].probe == p
  {
    var l := ProbeKey(id, Liveness);
    if l in Step(s, e).probes {
      StepProbe(s, e, l);
      if e.Begin? {
        UnusedUnregistered(s, e.m.id);
        StartEffect(s, e.m);
      }
      hide Step;
    }
  }

  lemma TallyStep(s: State, e: Event, id: Cid, p: Probe, h: seq<bool>)
    requires Consistent(s) && Enabled(s, e)
    requires var l := ProbeKey(id, Liveness);
             l in s.probes ==> s.probes[l].probe == p && s.probes[l].counters == CountAll(h, p.Thresholds())
    ensures var l := ProbeKey(id, Liveness);
            Delivers(s, e, l) ==>
              Drops(h + [e.ok], p.Thresholds()) == Drops(h, p.Thresholds()) + if FailsLiveness(s, l, e.ok) then 1 else 0
  {
    if e.Result? {
      assert Init(h + [e.ok]) == h;
      CountSnoc(h, e, p.Thresholds());
    }
    hide Count;
  }

  /** Event spacing: `k` failure signals of one liveness probe take at least `k`
      full runs of failures and, between them, `k - 1` full runs of successes. */
  lemma FailureSignalsAreSpaced(run: seq<Event>, id: Cid, p: Probe)
    requires IsRun(run) && Fresh(run, id, p)
    ensures var k := Failures(After(run).signals, id);
            var th := p.Thresholds();
            k >= 1 ==> |History(run, ProbeKey(id, Liveness))| >= k * th.For(false) + (k - 1) * th.For(true)
  {
    EveryFailureIsADrop(run, id, p);
    var h := History(run, ProbeKey(id, Liveness));
    if Drops(h, p.Thresholds()) >= 1 { ManyDropsManyChecks(h, p.Thresholds(), Drops(h, p.Thresholds())); }
    hide After, History, Drops;
  }

  /** Every liveness result of `id` finds the agent knowing the container. */
  ghost predicate Known(run: seq<Event>, id: Cid) {
    forall i | 0 <= i < |run| && run[i].Result? :: run[i].known || !Delivers(After(run[..i]), run[i], ProbeKey(id, Liveness))
  }

  lemma KnownFailureStops(s: State, e: Event, id: Cid)
    requires Consistent(s) && Enabled(s, e)
    requires Delivers(s, e, ProbeKey(id, Liveness)) && FailsLiveness(s, ProbeKey(id, Liveness), e.ok) && e.known
    ensures id !in Step(s, e).health
  {
    var key := s.checks[e.c];
    var back := s.(checks := s.checks - {e.c});
    StopEffect(ProcessResult(back, key, e.ok), key.id);
    hide ProcessResult, Stop, Count;
  }

  /** A container known to the agent is reported as failed at most once: the
      restart handler has stopped monitoring it before any further check. */
  lemma {:induction false} AtMostOneFailure(run: seq<Event>, id: Cid, p: Probe)
    requires IsRun(run) && Fresh(run, id, p) && Known(run, id)
    ensures Failures(After(run).signals, id) <= 1
    ensures Failures(After(run).signals, id) == 1 ==> id !in After(run).health && Begun(run, id)
  {
    if run != [] {
      var l := ProbeKey(id, Liveness);
      var n := |run| - 1;
      RunPrefix(run, n);
      assert run[..n] == Init(run) && run[..n + 1] == run;
      assert Enabled(After(run[..n]), run[n]);
      FreshPrefix(run, id, p);
      KnownPrefix(run, id);
      EveryRunInvariant(Init(run));
      AtMostOneFailure(Init(run), id, p);
      EveryFailureIsADrop(Init(run), id, p);
      BegunSnoc(run, id);
      if Begins(Last(run), id) { BegunOnce(run, id, p); }
      assert !Last(run).Result? || Last(run).known || !Delivers(After(run[..n]), Last(run), l);
      hide Step, Invariant, Enabled, History, After, Begun, Drops, Fresh, Known, Delivers, Failures, IsRun;
      NextFailure(After(Init(run)), Last(run), id);
    }
  }

  /** One step of the bound: at most one failure, and none while unmonitored. */
  lemma NextFailure(s: State, e: Event, id: Cid)
    requires Invariant(s) && Enabled(s, e)
    requires e.Result? && Delivers(s, e, ProbeKey(id, Liveness)) ==> e.known
    requires Failures(s.signals, id) <= 1 && (Failures(s.signals, id) == 1 ==> id !in s.health && !Begins(e, id))
    ensures Failures(Step(s, e).signals, id) <= 1
    ensures Failures(Step(s, e).signals, id) == 1 ==> id !in Step(s, e).health
    ensures Failures(Step(s, e).signals, id) == 1 && Failures(s.signals, id) == 0 ==> e.Result? && id in s.health
  {
    var l := ProbeKey(id, Liveness);
    StepFailures(s, e, id);
    if !Begins(e, id) { StepMonitoredIff(s, e, id); }
    if Delivers(s, e, l) && FailsLiveness(s, l, e.ok) { KnownFailureStops(s, e, id); }
    hide Step, Enabled, Active, Failures, Sound;
  }

  lemma KnownPrefix(run: seq<Event>, id: Cid)
    requires run != [] && Known(run, id)
    ensures Known(Init(run), id)
  {
    hide Delivers, After;
    var earlier := Init(run);
    forall i | 0 <= i < |earlier| && earlier[i].Result?
      ensures earlier[i].known || !Delivers(After(earlier[..i]), earlier[i], ProbeKey(id, Liveness))
    {
      assert earlier[..i] == run[..i] && earlier[i] == run[i];
    }
  }

  lemma BegunOnce(run: seq<Event>, id: Cid, p: Probe)
    requires run != [] && Fresh(run, id, p) && Begins(Last(run), id)
    ensures !Begun(Init(run), id)
  {
    assert Last(run) == run[|run| - 1];
    assert forall i | 0 <= i < |Init(run)| :: Init(run)[i] == run[i];
  }

  // ------------------------------------------------------ monitoring a busy id

  /** Starting a probe leaves it with exactly one activity if and only if nothing
      of its key was pending or in flight. Starting to monitor a container twice
      leaves two timers running, since the first is not cleared. */
  lemma StartingAgainLeaksIff(s: State, key: ProbeKey, p: Probe)
    requires forall t <- s.timers :: t < s.next
    ensures key in StartProbe(s, key, Some(p)).probes
    ensures Busy(StartProbe(s, key, Some(p)), key) <==> Resting(s, key)
  {
    var s' := StartProbe(s, key, Some(p));
    assert ChecksOf(s', key) == ChecksOf(s, key);
    assert TimersOf(s', key) == TimersOf(s, key) + {s.next};
    assert s.next !in TimersOf(s, key);
    assert s.next in TimersOf(s', key);
  }
}
