/** The counters of one health probe, and what they say about the history of its
    check results (`processResult` in agent/src/compose/health-check-manager.ts). */
module HealthCounters {
  import opened Basics

  datatype HealthStatus = Unknown | Healthy | Unhealthy

  datatype Counters = Counters(status: HealthStatus, successes: nat, failures: nat)

  const INITIAL: Counters := Counters(Unknown, 0, 0)

  /** How many equal results in a row decide; a threshold below one acts as one. */
  datatype Thresholds = Thresholds(success: int, failure: int) {
    function For(v: bool): nat {
      var n := if v then success else failure;
      if n < 1 then 1 else n
    }
  }

  /** One check result. */
  function Count(c: Counters, th: Thresholds, ok: bool): Counters {
    if ok then
      var n := c.successes + 1;
      Counters(if n >= th.success && c.status != Healthy then Healthy else c.status, n, 0)
    else
      var n := c.failures + 1;
      Counters(if n >= th.failure && c.status != Unhealthy then Unhealthy else c.status, 0, n)
  }

  function CountAll(h: seq<bool>, th: Thresholds): Counters {
    if h == [] then INITIAL else Count(CountAll(Init(h), th), th, Last(h))
  }

  // ------------------------------------------------------- what a history says

  /** Position `i` ends a run of results equal to `v` that is long enough to decide. */
  ghost predicate Decides(h: seq<bool>, th: Thresholds, i: int, v: bool) {
    0 <= i < |h| && th.For(v) <= i + 1 && forall j | i + 1 - th.For(v) <= j <= i :: h[j] == v
  }

  /** The latest deciding position decided for `v`. */
  ghost predicate Decided(h: seq<bool>, th: Thresholds, v: bool) {
    exists i :: Decides(h, th, i, v) && forall j, u :: Decides(h, th, j, u) && u != v ==> j <= i
  }

  ghost predicate Undecided(h: seq<bool>, th: Thresholds) {
    forall i, v :: !Decides(h, th, i, v)
  }

  /** The counters are the lengths of the runs the history ends with. */
  ghost predicate Trailing(h: seq<bool>, c: Counters) {
    && c.successes <= |h| && c.failures <= |h|
    && (forall j | |h| - c.successes <= j < |h| :: h[j])
    && (forall j | |h| - c.failures <= j < |h| :: !h[j])
    && (c.successes < |h| ==> !h[|h| - c.successes - 1])
    && (c.failures < |h| ==> h[|h| - c.failures - 1])
  }

  lemma {:induction false} CountersTrail(h: seq<bool>, th: Thresholds)
    ensures Trailing(h, CountAll(h, th))
  {
    if h != [] {
      CountersTrail(Init(h), th);
      assert forall j | 0 <= j < |h| - 1 :: h[j] == Init(h)[j];
    }
  }

  /** The last result decides exactly when its counter has reached its threshold. */
  lemma LastDecides(h: seq<bool>, th: Thresholds, c: Counters, v: bool)
    requires h != [] && Trailing(h, c)
    ensures Decides(h, th, |h| - 1, v) <==> (if v then c.successes else c.failures) >= th.For(v)
  {
    var count := if v then c.successes else c.failures;
    assert count < |h| ==> h[|h| - 1 - count] != v;
  }

  lemma EarlierDecides(h: seq<bool>, th: Thresholds, i: int, v: bool)
    requires h != [] && i != |h| - 1
    ensures Decides(h, th, i, v) <==> Decides(Init(h), th, i, v)
  {
    assert forall j | 0 <= j < |h| - 1 :: h[j] == Init(h)[j];
  }

  /** A longer history is decided by its last result or as before. */
  lemma DecidedNext(h: seq<bool>, th: Thresholds, v: bool)
    requires h != []
    ensures Decided(h, th, v) <==>
      || Decides(h, th, |h| - 1, v)
      || (Decided(Init(h), th, v) && !Decides(h, th, |h| - 1, !v))
    ensures Undecided(h, th) <==>
      Undecided(Init(h), th) && !Decides(h, th, |h| - 1, true) && !Decides(h, th, |h| - 1, false)
  {
    forall i, u
      ensures i != |h| - 1 ==> (Decides(h, th, i, u) <==> Decides(Init(h), th, i, u))
      ensures Decides(h, th, i, u) ==> i <= |h| - 1
      ensures Decides(Init(h), th, i, u) ==> i < |h| - 1
    {
      if i != |h| - 1 { EarlierDecides(h, th, i, u); }
    }
    if Decides(h, th, |h| - 1, true) { OneDecides(h, th, |h| - 1); }
    hide Decides;
  }

  lemma OneDecides(h: seq<bool>, th: Thresholds, i: int)
    ensures !(Decides(h, th, i, true) && Decides(h, th, i, false))
  {
    if Decides(h, th, i, true) { assert h[i]; }
  }

  /** The counter machine refines the history: a probe is healthy (unhealthy)
      exactly when the latest run of results long enough to decide was one of
      successes (failures), and unknown when there has been no such run. */
  lemma {:induction false} CountersRefineHistory(h: seq<bool>, th: Thresholds)
    ensures CountAll(h, th).status == Healthy <==> Decided(h, th, true)
    ensures CountAll(h, th).status == Unhealthy <==> Decided(h, th, false)
    ensures CountAll(h, th).status == Unknown <==> Undecided(h, th)
  {
    if h != [] {
      CountersRefineHistory(Init(h), th);
      CountersTrail(h, th);
      LastDecides(h, th, CountAll(h, th), true);
      LastDecides(h, th, CountAll(h, th), false);
      DecidedNext(h, th, true);
      DecidedNext(h, th, false);
      hide Decides, Decided, Undecided, Trailing;
    }
  }

  // --------------------------------------------------------------- transitions

  /** How often the status has turned unhealthy. */
  function Drops(h: seq<bool>, th: Thresholds): nat {
    if h == [] then 0
    else
      var before, after := CountAll(Init(h), th), CountAll(h, th);
      Drops(Init(h), th) + (if before.status != Unhealthy && after.status == Unhealthy then 1 else 0)
  }

  /** The checks that `k` turns to unhealthy and back cost. */
  function Cost(k: nat, th: Thresholds): nat {
    if k == 0 then 0 else Cost(k - 1, th) + th.For(false) + th.For(true)
  }

  /** Every turn to unhealthy costs a full run of failures, and every turn after
      the first a full run of successes as well. */
  lemma {:induction false} DropsAreSpaced(h: seq<bool>, th: Thresholds)
    ensures var k, c := Drops(h, th), CountAll(h, th);
            && (c.status == Unhealthy ==> k >= 1 && |h| >= Cost(k - 1, th) + th.For(false) + c.successes)
            && (c.status != Unhealthy ==> |h| >= Cost(k, th) + c.failures)
  {
    if h != [] { DropsAreSpaced(Init(h), th); }
  }

  lemma {:induction false} CostIs(k: nat, th: Thresholds)
    ensures Cost(k, th) == k * th.For(false) + k * th.For(true)
  {
    if k > 0 {
      CostIs(k - 1, th);
      OneMore(k, th.For(false));
      OneMore(k, th.For(true));
    }
  }

  lemma OneMore(k: int, n: int)
    ensures k * n == (k - 1) * n + n
  {}

  lemma ManyDropsManyChecks(h: seq<bool>, th: Thresholds, k: nat)
    requires 1 <= k == Drops(h, th)
    ensures |h| >= k * th.For(false) + (k - 1) * th.For(true)
  {
    DropsAreSpaced(h, th);
    CostIs(k - 1, th);
    OneMore(k, th.For(false));
    assert Cost(k, th) >= Cost(k - 1, th) + th.For(false);
    hide *;
  }
}
