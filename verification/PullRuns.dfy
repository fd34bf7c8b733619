/** Bounded back-off over every run of image pulls. */
module PullRuns {
  import opened Basics
  import opened Retry

  datatype Attempt = Attempt(key: string, startedAt: int, endedAt: int, succeeds: bool)

  /** The clock never runs backwards, within an attempt or between two. */
  ghost predicate Monotone(run: seq<Attempt>) {
    && (forall i | 0 <= i < |run| :: run[i].startedAt <= run[i].endedAt)
    && (forall i, j | 0 <= i < j < |run| :: run[i].endedAt <= run[j].startedAt)
  }

  function Table(run: seq<Attempt>): Retries {
    if run == [] then map[]
    else
      var t := Last(run);
      Pull(Table(Init(run)), t.key, t.startedAt, t.succeeds, t.endedAt).0
  }

  /** What attempt `i` of a run comes to. */
  function ResultAt(run: seq<Attempt>, i: nat): Result
    requires i < |run|
  {
    Pull(Table(run[..i]), run[i].key, run[i].startedAt, run[i].succeeds, run[i].endedAt).1
  }

  /** When pulls of `key` failed since it last succeeded. */
  function FailureTimes(run: seq<Attempt>, key: string): seq<int> {
    if run == [] then []
    else
      var earlier := FailureTimes(Init(run), key);
      if Last(run).key != key then earlier
      else
        match ResultAt(run, |run| - 1)
        case Refused => earlier
        case Pulled => []
        case Failed => earlier + [Last(run).endedAt]
  }

  /** Each failure waits out the pause set by the one before. */
  ghost predicate Spaced(times: seq<int>) {
    forall i | 0 <= i < |times| - 1 :: times[i + 1] >= times[i] + Backoff(i + 1)
  }

  /** The pauses after the first `n` failures together. */
  function TotalPause(n: nat): nat {
    if n == 0 then 0 else TotalPause(n - 1) + Backoff(n)
  }

  /** The table is a summary of the failure history. */
  ghost predicate Summary(retries: Retries, times: seq<int>, key: string) {
    && |times| <= MAX_RETRIES
    && (key in retries <==> times != [])
    && (times != [] ==> retries[key] == RetryState(|times|, Last(times) + Backoff(|times|)))
    && Spaced(times)
  }

  lemma {:induction false} TableSummarises(run: seq<Attempt>, key: string)
    requires Monotone(run)
    ensures Summary(Table(run), FailureTimes(run, key), key)
  {
    if run != [] {
      var earlier := FailureTimes(Init(run), key);
      var t := Last(run);
      assert run[..|run| - 1] == Init(run);
      TableSummarises(Init(run), key);
      if t.key == key && ResultAt(run, |run| - 1) == Failed {
        var times := FailureTimes(run, key);
        assert forall i | 0 <= i < |earlier| :: times[i] == earlier[i];
      }
    }
  }

  lemma {:induction false} SpacedAddsUp(times: seq<int>, k: nat)
    requires Spaced(times) && k < |times|
    ensures times[k] - times[0] >= TotalPause(k)
  {
    if k > 0 { SpacedAddsUp(times, k - 1); }
  }

  /** Between two successes an image is pulled at most ten times, and failure
      number `k + 1` in a row comes no earlier after the first than `k` pauses
      allow: 1510 seconds for the tenth. */
  lemma BoundedBackoff(run: seq<Attempt>, key: string)
    requires Monotone(run)
    ensures var times := FailureTimes(run, key);
            && |times| <= 10
            && (forall k | 0 <= k < |times| :: times[k] - times[0] >= TotalPause(k))
            && (|times| == 10 ==> times[9] - times[0] >= 1_510_000)
    ensures forall i | 0 <= i < |run| && run[i].key == key && ResultAt(run, i) != Refused ::
              |FailureTimes(run[..i], key)| + 1 <= 10
  {
    TableSummarises(run, key);
    var times := FailureTimes(run, key);
    forall k | 0 <= k < |times|
      ensures times[k] - times[0] >= TotalPause(k)
    {
      SpacedAddsUp(times, k);
    }
    NinePauses();
    forall i | 0 <= i < |run| && run[i].key == key && ResultAt(run, i) != Refused
      ensures |FailureTimes(run[..i], key)| + 1 <= 10
    {
      TableSummarises(run[..i], key);
    }
  }

  /** The pauses after the failures of one image: ten seconds, doubled up to 160, and
      five minutes from the sixth failure on; 1510 seconds before the tenth. */
  lemma NinePauses()
    ensures Backoff(1) == 10_000 && Backoff(2) == 20_000 && Backoff(3) == 40_000
    ensures Backoff(4) == 80_000 && Backoff(5) == 160_000
    ensures forall n | n >= 6 :: Backoff(n) == 300_000
    ensures TotalPause(9) == 1_510_000
  {
    assert TotalPause(3) == 70_000;
    assert TotalPause(6) == 610_000;
  }

  /** After ten failures in a row the image is never pulled again, however the
      run goes on. */
  lemma {:induction false} ExhaustedStaysRefused(run: seq<Attempt>, more: seq<Attempt>, key: string, i: nat)
    requires Monotone(run + more) && |FailureTimes(run, key)| == 10
    requires i <= |more|
    ensures FailureTimes(run + more[..i], key) == FailureTimes(run, key)
    ensures i < |more| && more[i].key == key ==> ResultAt(run + more, |run| + i) == Refused
  {
    var so := run + more[..i];
    assert so == (run + more)[..|run| + i];
    if i > 0 {
      assert Init(so) == run + more[..i - 1] && Last(so) == more[i - 1];
      ExhaustedStaysRefused(run, more, key, i - 1);
      assert so[..|so| - 1] == (run + more)[..|run| + i - 1];
    } else {
      assert so == run;
    }
    TableSummarises(so, key);
  }

  /** An image that has not failed since its last success, or whose pause is
      over before the tenth failure, is always tried again. */
  lemma NotRefusedIff(run: seq<Attempt>, key: string, now: int)
    requires Monotone(run)
    ensures var times := FailureTimes(run, key);
            ShouldRetry(Table(run), key, now) <==>
              times == [] || (|times| < 10 && now >= Last(times) + Backoff(|times|))
  {
    TableSummarises(run, key);
  }
}
