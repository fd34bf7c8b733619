/** Back-off for failed image pulls (agent/src/compose/retry-manager.ts).
    Times are in milliseconds; the clock is a parameter of every call. */
module Retry {
  import opened Basics

  datatype RetryState = RetryState(count: nat, nextRetry: int)

  type Retries = map<string, RetryState>

  const MAX_RETRIES: nat := 10
  const BACKOFF_INTERVALS: seq<nat> := [10_000, 20_000, 40_000, 80_000, 160_000, 300_000]

  /** The pause that follows the `n`-th failure in a row. */
  function Backoff(n: nat): nat
    requires n > 0
  {
    BACKOFF_INTERVALS[if n <= |BACKOFF_INTERVALS| then n - 1 else |BACKOFF_INTERVALS| - 1]
  }

  predicate ShouldRetry(retries: Retries, key: string, now: int) {
    key in retries ==> retries[key].count < MAX_RETRIES && now >= retries[key].nextRetry
  }

  function AfterFailure(retries: Retries, key: string, now: int): Retries {
    var count := if key in retries then retries[key].count + 1 else 1;
    retries[key := RetryState(count, now + Backoff(count))]
  }

  function AfterSuccess(retries: Retries, key: string): Retries {
    map k | k in retries && k != key :: retries[k]
  }

  datatype Result = Refused | Pulled | Failed

  /** A `downloadImage` step: ask, pull, record. */
  function Pull(retries: Retries, key: string, startedAt: int, succeeds: bool, endedAt: int): (Retries, Result) {
    if !ShouldRetry(retries, key, startedAt) then (retries, Refused)
    else if succeeds then (AfterSuccess(retries, key), Pulled)
    else (AfterFailure(retries, key, endedAt), Failed)
  }

  class RetryManager {
    var retryState: Retries

    constructor ()
      ensures retryState == map[]
    {
      retryState := map[];
    }

    method ShouldRetryNow(key: string, now: int) returns (allowed: bool)
      ensures allowed == ShouldRetry(retryState, key, now)
    {
      if key !in retryState {
        return true;
      }
      if retryState[key].count >= MAX_RETRIES {
        return false;
      }
      return now >= retryState[key].nextRetry;
    }

    method RecordFailure(key: string, now: int)
      modifies this
      ensures retryState == AfterFailure(old(retryState), key, now)
    {
      var state := if key in retryState then retryState[key] else RetryState(0, now);
      var count := state.count + 1;
      var index := if count - 1 < |BACKOFF_INTERVALS| - 1 then count - 1 else |BACKOFF_INTERVALS| - 1;
      retryState := retryState[key := RetryState(count, now + BACKOFF_INTERVALS[index])];
    }

    method RecordSuccess(key: string)
      modifies this
      ensures retryState == AfterSuccess(old(retryState), key)
    {
      retryState := map k | k in retryState && k != key :: retryState[k];
    }
  }
}
