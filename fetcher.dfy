/**
 The record fetcher `fetch_with_retry`: up to `max_retries` calls of the
 provider for one symbol, with a wall-clock budget checked before each call
 and a fixed back-off between calls.  The provider's outcomes and the clock's
 readings are inputs: call number `k` (from 0) yields `outcomes[k]`, and the
 elapsed time read before it is `elapsed[k]` (seconds since `start`).
 */
module Fetcher {

  import opened Wrappers
  import opened Provider

  /** The defaults `max_retries=2` and `per_symbol_timeout=15` that the snapshot builder uses. */
  const DefaultMaxRetries := 2
  const DefaultTimeout: real := 15.0

  /**
   What one call of `fetch_with_retry` did: the history it returned (`None`
   for Python's `None`), how many provider calls it made, how many 2-second
   back-offs it slept, and whether it gave up on the timeout.
   */
  datatype FetchReport = FetchReport(history: Option<seq<Bar>>, attempts: nat, sleeps: nat, timedOut: bool)

  /** The number of iterations of `range(maxRetries)`. */
  function MaxAttempts(maxRetries: int): nat
  {
    if maxRetries < 0 then 0 else maxRetries
  }

  /** The inputs cover every iteration the loop can run. */
  predicate Covers(outcomes: seq<Outcome>, elapsed: seq<real>, maxRetries: int)
  {
    |outcomes| >= maxRetries && |elapsed| >= maxRetries
  }

  /**
   The loop of `fetch_with_retry` from iteration `attempt` on, having slept
   `sleeps` times so far.  A reading over the budget returns `None` before
   any call; a non-empty table is returned at once; an empty table or an
   error sleeps when an iteration remains, and an error on the last
   iteration returns `None`; a loop that runs out returns `None`.
   */
  function Retry(outcomes: seq<Outcome>, elapsed: seq<real>, maxRetries: int, timeout: real,
                 attempt: nat, sleeps: nat): FetchReport
    requires Covers(outcomes, elapsed, maxRetries)
    requires attempt <= MaxAttempts(maxRetries)
    decreases MaxAttempts(maxRetries) - attempt
  {
    if attempt >= maxRetries then FetchReport(None, attempt, sleeps, false)
    else if elapsed[attempt] > timeout then FetchReport(None, attempt, sleeps, true)
    else match outcomes[attempt]
      case Table(bars) =>
        if |bars| > 0 then FetchReport(Some(bars), attempt + 1, sleeps, false)
        else Retry(outcomes, elapsed, maxRetries, timeout, attempt + 1,
                   if attempt < maxRetries - 1 then sleeps + 1 else sleeps)
      case Error =>
        if attempt < maxRetries - 1 then Retry(outcomes, elapsed, maxRetries, timeout, attempt + 1, sleeps + 1)
        else FetchReport(None, attempt + 1, sleeps, false)
  }

  /** `fetch_with_retry(symbol, max_retries, per_symbol_timeout)` as a whole. */
  function FetchResult(outcomes: seq<Outcome>, elapsed: seq<real>, maxRetries: int, timeout: real): FetchReport
    requires Covers(outcomes, elapsed, maxRetries)
  {
    Retry(outcomes, elapsed, maxRetries, timeout, 0, 0)
  }

  /** `fetch_with_retry`: the `for attempt` loop with its early returns. */
  method FetchWithRetry(outcomes: seq<Outcome>, elapsed: seq<real>, maxRetries: int, timeout: real)
    returns (report: FetchReport)
    requires Covers(outcomes, elapsed, maxRetries)
    ensures report == FetchResult(outcomes, elapsed, maxRetries, timeout)
  {
    var attempt := 0;
    var sleeps := 0;
    while attempt < maxRetries
      invariant attempt <= MaxAttempts(maxRetries)
      invariant Retry(outcomes, elapsed, maxRetries, timeout, attempt, sleeps) == FetchResult(outcomes, elapsed, maxRetries, timeout)
      decreases maxRetries - attempt
    {
      if elapsed[attempt] > timeout {
        return FetchReport(None, attempt, sleeps, true);
      }
      match outcomes[attempt] {
        case Table(history) =>
          if |history| > 0 {
            return FetchReport(Some(history), attempt + 1, sleeps, false);
          }
          if attempt < maxRetries - 1 {
            sleeps := sleeps + 1;
          }
        case Error =>
          if attempt < maxRetries - 1 {
            sleeps := sleeps + 1;
          } else {
            return FetchReport(None, attempt + 1, sleeps, false);
          }
      }
      attempt := attempt + 1;
    }
    return FetchReport(None, attempt, sleeps, false);
  }

  /**
   What the loop does from iteration `attempt` on: the calls it makes all
   passed the budget check and all but a successful last one failed; a
   returned history is the first non-empty table; `None` comes from a
   reading over the budget or from running out of iterations; and it sleeps
   once after every failed call except one on the last iteration.
   */
  lemma {:induction false} RetryFrom(outcomes: seq<Outcome>, elapsed: seq<real>, maxRetries: int, timeout: real,
                                     attempt: nat, sleeps: nat)
    requires Covers(outcomes, elapsed, maxRetries)
    requires attempt <= MaxAttempts(maxRetries)
    decreases MaxAttempts(maxRetries) - attempt
    ensures var r := Retry(outcomes, elapsed, maxRetries, timeout, attempt, sleeps);
      && attempt <= r.attempts <= MaxAttempts(maxRetries)
      && (forall k :: attempt <= k < r.attempts ==> elapsed[k] <= timeout)
      && (forall k :: attempt <= k < r.attempts && (r.history.None? || k < r.attempts - 1) ==> !IsNonEmpty(outcomes[k]))
      && (r.history.Some? ==>
            && !r.timedOut && attempt < r.attempts
            && IsNonEmpty(outcomes[r.attempts - 1])
            && r.history.value == outcomes[r.attempts - 1].bars)
      && (r.timedOut ==> r.history.None? && r.attempts < maxRetries && elapsed[r.attempts] > timeout)
      && (r.history.None? && !r.timedOut ==> r.attempts == MaxAttempts(maxRetries))
      && r.sleeps == sleeps + (r.attempts - attempt) - (if !r.timedOut && attempt < r.attempts then 1 else 0)
  {
    if attempt < maxRetries && elapsed[attempt] <= timeout {
      match outcomes[attempt]
      case Table(bars) =>
        if |bars| == 0 {
          RetryFrom(outcomes, elapsed, maxRetries, timeout, attempt + 1,
                    if attempt < maxRetries - 1 then sleeps + 1 else sleeps);
        }
      case Error =>
        if attempt < maxRetries - 1 {
          RetryFrom(outcomes, elapsed, maxRetries, timeout, attempt + 1, sleeps + 1);
        }
    }
  }

  /**
   The promises of `fetch_with_retry`: at most `max_retries` provider calls;
   the history returned is the first non-empty one, and no call follows it;
   `None` when every call came back empty or failed, or when the elapsed
   time exceeded the budget before a call; at most `max_retries - 1` sleeps,
   and none after the call of the final iteration.
   */
  lemma FetchWithRetryPromises(outcomes: seq<Outcome>, elapsed: seq<real>, maxRetries: int, timeout: real)
    requires Covers(outcomes, elapsed, maxRetries)
    ensures var r := FetchResult(outcomes, elapsed, maxRetries, timeout);
      && r.attempts <= MaxAttempts(maxRetries)
      && (r.history.Some? <==>
            exists k :: 0 <= k < MaxAttempts(maxRetries) && IsNonEmpty(outcomes[k])
                        && (forall j :: 0 <= j <= k ==> elapsed[j] <= timeout)
                        && (forall j :: 0 <= j < k ==> !IsNonEmpty(outcomes[j])))
      && (r.history.Some? ==> 1 <= r.attempts && IsNonEmpty(outcomes[r.attempts - 1])
                              && r.history.value == outcomes[r.attempts - 1].bars
                              && forall j :: 0 <= j < r.attempts - 1 ==> !IsNonEmpty(outcomes[j]))
      && (r.timedOut <==> r.history.None? && r.attempts < MaxAttempts(maxRetries))
      && (r.timedOut ==> elapsed[r.attempts] > timeout)
      && (r.history.None? && !r.timedOut ==> forall j :: 0 <= j < MaxAttempts(maxRetries) ==> !IsNonEmpty(outcomes[j]))
      && r.sleeps == (if r.timedOut then r.attempts else if r.attempts == 0 then 0 else r.attempts - 1)
      && (maxRetries >= 1 ==> r.sleeps <= maxRetries - 1)
  {
    RetryFrom(outcomes, elapsed, maxRetries, timeout, 0, 0);
    var r := FetchResult(outcomes, elapsed, maxRetries, timeout);
    if r.timedOut {
      forall k | 0 <= k < MaxAttempts(maxRetries) && IsNonEmpty(outcomes[k])
        ensures r.attempts <= k && elapsed[r.attempts] > timeout
      {
      }
    }
  }

  /**
   Empty, empty, then rows: with the default two iterations the third
   outcome is never requested and the result is `None` after one back-off;
   with three iterations the third call's table is returned after two.
   */
  lemma EmptyTwiceThenRows(bars: seq<Bar>, elapsed: seq<real>)
    requires |bars| > 0 && |elapsed| == 3
    requires forall k :: 0 <= k < 3 ==> elapsed[k] <= DefaultTimeout
    ensures FetchResult([Table([]), Table([]), Table(bars)], elapsed, DefaultMaxRetries, DefaultTimeout)
            == FetchReport(None, 2, 1, false)
    ensures FetchResult([Table([]), Table([]), Table(bars)], elapsed, 3, DefaultTimeout)
            == FetchReport(Some(bars), 3, 2, false)
  {
  }

  /**
   A slow first call: it came back empty or failed, and the reading at the
   second iteration is over the budget, so `None` is returned after one call
   and its back-off.
   */
  lemma SlowFirstCall(outcomes: seq<Outcome>, elapsed: seq<real>)
    requires Covers(outcomes, elapsed, DefaultMaxRetries)
    requires !IsNonEmpty(outcomes[0]) && elapsed[0] <= DefaultTimeout && elapsed[1] > DefaultTimeout
    ensures FetchResult(outcomes, elapsed, DefaultMaxRetries, DefaultTimeout) == FetchReport(None, 1, 1, true)
  {
  }

  /**
   A first reading over the budget returns `None` without any provider call;
   the script reads its start time just before, so this needs a budget below
   that first reading.
   */
  lemma TimeoutBeforeFirstCall(outcomes: seq<Outcome>, elapsed: seq<real>, maxRetries: int, timeout: real)
    requires Covers(outcomes, elapsed, maxRetries) && maxRetries >= 1
    requires elapsed[0] > timeout
    ensures FetchResult(outcomes, elapsed, maxRetries, timeout) == FetchReport(None, 0, 0, true)
  {
  }
}
