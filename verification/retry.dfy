/** Bounded retry with capped exponential backoff around one asynchronous
    call. The call is an environment function from the attempt number to
    what that attempt returns or throws; sleeps become returned delays. */
module Retry {
  import opened Common

  /** No backoff delay is longer than this, in milliseconds. */
  const MaxDelayMs: int := 10000

  /** The configured attempt count and base delay when the environment sets none. */
  const DefaultRetryAttempts: int := 3
  const DefaultRetryDelay: int := 1000

  function Pow2(i: nat): (p: nat)
    ensures p >= 1
  {
    if i == 0 then 1 else 2 * Pow2(i - 1)
  }

  /** `base * Math.pow(2, i)`, doubling `base` `i` times. */
  function Doubled(base: int, i: nat): (d: int)
    ensures d == base * Pow2(i)
  {
    if i == 0 then base else 2 * Doubled(base, i - 1)
  }

  /** `Math.min(RETRY_DELAY * Math.pow(2, i), 10000)` */
  function Backoff(retryDelay: int, i: nat): (d: int)
    ensures d <= MaxDelayMs && d <= retryDelay * Pow2(i)
    ensures d == retryDelay * Pow2(i) || d == MaxDelayMs
  {
    var d := Doubled(retryDelay, i);
    if d < MaxDelayMs then d else MaxDelayMs
  }

  /** Errors that are thrown on at once: authentication, authorisation and
      spending-ceiling failures. */
  predicate NoRetry(message: string) {
    Contains(message, "401") || Contains(message, "403") || Contains(message, "cost limit")
  }

  /** How `retryWithBackoff` ends: with the first success, by rethrowing an
      error, or, when it may make no attempt at all, with `undefined`. */
  datatype Outcome<T> = Returned(value: T) | Threw(message: string) | ReturnedUndefined

  /** An entire run: the outcome, how many times `fn` was called, and the
      delays slept between attempts. */
  datatype Run<T> = Run(outcome: Outcome<T>, calls: nat, delays: seq<int>)

  /** The run from attempt `i` on. */
  function RunFrom<T>(fn: nat -> Result<T>, i: nat, maxRetries: int, retryDelay: int): Run<T>
    decreases maxRetries - i
  {
    if i >= maxRetries then Run(ReturnedUndefined, i, [])
    else match fn(i)
      case Ok(v) => Run(Returned(v), i + 1, [])
      case Err(m) =>
        if i == maxRetries - 1 || NoRetry(m) then Run(Threw(m), i + 1, [])
        else
          var rest := RunFrom(fn, i + 1, maxRetries, retryDelay);
          Run(rest.outcome, rest.calls, [Backoff(retryDelay, i)] + rest.delays)
  }

  /** The whole run of `retryWithBackoff(fn, maxRetries)`. */
  function RetryRun<T>(fn: nat -> Result<T>, maxRetries: int, retryDelay: int): Run<T> {
    RunFrom(fn, 0, maxRetries, retryDelay)
  }

  /** What the loop promises: fn is called at most maxRetries times, every
      call but the last failed with an error that may be retried, the i-th
      delay is the capped doubling of the base delay, and the run ends with
      the last call's success or its error unchanged (which then is either
      the last permitted attempt or one not to retry). With no permitted
      attempt nothing is called and `undefined` comes back. */
  lemma {:induction false} RunFromProperties<T>(fn: nat -> Result<T>, i: nat, maxRetries: int, retryDelay: int)
    requires i < maxRetries
    ensures var run := RunFrom(fn, i, maxRetries, retryDelay);
      && i < run.calls <= maxRetries
      && |run.delays| == run.calls - 1 - i
      && (forall k :: 0 <= k < |run.delays| ==> run.delays[k] == Backoff(retryDelay, i + k))
      && (forall k :: i <= k < run.calls - 1 ==> fn(k).Err? && !NoRetry(fn(k).message))
      && (fn(run.calls - 1).Ok? ==> run.outcome == Returned(fn(run.calls - 1).value))
      && (fn(run.calls - 1).Err? ==> run.outcome == Threw(fn(run.calls - 1).message)
                                     && (run.calls == maxRetries || NoRetry(fn(run.calls - 1).message)))
    decreases maxRetries - i
  {
    match fn(i)
    case Ok(v) =>
    case Err(m) =>
      if i < maxRetries - 1 && !NoRetry(m) {
        RunFromProperties(fn, i + 1, maxRetries, retryDelay);
      }
  }

  lemma RetryRunProperties<T>(fn: nat -> Result<T>, maxRetries: int, retryDelay: int)
    ensures var run := RetryRun(fn, maxRetries, retryDelay);
      && (maxRetries <= 0 ==> run == Run(ReturnedUndefined, 0, []))
      && (maxRetries > 0 ==>
            && 1 <= run.calls <= maxRetries
            && |run.delays| == run.calls - 1
            && (forall k :: 0 <= k < |run.delays| ==> run.delays[k] == Backoff(retryDelay, k))
            && (forall k :: 0 <= k < run.calls - 1 ==> fn(k).Err? && !NoRetry(fn(k).message))
            && (fn(run.calls - 1).Ok? ==> run.outcome == Returned(fn(run.calls - 1).value))
            && (fn(run.calls - 1).Err? ==> run.outcome == Threw(fn(run.calls - 1).message)))
  {
    if maxRetries > 0 {
      RunFromProperties(fn, 0, maxRetries, retryDelay);
    }
  }

  /** An error that is not to be retried is thrown on the attempt that raised it. */
  lemma NoRetryIsImmediate<T>(fn: nat -> Result<T>, maxRetries: int, retryDelay: int)
    requires maxRetries > 0 && fn(0).Err? && NoRetry(fn(0).message)
    ensures RetryRun(fn, maxRetries, retryDelay) == Run(Threw(fn(0).message), 1, [])
  {
  }

  /** A retried attempt: the run goes on from the next attempt after the backoff delay. */
  lemma RunFromRetries<T>(fn: nat -> Result<T>, i: nat, maxRetries: int, retryDelay: int)
    requires i < maxRetries - 1 && fn(i).Err? && !NoRetry(fn(i).message)
    ensures var rest := RunFrom(fn, i + 1, maxRetries, retryDelay);
      RunFrom(fn, i, maxRetries, retryDelay) == Run(rest.outcome, rest.calls, [Backoff(retryDelay, i)] + rest.delays)
  {
  }

  /** `retryWithBackoff(fn, maxRetries)` with base delay `retryDelay`. */
  method RetryWithBackoff<T>(fn: nat -> Result<T>, maxRetries: int, retryDelay: int)
    returns (outcome: Outcome<T>, calls: nat, delays: seq<int>)
    ensures Run(outcome, calls, delays) == RetryRun(fn, maxRetries, retryDelay)
  {
    delays := [];
    calls := 0;
    var i := 0;
    while i < maxRetries
      invariant 0 <= i && calls == i
      invariant i > 0 ==> i < maxRetries
      invariant RetryRun(fn, maxRetries, retryDelay) ==
                (var rest := RunFrom(fn, i, maxRetries, retryDelay); Run(rest.outcome, rest.calls, delays + rest.delays))
      decreases maxRetries - i
    {
      var attempt := fn(i);
      calls := calls + 1;
      match attempt {
        case Ok(v) =>
          outcome := Returned(v);
          assert delays + [] == delays;
          return;
        case Err(m) =>
          if i == maxRetries - 1 {
            outcome := Threw(m);
            assert delays + [] == delays;
            return;
          }
          if NoRetry(m) {
            outcome := Threw(m);
            assert delays + [] == delays;
            return;
          }
          var delay := Backoff(retryDelay, i);
          RunFromRetries(fn, i, maxRetries, retryDelay);
          ghost var rest := RunFrom(fn, i + 1, maxRetries, retryDelay);
          assert delays + ([delay] + rest.delays) == (delays + [delay]) + rest.delays;
          delays := delays + [delay];
      }
      i := i + 1;
    }
    outcome := ReturnedUndefined;
    assert delays + [] == delays;
  }
}
