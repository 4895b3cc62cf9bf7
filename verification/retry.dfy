/** The retry loop that builds a vector store (ingest.py,
    `create_vector_store_with_retry`).

    Each attempt constructs an embedding client and builds the store from the
    chunks; both live in foreign libraries, so the outcome of attempt `k`
    (counting from 0) is given by a script. Sleeping is replaced by recording
    the duration that would have been slept. */
module Retry {

  /** What one attempt of the foreign embed-and-build call did. */
  datatype Attempt<S> =
    | Built(store: S)               // the call returned a store
    | OpenAIError(message: string)  // it raised an `OpenAIError` (caught)
    | OtherError(message: string)   // it raised anything else (not caught)

  /** How the whole retry loop ended. */
  datatype Outcome<S> =
    | Done(store: S)                // the store of the first successful attempt
    | Exhausted                     // raised the "max retries" exception
    | Propagated(message: string)   // an uncaught exception escaped

  /** A run of the loop: how it ended, how many attempts it made, and the
      waits it slept, in order. */
  datatype Run<S> = Run(outcome: Outcome<S>, attempts: nat, waits: seq<nat>)

  /** The default of the `max_retries` parameter. */
  const DefaultMaxRetries: int := 5

  /** Text of the exception raised when the retries run out. */
  const ExhaustedMessage: string := "Max retries exceeded. Please try again later."

  /** `2 ** k` for a non-negative exponent. */
  function Pow2(k: nat): (r: nat)
    ensures r >= 1
  {
    if k == 0 then 1 else 2 * Pow2(k - 1)
  }

  /** Sum of the recorded waits. */
  function TotalWait(waits: seq<nat>): nat
  {
    if |waits| == 0 then 0 else TotalWait(waits[..|waits| - 1]) + waits[|waits| - 1]
  }

  /** The number of attempts a loop bounded by `maxRetries` may make. */
  function AttemptBudget(maxRetries: int): nat
  {
    if maxRetries < 0 then 0 else maxRetries
  }

  /** The first `n` attempts all raise an `OpenAIError`. */
  ghost predicate RetryableUpTo<S>(script: nat -> Attempt<S>, n: nat)
  {
    forall k: nat :: k < n ==> script(k).OpenAIError?
  }

  /** The `k`-th caught failure (counting from 1) is followed by a wait of
      `2 ** k`. */
  ghost predicate BackoffSchedule(waits: seq<nat>)
  {
    forall k :: 0 <= k < |waits| ==> waits[k] == Pow2(k + 1)
  }

  /** `run` is what the loop does against `script` with the given bound:
      every attempt before the last caught an `OpenAIError` and slept the
      backoff, and the last attempt decides the outcome, or the budget ran out
      with a sleep after every attempt. */
  ghost predicate IsRun<S>(script: nat -> Attempt<S>, maxRetries: int, run: Run<S>)
  {
    && RetryableUpTo(script, |run.waits|)
    && BackoffSchedule(run.waits)
    && match run.outcome
       case Done(s) =>
         && run.attempts == |run.waits| + 1 <= maxRetries
         && script(|run.waits|) == Built(s)
       case Propagated(m) =>
         && run.attempts == |run.waits| + 1 <= maxRetries
         && script(|run.waits|) == OtherError(m)
       case Exhausted =>
         run.attempts == |run.waits| == AttemptBudget(maxRetries)
  }

  /** The retry loop itself, statement for statement. */
  method CreateVectorStoreWithRetry<S>(script: nat -> Attempt<S>, maxRetries: int)
    returns (run: Run<S>)
    ensures IsRun(script, maxRetries, run)
  {
    var retries: nat := 0;
    var waits: seq<nat> := [];
    while retries < maxRetries
      invariant retries <= AttemptBudget(maxRetries)
      invariant |waits| == retries
      invariant RetryableUpTo(script, retries)
      invariant BackoffSchedule(waits)
      decreases maxRetries - retries
    {
      match script(retries)
      case Built(s) =>
        return Run(Done(s), retries + 1, waits);
      case OtherError(m) =>
        return Run(Propagated(m), retries + 1, waits);
      case OpenAIError(_) =>
        retries := retries + 1;
        var waitTime := Pow2(retries);
        waits := waits + [waitTime];
    }
    return Run(Exhausted, retries, waits);
  }

  /** The script fixes the run: there is exactly one run of the loop for a
      given script and bound. */
  lemma RunIsUnique<S>(script: nat -> Attempt<S>, maxRetries: int, r1: Run<S>, r2: Run<S>)
    requires IsRun(script, maxRetries, r1)
    requires IsRun(script, maxRetries, r2)
    ensures r1 == r2
  {
  }

  /** The loop never makes more than `max_retries` attempts, and it slept once
      per attempt except after the one that ended it by a return or an
      uncaught exception. */
  lemma AttemptsWithinBudget<S>(script: nat -> Attempt<S>, maxRetries: int, run: Run<S>)
    requires IsRun(script, maxRetries, run)
    ensures run.attempts <= AttemptBudget(maxRetries)
    ensures run.outcome.Exhausted? ==> run.attempts == |run.waits|
    ensures !run.outcome.Exhausted? ==> run.attempts == |run.waits| + 1
  {
  }

  /** Following the backoff schedule for `n` failures sleeps
      `2 + 4 + ... + 2 ** n == 2 ** (n + 1) - 2` in total. */
  lemma {:induction false} TotalBackoff(waits: seq<nat>)
    requires BackoffSchedule(waits)
    ensures TotalWait(waits) == Pow2(|waits| + 1) - 2
  {
    if |waits| > 0 {
      var front := waits[..|waits| - 1];
      assert BackoffSchedule(front) by {
        forall k | 0 <= k < |front|
          ensures front[k] == Pow2(k + 1)
        {
          assert front[k] == waits[k];
        }
      }
      TotalBackoff(front);
    }
  }

  /** Success after `n < max_retries` caught failures: the store of attempt
      `n` is returned after `n + 1` attempts, with no further attempts, and
      the loop slept `2 ** (n + 1) - 2` in total. */
  lemma SuccessAfterFailures<S>(script: nat -> Attempt<S>, maxRetries: int, n: nat, run: Run<S>)
    requires IsRun(script, maxRetries, run)
    requires n < maxRetries
    requires RetryableUpTo(script, n)
    requires script(n).Built?
    ensures run.outcome == Done(script(n).store)
    ensures run.attempts == n + 1
    ensures |run.waits| == n
    ensures TotalWait(run.waits) == Pow2(n + 1) - 2
  {
    LengthOfRun(script, maxRetries, n, run);
    TotalBackoff(run.waits);
  }

  /** An exception other than `OpenAIError` at attempt `n` ends the loop with
      that exception: no wait follows it and no further attempt is made. */
  lemma OtherErrorPropagates<S>(script: nat -> Attempt<S>, maxRetries: int, n: nat, run: Run<S>)
    requires IsRun(script, maxRetries, run)
    requires n < maxRetries
    requires RetryableUpTo(script, n)
    requires script(n).OtherError?
    ensures run.outcome == Propagated(script(n).message)
    ensures run.attempts == n + 1
    ensures |run.waits| == n
  {
    LengthOfRun(script, maxRetries, n, run);
  }

  /** When attempt `n` is the first that does not raise `OpenAIError` and it
      is within the budget, the run slept exactly `n` times. */
  lemma LengthOfRun<S>(script: nat -> Attempt<S>, maxRetries: int, n: nat, run: Run<S>)
    requires IsRun(script, maxRetries, run)
    requires n < maxRetries
    requires RetryableUpTo(script, n)
    requires !script(n).OpenAIError?
    ensures |run.waits| == n
    ensures !run.outcome.Exhausted?
  {
  }

  /** `max_retries` consecutive `OpenAIError`s exhaust the loop after exactly
      `max_retries` attempts, and since a wait also follows the last failure
      it slept `2 ** (max_retries + 1) - 2` in total before raising. */
  lemma ExhaustedAfterRetryableFailures<S>(script: nat -> Attempt<S>, maxRetries: nat, run: Run<S>)
    requires IsRun(script, maxRetries, run)
    requires RetryableUpTo(script, maxRetries)
    ensures run.outcome == Exhausted
    ensures run.attempts == maxRetries
    ensures TotalWait(run.waits) == Pow2(maxRetries + 1) - 2
  {
    TotalBackoff(run.waits);
  }

  /** With the default bound of five, exhaustion costs five attempts and
      `2 + 4 + 8 + 16 + 32 == 62` of waiting. */
  lemma DefaultExhaustionWaits62<S>(script: nat -> Attempt<S>, run: Run<S>)
    requires IsRun(script, DefaultMaxRetries, run)
    requires RetryableUpTo(script, 5)
    ensures run.outcome == Exhausted
    ensures run.attempts == 5
    ensures TotalWait(run.waits) == 62
  {
    ExhaustedAfterRetryableFailures(script, 5, run);
    assert Pow2(6) == 64;
  }

  /** A bound of zero or less makes no attempt and no wait: the exhaustion
      exception is raised at once. */
  lemma NoAttemptsWithoutBudget<S>(script: nat -> Attempt<S>, maxRetries: int, run: Run<S>)
    requires IsRun(script, maxRetries, run)
    requires maxRetries <= 0
    ensures run == Run(Exhausted, 0, [])
  {
  }
}
