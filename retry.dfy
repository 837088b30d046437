/**
 * `withRetry`: call an operation up to `maxAttempts` times, sleeping between
 * attempts, and give up early on an error that is not worth retrying.
 *
 * The operation is an oracle from the attempt number to its outcome, the
 * `Math.random` draws are an oracle from the attempt number to a real in
 * [0, 1), and each `setTimeout` sleep is recorded as its delay in
 * milliseconds.
 */
module Retry {
  import opened Wrappers

  datatype RetryOptions = RetryOptions(maxAttempts: int, baseDelay: int, maxDelay: int, retryableStatusCodes: seq<int>)

  /** `Partial<RetryOptions>`: each field either given or left to the default. */
  datatype PartialRetryOptions = PartialRetryOptions(
    maxAttempts: Option<int>, baseDelay: Option<int>, maxDelay: Option<int>, retryableStatusCodes: Option<seq<int>>)

  const DefaultRetryOptions := RetryOptions(3, 1000, 30000, [429, 500, 502, 503, 504])

  const NoOptions := PartialRetryOptions(None, None, None, None)

  function Or<T>(given: Option<T>, fallback: T): T {
    if given.Some? then given.value else fallback
  }

  /** `{ ...DEFAULT_RETRY_OPTIONS, ...options }`: a given field wins, a missing one keeps the default. */
  function Merge(options: PartialRetryOptions): (config: RetryOptions)
    ensures options.maxAttempts.Some? ==> config.maxAttempts == options.maxAttempts.value
    ensures options.maxAttempts.None? ==> config.maxAttempts == 3
    ensures options.baseDelay.Some? ==> config.baseDelay == options.baseDelay.value
    ensures options.baseDelay.None? ==> config.baseDelay == 1000
    ensures options.maxDelay.Some? ==> config.maxDelay == options.maxDelay.value
    ensures options.maxDelay.None? ==> config.maxDelay == 30000
    ensures options.retryableStatusCodes.Some? ==> config.retryableStatusCodes == options.retryableStatusCodes.value
    ensures options.retryableStatusCodes.None? ==> config.retryableStatusCodes == [429, 500, 502, 503, 504]
  {
    RetryOptions(
      Or(options.maxAttempts, DefaultRetryOptions.maxAttempts),
      Or(options.baseDelay, DefaultRetryOptions.baseDelay),
      Or(options.maxDelay, DefaultRetryOptions.maxDelay),
      Or(options.retryableStatusCodes, DefaultRetryOptions.retryableStatusCodes))
  }

  /**
   * What the operation can throw: `undefined`/`null`, another falsy value,
   * or an error object with the fields the policy reads. `responseStatus`
   * and `retryAfterSeconds` are `None` when there is no `response`;
   * `retryAfterSeconds` is `None` too when the `retry-after` header is
   * missing, empty or not a finite number.
   */
  datatype Thrown =
    | Nullish
    | FalsyValue
    | Fault(status: Option<int>, responseStatus: Option<int>, code: Option<string>, retryAfterSeconds: Option<int>)

  datatype Attempt<T> = Resolved(value: T) | Rejected(error: Thrown)

  /**
   * How `withRetry` settles: with the operation's value, by rethrowing the
   * last error, with the synthetic `Error('Operation failed after retries')`,
   * or with the `TypeError` of reading `status` off `undefined` or `null`.
   */
  datatype RetryResult<T> = Returned(value: T) | Rethrown(error: Thrown) | Exhausted | PropertyReadCrash

  /** A whole run: how it settled and how often the operation was called. */
  datatype RetryRun<T> = RetryRun(result: RetryResult<T>, calls: nat)

  /** A status counts only when it is truthy (non-zero) and listed. */
  predicate Listed(status: Option<int>, codes: seq<int>) {
    status.Some? && status.value != 0 && status.value in codes
  }

  /** The retryability test on an error that is not nullish. */
  predicate IsRetryable(error: Thrown, codes: seq<int>) {
    error.Fault? &&
    (|| Listed(error.status, codes)
     || Listed(error.responseStatus, codes)
     || error.code == Some("ECONNRESET") || error.code == Some("ETIMEDOUT"))
  }

  function Pow2(n: nat): (r: nat)
    ensures r >= 1
  {
    if n == 0 then 1 else 2 * Pow2(n - 1)
  }

  function Min(a: real, b: real): real {
    if a <= b then a else b
  }

  function Max(a: real, b: real): real {
    if a >= b then a else b
  }

  /** The exponential backoff delay before jitter, for a failed attempt (1-based). */
  function BackoffDelay(config: RetryOptions, attempt: nat): real
    requires attempt >= 1
  {
    Min(config.baseDelay as real * Pow2(attempt - 1) as real, config.maxDelay as real)
  }

  /** The delay that a `retry-after` of `seconds` asks for. */
  function RetryAfterDelay(config: RetryOptions, seconds: int): real {
    Min((seconds * 1000) as real, config.maxDelay as real)
  }

  /**
   * The sleep after a retryable failure at `attempt`: the Retry-After delay
   * as is, or the backoff delay with ±25% jitter from the draw `u`; never
   * below zero.
   */
  function SleepFor(config: RetryOptions, error: Thrown, attempt: nat, u: real): real
    requires attempt >= 1 && error.Fault?
  {
    if error.retryAfterSeconds.Some? then
      Max(0.0, RetryAfterDelay(config, error.retryAfterSeconds.value))
    else
      var delay := BackoffDelay(config, attempt);
      Max(0.0, delay + delay * 0.25 * (u * 2.0 - 1.0))
  }

  /** `throw lastError || new Error(...)`. */
  function Settle<T>(lastError: Thrown): RetryResult<T> {
    if lastError.Fault? then Rethrown(lastError) else Exhausted
  }

  /** The run from `attempt` on, the earlier attempts having failed retryably. */
  function RunFrom<T>(config: RetryOptions, outcome: int -> Attempt<T>, attempt: int): RetryRun<T>
    requires 1 <= attempt <= config.maxAttempts
    decreases config.maxAttempts - attempt
  {
    match outcome(attempt)
    case Resolved(v) => RetryRun(Returned(v), attempt)
    case Rejected(e) =>
      if attempt == config.maxAttempts then RetryRun(Settle(e), attempt)
      else if e.Nullish? then RetryRun(PropertyReadCrash, attempt)
      else if !IsRetryable(e, config.retryableStatusCodes) then RetryRun(Settle(e), attempt)
      else RunFrom(config, outcome, attempt + 1)
  }

  /** The whole run under the merged options. */
  function Run<T>(config: RetryOptions, outcome: int -> Attempt<T>): RetryRun<T> {
    if config.maxAttempts < 1 then RetryRun(Exhausted, 0)
    else RunFrom(config, outcome, 1)
  }

  /** Every attempt before `n` failed with a retryable error. */
  predicate RetriedThrough<T>(config: RetryOptions, outcome: int -> Attempt<T>, n: int) {
    forall a | 1 <= a < n :: outcome(a).Rejected? && IsRetryable(outcome(a).error, config.retryableStatusCodes)
  }


  /** How the run from `attempt` ends when that attempt settles it. */
  lemma RunFromSettles<T>(config: RetryOptions, outcome: int -> Attempt<T>, attempt: int)
    requires 1 <= attempt <= config.maxAttempts
    ensures outcome(attempt).Resolved? ==>
      RunFrom(config, outcome, attempt) == RetryRun(Returned(outcome(attempt).value), attempt)
    ensures outcome(attempt).Rejected? && attempt == config.maxAttempts ==>
      RunFrom(config, outcome, attempt) == RetryRun(Settle(outcome(attempt).error), attempt)
    ensures outcome(attempt).Rejected? && attempt < config.maxAttempts && outcome(attempt).error.Nullish? ==>
      RunFrom(config, outcome, attempt) == RetryRun(PropertyReadCrash, attempt)
    ensures outcome(attempt).Rejected? && attempt < config.maxAttempts && !outcome(attempt).error.Nullish?
            && !IsRetryable(outcome(attempt).error, config.retryableStatusCodes) ==>
      RunFrom(config, outcome, attempt) == RetryRun(Settle(outcome(attempt).error), attempt)
  {
  }

  /** A retryable failure before the last attempt hands the run on to the next attempt. */
  lemma RunFromNext<T>(config: RetryOptions, outcome: int -> Attempt<T>, attempt: int)
    requires 1 <= attempt < config.maxAttempts
    requires outcome(attempt).Rejected? && !outcome(attempt).error.Nullish?
    requires IsRetryable(outcome(attempt).error, config.retryableStatusCodes)
    ensures RunFrom(config, outcome, attempt) == RunFrom(config, outcome, attempt + 1)
  {
  }

  /**
   * The sleeps a run of `calls` calls takes: one after each call but the
   * last, by the delay rule. In a run every such call failed with an error
   * object (`RetriedThrough`), so the `0.0` is never reached there.
   */
  function Sleeps<T>(config: RetryOptions, outcome: int -> Attempt<T>, draw: int -> real, calls: int): seq<real> {
    if calls <= 1 then []
    else
      var failed := outcome(calls - 1);
      Sleeps(config, outcome, draw, calls - 1)
        + [if failed.Rejected? && failed.error.Fault? then SleepFor(config, failed.error, calls - 1, draw(calls - 1)) else 0.0]
  }

  lemma SleepsNext<T>(config: RetryOptions, outcome: int -> Attempt<T>, draw: int -> real, n: int)
    requires n >= 1 && outcome(n).Rejected? && outcome(n).error.Fault?
    ensures Sleeps(config, outcome, draw, n + 1)
         == Sleeps(config, outcome, draw, n) + [SleepFor(config, outcome(n).error, n, draw(n))]
  {
  }


  /** The delay computation between two attempts: Retry-After or backoff, jitter, clamp at zero. */
  method SleepAfter(config: RetryOptions, error: Thrown, attempt: nat, u: real) returns (finalDelay: real)
    requires attempt >= 1 && error.Fault?
    ensures finalDelay == SleepFor(config, error, attempt, u)
  {
    var retryAfterSeconds := error.retryAfterSeconds;
    var delay: real;
    if retryAfterSeconds.Some? {
      delay := Min((retryAfterSeconds.value * 1000) as real, config.maxDelay as real);
    } else {
      delay := Min(config.baseDelay as real * Pow2(attempt - 1) as real, config.maxDelay as real);
    }
    var jitter := if retryAfterSeconds.Some? then 0.0 else delay * 0.25 * (u * 2.0 - 1.0);
    finalDelay := Max(0.0, delay + jitter);
  }

  /**
   * `withRetry`: merge the options over the defaults, then run the attempt
   * loop under the merged configuration.
   */
  method WithRetry<T>(operation: int -> Attempt<T>, draw: int -> real, options: PartialRetryOptions)
    returns (result: RetryResult<T>, calls: nat, sleeps: seq<real>)
    ensures RetryRun(result, calls) == Run(Merge(options), operation)
    ensures sleeps == Sleeps(Merge(options), operation, draw, calls)
  {
    var config := Merge(options);
    result, calls, sleeps := AttemptLoop(config, operation, draw);
  }

  /** The sleep after the retryable failure of `attempt`, added to the ones before it. */
  method Pause<T>(config: RetryOptions, operation: int -> Attempt<T>, draw: int -> real, attempt: nat,
                  sleeps: seq<real>) returns (after: seq<real>)
    requires attempt >= 1 && operation(attempt).Rejected? && operation(attempt).error.Fault?
    requires sleeps == Sleeps(config, operation, draw, attempt)
    ensures after == Sleeps(config, operation, draw, attempt + 1)
  {
    var finalDelay := SleepAfter(config, operation(attempt).error, attempt, draw(attempt));
    SleepsNext(config, operation, draw, attempt);
    after := sleeps + [finalDelay];
  }

  /** The attempt loop of `withRetry`, under an already merged configuration. */
  method AttemptLoop<T>(config: RetryOptions, operation: int -> Attempt<T>, draw: int -> real)
    returns (result: RetryResult<T>, calls: nat, sleeps: seq<real>)
    ensures RetryRun(result, calls) == Run(config, operation)
    ensures sleeps == Sleeps(config, operation, draw, calls)
  {
    var lastError: Option<Thrown> := None;
    calls, sleeps := 0, [];
    var attempt: nat := 1;
    while attempt <= config.maxAttempts
      invariant attempt >= 1
      invariant sleeps == Sleeps(config, operation, draw, attempt)
      invariant attempt <= config.maxAttempts ==>
        calls == attempt - 1 && Run(config, operation) == RunFrom(config, operation, attempt)
      invariant attempt > config.maxAttempts ==> config.maxAttempts < 1 && attempt == 1 && calls == 0 && lastError == None
      decreases config.maxAttempts - attempt
    {
      calls := calls + 1;
      var outcome := operation(attempt);
      RunFromSettles(config, operation, attempt);
      if outcome.Resolved? {
        return Returned(outcome.value), calls, sleeps;
      }
      var error := outcome.error;
      lastError := Some(error);
      if attempt == config.maxAttempts {
        break;
      }
      if error.Nullish? {
        return PropertyReadCrash, calls, sleeps;
      }
      var isRetryable := IsRetryable(error, config.retryableStatusCodes);
      if !isRetryable {
        break;
      }
      RunFromNext(config, operation, attempt);
      sleeps := Pause(config, operation, draw, attempt, sleeps);
      attempt := attempt + 1;
    }
    result := if lastError.Some? then Settle(lastError.value) else Exhausted;
  }
}
