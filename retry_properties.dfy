/**
 * What a run of `withRetry` looks like from outside: how many calls, which
 * result, which sleeps, and the delay rules.
 */
module RetryProperties {
  import opened Wrappers
  import opened Retry

  /** A run that got past `n - 1` retryable failures continues as the run from attempt `n`. */
  lemma {:induction false} RunReaches<T>(config: RetryOptions, outcome: int -> Attempt<T>, n: int)
    requires 1 <= n <= config.maxAttempts && RetriedThrough(config, outcome, n)
    ensures Run(config, outcome) == RunFrom(config, outcome, n)
  {
    if n > 1 {
      RunReaches(config, outcome, n - 1);
    }
  }

  /** A success at attempt `n` after retryable failures returns its value after exactly `n` calls. */
  lemma RunSucceedsAt<T>(config: RetryOptions, outcome: int -> Attempt<T>, n: int, v: T)
    requires 1 <= n <= config.maxAttempts && RetriedThrough(config, outcome, n)
    requires outcome(n) == Resolved(v)
    ensures Run(config, outcome) == RetryRun(Returned(v), n)
  {
    RunReaches(config, outcome, n);
  }

  /**
   * A non-retryable error before the last attempt ends the run at that call:
   * an error object is rethrown unchanged, a falsy value becomes the
   * synthetic error.
   */
  lemma RunStopsOnFatal<T>(config: RetryOptions, outcome: int -> Attempt<T>, n: int, e: Thrown)
    requires 1 <= n < config.maxAttempts && RetriedThrough(config, outcome, n)
    requires outcome(n) == Rejected(e) && !e.Nullish? && !IsRetryable(e, config.retryableStatusCodes)
    ensures Run(config, outcome) == RetryRun(if e.Fault? then Rethrown(e) else Exhausted, n)
  {
    RunReaches(config, outcome, n);
  }

  /** `undefined` or `null` thrown before the last attempt crashes on reading `status`. */
  lemma RunCrashesOnNullish<T>(config: RetryOptions, outcome: int -> Attempt<T>, n: int)
    requires 1 <= n < config.maxAttempts && RetriedThrough(config, outcome, n)
    requires outcome(n) == Rejected(Nullish)
    ensures Run(config, outcome) == RetryRun(PropertyReadCrash, n)
  {
    RunReaches(config, outcome, n);
  }

  /**
   * A failure at the last attempt ends the run whatever its kind, even a
   * retryable one: an error object is rethrown, anything falsy becomes the
   * synthetic error.
   */
  lemma RunFinalAttemptTerminal<T>(config: RetryOptions, outcome: int -> Attempt<T>, e: Thrown)
    requires config.maxAttempts >= 1 && RetriedThrough(config, outcome, config.maxAttempts)
    requires outcome(config.maxAttempts) == Rejected(e)
    ensures Run(config, outcome) == RetryRun(if e.Fault? then Rethrown(e) else Exhausted, config.maxAttempts)
  {
    RunReaches(config, outcome, config.maxAttempts);
  }

  /** How a run settles is decided by its last call. */
  ghost predicate SettledByLastCall<T>(config: RetryOptions, outcome: int -> Attempt<T>, r: RetryRun<T>) {
    && (r.result.Returned? ==> outcome(r.calls) == Resolved(r.result.value))
    && (r.result.Rethrown? ==> outcome(r.calls) == Rejected(r.result.error))
    && (r.result.Exhausted? && r.calls >= 1 ==> outcome(r.calls).Rejected? && !outcome(r.calls).error.Fault?)
    && (r.result.PropertyReadCrash? ==> outcome(r.calls) == Rejected(Nullish) && r.calls < config.maxAttempts)
  }

  /**
   * The run from `attempt` on makes between `attempt` and the limit many
   * calls, every call before its last failed retryably, and its last call
   * decides how it settles.
   */
  lemma {:induction false} RunFromShape<T>(config: RetryOptions, outcome: int -> Attempt<T>, attempt: int)
    requires 1 <= attempt <= config.maxAttempts && RetriedThrough(config, outcome, attempt)
    ensures attempt <= RunFrom(config, outcome, attempt).calls <= config.maxAttempts
    ensures RetriedThrough(config, outcome, RunFrom(config, outcome, attempt).calls)
    ensures SettledByLastCall(config, outcome, RunFrom(config, outcome, attempt))
    decreases config.maxAttempts - attempt
  {
    if outcome(attempt).Rejected? && attempt < config.maxAttempts
       && IsRetryable(outcome(attempt).error, config.retryableStatusCodes) {
      RunFromShape(config, outcome, attempt + 1);
    }
  }

  /**
   * The whole run: no call at all when `maxAttempts < 1` (the synthetic
   * error); otherwise at least one and at most `maxAttempts` calls, each but
   * the last a retryable failure, and a returned value or rethrown error is
   * the last call's own.
   */
  lemma RunShape<T>(config: RetryOptions, outcome: int -> Attempt<T>)
    ensures config.maxAttempts < 1 ==> Run(config, outcome) == RetryRun(Exhausted, 0)
    ensures config.maxAttempts >= 1 ==> 1 <= Run(config, outcome).calls <= config.maxAttempts
    ensures RetriedThrough(config, outcome, Run(config, outcome).calls)
    ensures SettledByLastCall(config, outcome, Run(config, outcome))
  {
    if config.maxAttempts >= 1 {
      RunFromShape(config, outcome, 1);
    }
  }

  /**
   * The sleeps of a run of `calls` calls: one between each two consecutive
   * calls and none after the last, each the delay rule's value for the
   * failure before it, and none negative.
   */
  lemma {:induction false} SleepsShape<T>(config: RetryOptions, outcome: int -> Attempt<T>, draw: int -> real, calls: int)
    requires RetriedThrough(config, outcome, calls)
    ensures var s := Sleeps(config, outcome, draw, calls);
      && |s| == (if calls <= 1 then 0 else calls - 1)
      && forall k | 0 <= k < |s| ::
           && outcome(k + 1).Rejected? && outcome(k + 1).error.Fault?
           && s[k] == SleepFor(config, outcome(k + 1).error, k + 1, draw(k + 1))
           && s[k] >= 0.0
  {
    if calls > 1 {
      SleepsShape(config, outcome, draw, calls - 1);
      SleepNonNegative(config, outcome(calls - 1).error, calls - 1, draw(calls - 1));
    }
  }

  lemma SleepNonNegative(config: RetryOptions, error: Thrown, attempt: nat, u: real)
    requires attempt >= 1 && error.Fault?
    ensures SleepFor(config, error, attempt, u) >= 0.0
  {
    if error.retryAfterSeconds.None? {
      var d := BackoffDelay(config, attempt);
      assert SleepFor(config, error, attempt, u) == Max(0.0, d + d * 0.25 * (u * 2.0 - 1.0));
    }
  }

  /**
   * A finite Retry-After of `n` seconds is honoured without jitter: `n`
   * seconds when within `maxDelay`, `maxDelay` beyond it, zero when negative;
   * the random draw plays no part.
   */
  lemma RetryAfterHonoured(config: RetryOptions, error: Thrown, attempt: nat, u: real, u': real)
    requires attempt >= 1 && error.Fault? && error.retryAfterSeconds.Some?
    ensures var n := error.retryAfterSeconds.value;
      && (0 <= n * 1000 <= config.maxDelay ==> SleepFor(config, error, attempt, u) == (n * 1000) as real)
      && (0 <= config.maxDelay < n * 1000 ==> SleepFor(config, error, attempt, u) == config.maxDelay as real)
      && (n < 0 ==> SleepFor(config, error, attempt, u) == 0.0)
      && SleepFor(config, error, attempt, u) == SleepFor(config, error, attempt, u')
  {
  }

  /**
   * Without Retry-After the sleep is the backoff delay within ±25%, and it is
   * never negative.
   */
  lemma JitterBounds(config: RetryOptions, error: Thrown, attempt: nat, u: real)
    requires attempt >= 1 && error.Fault? && error.retryAfterSeconds.None?
    requires config.baseDelay >= 0 && config.maxDelay >= 0
    requires 0.0 <= u < 1.0
    ensures var d := BackoffDelay(config, attempt);
      0.75 * d <= SleepFor(config, error, attempt, u) <= 1.25 * d
  {
    JitterRange(BackoffDelay(config, attempt), u);
  }

  lemma JitterRange(d: real, u: real)
    requires d >= 0.0 && 0.0 <= u < 1.0
    ensures 0.75 * d <= Max(0.0, d + d * 0.25 * (u * 2.0 - 1.0)) <= 1.25 * d
  {
    var t := u * 2.0 - 1.0;
    assert -d <= d * t <= d by {
      if t >= 0.0 {
        assert d * t <= d * 1.0;
      } else {
        assert d * (-t) <= d * 1.0;
      }
    }
    assert d * 0.25 * t == 0.25 * (d * t);
  }

  /** The backoff delay doubles per attempt until it reaches `maxDelay`, and never exceeds it. */
  lemma BackoffDoublesUpToCap(config: RetryOptions, attempt: nat)
    requires attempt >= 1 && config.baseDelay >= 0
    ensures BackoffDelay(config, attempt) <= config.maxDelay as real
    ensures BackoffDelay(config, attempt) <= BackoffDelay(config, attempt + 1)
    ensures BackoffDelay(config, attempt + 1) == Min(2.0 * (config.baseDelay as real * Pow2(attempt - 1) as real), config.maxDelay as real)
    ensures BackoffDelay(config, 1) == Min(config.baseDelay as real, config.maxDelay as real)
  {
    BackoffNext(config, attempt);
    BackoffFirst(config);
  }

  lemma BackoffNext(config: RetryOptions, attempt: nat)
    requires attempt >= 1 && config.baseDelay >= 0
    ensures BackoffDelay(config, attempt) <= BackoffDelay(config, attempt + 1)
    ensures BackoffDelay(config, attempt + 1) == Min(2.0 * (config.baseDelay as real * Pow2(attempt - 1) as real), config.maxDelay as real)
  {
    var b, p := config.baseDelay as real, Pow2(attempt - 1) as real;
    var m := config.maxDelay as real;
    assert Pow2(attempt) as real == 2.0 * p;
    DoubleProduct(b, p);
    NonNegativeProduct(b, p);
    var q := b * p;
    assert BackoffDelay(config, attempt) == Min(q, m);
    assert BackoffDelay(config, attempt + 1) == Min(2.0 * q, m);
  }

  lemma BackoffFirst(config: RetryOptions)
    ensures BackoffDelay(config, 1) == Min(config.baseDelay as real, config.maxDelay as real)
  {
    assert Pow2(0) == 1;
  }

  lemma DoubleProduct(b: real, p: real)
    ensures b * (2.0 * p) == 2.0 * (b * p)
  {
  }

  lemma NonNegativeProduct(b: real, p: real)
    requires b >= 0.0 && p >= 0.0
    ensures b * p >= 0.0
  {
  }


  /** Under the defaults, a bare `status` is retryable exactly when it is 429 or one of 500, 502, 503, 504. */
  lemma DefaultCodesRetryable(status: int)
    ensures IsRetryable(Fault(Some(status), None, None, None), Merge(NoOptions).retryableStatusCodes)
        <==> status in {429, 500, 502, 503, 504}
  {
  }

  /** Under the defaults the operation is called at least once and at most three times. */
  lemma DefaultsCallAtMostThrice<T>(outcome: int -> Attempt<T>)
    ensures 1 <= Run(Merge(NoOptions), outcome).calls <= 3
  {
    RunShape(Merge(NoOptions), outcome);
  }
}
