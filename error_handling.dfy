/** Retry with backoff, the circuit breaker and the fallback wrapper of
    jc/error_handling.py.

    The wrapped function is modelled by what each of its calls does: a
    `CallResult` per call, so the `k`-th attempt of a retry loop is `calls(k)`.
    Sleeping is recorded (the delays slept, in order) rather than performed,
    and the clock is a parameter in whole seconds. */
module ErrorHandling {
  import opened Wrappers

  /** An exception, by the name of its class. */
  datatype Exc = Exc(kind: string)

  /** The exception types of an `except` clause: the default `(Exception,)`
      catches every exception; otherwise the listed classes. Python's
      `except` also catches subclasses of a listed class, and the model has no
      class hierarchy: `kinds` is meant to hold every class name the clause
      catches, subclasses included. */
  datatype Catch = AnyException | Only(kinds: set<string>)

  predicate Catches(c: Catch, e: Exc) {
    c.AnyException? || e.kind in c.kinds
  }

  /** What one call of the wrapped function does. */
  datatype CallResult<T> = Returned(value: T) | Raised(exc: Exc)

  // ---------------------------------------------------------------------------
  // retry_with_backoff
  // ---------------------------------------------------------------------------

  /** How the retry wrapper ends: a value, an exception it does not catch, or
      RetryExhausted chained to the last caught exception (none when no
      attempt was made). */
  datatype RetryOutcome<T> = Succeeded(value: T) | Propagated(exc: Exc) | Exhausted(cause: Option<Exc>)

  /** The outcome, the delays slept in order, and the number of calls made. */
  datatype RetryRun<T> = RetryRun(outcome: RetryOutcome<T>, sleeps: seq<real>, calls: nat)

  /** The attempts from `attempt` on, with `delay` the next sleep. */
  function RetryFrom<T>(calls: nat -> CallResult<T>, catches: Catch, maxAttempts: int, attempt: nat,
                        delay: real, factor: real): RetryRun<T>
    requires 1 <= attempt <= maxAttempts
    decreases maxAttempts - attempt
  {
    match calls(attempt)
    case Returned(v) => RetryRun(Succeeded(v), [], attempt)
    case Raised(e) =>
      if !Catches(catches, e) then RetryRun(Propagated(e), [], attempt)
      else if attempt == maxAttempts then RetryRun(Exhausted(Some(e)), [], attempt)
      else
        var rest := RetryFrom(calls, catches, maxAttempts, attempt + 1, delay * factor, factor);
        rest.(sleeps := [delay] + rest.sleeps)
  }

  /** The decorated call `retry_with_backoff(max_attempts, initial_delay,
      backoff_factor, exceptions)(func)()`. */
  function Retry<T>(calls: nat -> CallResult<T>, catches: Catch, maxAttempts: int,
                    initialDelay: real, factor: real): RetryRun<T>
  {
    if maxAttempts < 1 then RetryRun(Exhausted(None), [], 0)
    else RetryFrom(calls, catches, maxAttempts, 1, initialDelay, factor)
  }

  /** Every attempt before the last one made raised an exception the wrapper
      catches, and the last one decided the outcome. */
  lemma {:induction false} RetryFromCalls<T>(calls: nat -> CallResult<T>, catches: Catch, maxAttempts: int,
                                             attempt: nat, delay: real, factor: real)
    requires 1 <= attempt <= maxAttempts
    decreases maxAttempts - attempt
    ensures var run := RetryFrom(calls, catches, maxAttempts, attempt, delay, factor);
            attempt <= run.calls <= maxAttempts &&
            (forall k :: attempt <= k < run.calls ==> calls(k).Raised? && Catches(catches, calls(k).exc)) &&
            (run.outcome.Succeeded? ==> calls(run.calls) == Returned(run.outcome.value)) &&
            (run.outcome.Propagated? ==> calls(run.calls) == Raised(run.outcome.exc) &&
                                         !Catches(catches, run.outcome.exc)) &&
            (run.outcome.Exhausted? ==>
               run.calls == maxAttempts && calls(maxAttempts).Raised? &&
               Catches(catches, calls(maxAttempts).exc) && run.outcome.cause == Some(calls(maxAttempts).exc))
  {
    if calls(attempt).Raised? && Catches(catches, calls(attempt).exc) && attempt < maxAttempts {
      RetryFromCalls(calls, catches, maxAttempts, attempt + 1, delay * factor, factor);
    }
  }

  /** The `n` delays slept from `delay` on: each is `factor` times the one before. */
  function Delays(delay: real, factor: real, n: nat): (r: seq<real>)
    ensures |r| == n
    decreases n
  {
    if n == 0 then [] else [delay] + Delays(delay * factor, factor, n - 1)
  }

  /** The `k`-th delay from `delay` on: `delay` multiplied `k` times by `factor`. */
  function NthDelay(delay: real, factor: real, k: nat): real
    decreases k
  {
    if k == 0 then delay else NthDelay(delay, factor, k - 1) * factor
  }

  lemma {:induction false} NthDelayShift(delay: real, factor: real, k: nat)
    decreases k
    ensures NthDelay(delay * factor, factor, k) == NthDelay(delay, factor, k + 1)
  {
    if k > 0 {
      NthDelayShift(delay, factor, k - 1);
    }
  }

  lemma {:induction false} DelaysAreNth(delay: real, factor: real, n: nat, k: nat)
    requires k < n
    decreases n
    ensures Delays(delay, factor, n)[k] == NthDelay(delay, factor, k)
  {
    if k > 0 {
      DelaysAreNth(delay * factor, factor, n - 1, k - 1);
      NthDelayShift(delay, factor, k - 1);
    }
  }

  /** The first delay is `delay` and each next one is `factor` times the one before. */
  lemma DelaysGeometric(delay: real, factor: real, n: nat)
    ensures n > 0 ==> Delays(delay, factor, n)[0] == delay
    ensures forall k :: 0 <= k < n - 1 ==> Delays(delay, factor, n)[k + 1] == Delays(delay, factor, n)[k] * factor
  {
    forall k | 0 <= k < n - 1
      ensures Delays(delay, factor, n)[k + 1] == Delays(delay, factor, n)[k] * factor
    {
      DelaysAreNth(delay, factor, n, k);
      DelaysAreNth(delay, factor, n, k + 1);
    }
  }

  /** There is one sleep fewer than attempts, and they are the delays from `delay` on. */
  lemma {:induction false} RetryFromSleeps<T>(calls: nat -> CallResult<T>, catches: Catch, maxAttempts: int,
                                              attempt: nat, delay: real, factor: real)
    requires 1 <= attempt <= maxAttempts
    decreases maxAttempts - attempt
    ensures var run := RetryFrom(calls, catches, maxAttempts, attempt, delay, factor);
            run.calls >= attempt && run.sleeps == Delays(delay, factor, run.calls - attempt)
  {
    if calls(attempt).Raised? && Catches(catches, calls(attempt).exc) && attempt < maxAttempts {
      RetryFromSleeps(calls, catches, maxAttempts, attempt + 1, delay * factor, factor);
    }
  }

  /** The promises of `retry_with_backoff`: at most `max_attempts` calls; the
      first success is returned; an exception outside `exceptions` propagates
      at once; after `max_attempts` caught failures RetryExhausted is raised
      from the last of them; it sleeps only between attempts, never after the
      last, each delay `backoff_factor` times the previous one. */
  lemma RetryPromises<T>(calls: nat -> CallResult<T>, catches: Catch, maxAttempts: int,
                         initialDelay: real, factor: real)
    ensures var run := Retry(calls, catches, maxAttempts, initialDelay, factor);
            run.calls <= (if maxAttempts < 0 then 0 else maxAttempts) &&
            (forall k :: 1 <= k < run.calls ==> calls(k).Raised? && Catches(catches, calls(k).exc)) &&
            (run.calls == 0 ==> run.outcome == Exhausted(None) && maxAttempts < 1) &&
            |run.sleeps| == (if run.calls == 0 then 0 else run.calls - 1) &&
            (run.sleeps != [] ==> run.sleeps[0] == initialDelay) &&
            (forall k :: 0 <= k < |run.sleeps| - 1 ==> run.sleeps[k + 1] == run.sleeps[k] * factor) &&
            (run.outcome.Succeeded? ==> calls(run.calls) == Returned(run.outcome.value)) &&
            (run.outcome.Propagated? ==> run.calls >= 1 && calls(run.calls) == Raised(run.outcome.exc) &&
                                         !Catches(catches, run.outcome.exc)) &&
            (run.outcome.Exhausted? && maxAttempts >= 1 ==>
               run.calls == maxAttempts && calls(maxAttempts).Raised? &&
               run.outcome.cause == Some(calls(maxAttempts).exc))
  {
    if maxAttempts >= 1 {
      RetryFromCalls(calls, catches, maxAttempts, 1, initialDelay, factor);
      RetryFromSleeps(calls, catches, maxAttempts, 1, initialDelay, factor);
      var run := Retry(calls, catches, maxAttempts, initialDelay, factor);
      DelaysGeometric(initialDelay, factor, run.calls - 1);
    }
  }

  /** The wrapper's loop: `delay` and `last_exception` are updated per attempt. */
  method RetryWithBackoff<T>(calls: nat -> CallResult<T>, catches: Catch, maxAttempts: int,
                             initialDelay: real, factor: real) returns (run: RetryRun<T>)
    ensures run == Retry(calls, catches, maxAttempts, initialDelay, factor)
  {
    var delay := initialDelay;
    var last: Option<Exc> := None;
    var sleeps: seq<real> := [];
    var attempt := 1;
    while attempt <= maxAttempts
      invariant 1 <= attempt && (attempt <= maxAttempts || (attempt == 1 && maxAttempts < 1))
      invariant maxAttempts < 1 ==> sleeps == [] && last == None
      invariant attempt <= maxAttempts ==>
                  var rest := RetryFrom(calls, catches, maxAttempts, attempt, delay, factor);
                  Retry(calls, catches, maxAttempts, initialDelay, factor) == rest.(sleeps := sleeps + rest.sleeps)
      decreases maxAttempts - attempt
    {
      match calls(attempt)
      case Returned(v) =>
        return RetryRun(Succeeded(v), sleeps, attempt);
      case Raised(e) =>
        if !Catches(catches, e) {
          return RetryRun(Propagated(e), sleeps, attempt);
        }
        last := Some(e);
        if attempt == maxAttempts {
          return RetryRun(Exhausted(last), sleeps, attempt);
        }
        var rest := RetryFrom(calls, catches, maxAttempts, attempt + 1, delay * factor, factor);
        assert sleeps + ([delay] + rest.sleeps) == (sleeps + [delay]) + rest.sleeps;
        sleeps := sleeps + [delay];
        delay := delay * factor;
        attempt := attempt + 1;
    }
    run := RetryRun(Exhausted(last), sleeps, 0);
  }

  // ---------------------------------------------------------------------------
  // CircuitBreaker
  // ---------------------------------------------------------------------------

  datatype State = Closed | Open | HalfOpen

  /** The mutable part of a breaker: `state`, `failure_count`, `last_failure_time`. */
  datatype Breaker = Breaker(state: State, failureCount: int, lastFailureTime: Option<int>)

  /** The constructor arguments: `failure_threshold`, `timeout`, `expected_exceptions`. */
  datatype BreakerConfig = BreakerConfig(failureThreshold: int, timeout: int, expected: Catch)

  /** What a guarded call does: the function's value, CircuitBreakerOpen
      without calling the function, or the function's exception re-raised. */
  datatype Guarded<T> = Passed(value: T) | Rejected | Reraised(exc: Exc)

  datatype Step<T> = Step(breaker: Breaker, result: Guarded<T>)

  /** What every reachable breaker satisfies: an open or half-open breaker has
      recorded a failure and has at least `failure_threshold` of them. */
  predicate Consistent(cfg: BreakerConfig, b: Breaker) {
    b.failureCount >= 0 &&
    (b.state != Closed ==> b.lastFailureTime.Some? && b.failureCount >= cfg.failureThreshold)
  }

  function Initial(): Breaker {
    Breaker(Closed, 0, None)
  }

  /** `_on_success`. */
  function AfterSuccess(b: Breaker): Breaker {
    Breaker(if b.state == HalfOpen then Closed else b.state, 0, b.lastFailureTime)
  }

  /** `_on_failure` at time `now`. */
  function AfterFailure(cfg: BreakerConfig, b: Breaker, now: int): Breaker {
    var count := b.failureCount + 1;
    Breaker(if count >= cfg.failureThreshold then Open else b.state, count, Some(now))
  }

  /** An open breaker rejects calls until `timeout` seconds after the last failure. */
  predicate Rejects(cfg: BreakerConfig, b: Breaker, now: int)
    requires Consistent(cfg, b)
  {
    b.state == Open && now - b.lastFailureTime.value < cfg.timeout
  }

  /** One call through the breaker's wrapper at time `now`. */
  function Invoke<T>(cfg: BreakerConfig, b: Breaker, now: int, call: CallResult<T>): Step<T>
    requires Consistent(cfg, b)
  {
    if Rejects(cfg, b, now) then Step(b, Rejected)
    else
      var admitted := if b.state == Open then b.(state := HalfOpen) else b;
      match call
      case Returned(v) => Step(AfterSuccess(admitted), Passed(v))
      case Raised(e) =>
        if Catches(cfg.expected, e) then Step(AfterFailure(cfg, admitted, now), Reraised(e))
        else Step(admitted, Reraised(e))
  }

  /** Every call keeps the breaker consistent. */
  lemma InvokeKeepsConsistent<T>(cfg: BreakerConfig, b: Breaker, now: int, call: CallResult<T>)
    requires Consistent(cfg, b)
    ensures Consistent(cfg, Invoke(cfg, b, now, call).breaker)
  {
  }

  /** While open and within `timeout`, a call is rejected whatever the
      function would do, and the breaker is unchanged. */
  lemma OpenRejectsWithoutCalling<T>(cfg: BreakerConfig, b: Breaker, now: int, c1: CallResult<T>, c2: CallResult<T>)
    requires Consistent(cfg, b) && b.state == Open && now - b.lastFailureTime.value < cfg.timeout
    ensures Invoke(cfg, b, now, c1) == Invoke(cfg, b, now, c2) == Step(b, Rejected)
  {
  }

  /** An admitted call that raises an expected exception counts one failure at
      `now`, and the breaker is then open exactly when the count has reached
      the threshold. */
  lemma FailureCountsAndOpens<T>(cfg: BreakerConfig, b: Breaker, now: int, e: Exc)
    requires Consistent(cfg, b) && !Rejects(cfg, b, now) && Catches(cfg.expected, e)
    ensures var s := Invoke<T>(cfg, b, now, Raised(e));
            s.result == Reraised(e) &&
            s.breaker.failureCount == b.failureCount + 1 && s.breaker.lastFailureTime == Some(now) &&
            (s.breaker.state == Open <==> b.failureCount + 1 >= cfg.failureThreshold)
  {
  }

  /** After the timeout the breaker lets one call through half-open, and
      since the count is not reset, one failure re-opens it. */
  lemma HalfOpenFailureReopens<T>(cfg: BreakerConfig, b: Breaker, now: int, e: Exc)
    requires Consistent(cfg, b) && b.state == Open && now - b.lastFailureTime.value >= cfg.timeout
    requires Catches(cfg.expected, e)
    ensures Invoke<T>(cfg, b, now, Raised(e)).breaker == Breaker(Open, b.failureCount + 1, Some(now))
  {
  }

  /** An admitted success returns the value, resets the count and closes the breaker. */
  lemma SuccessCloses<T>(cfg: BreakerConfig, b: Breaker, now: int, v: T)
    requires Consistent(cfg, b) && !Rejects(cfg, b, now)
    ensures Invoke(cfg, b, now, Returned(v)) == Step(Breaker(Closed, 0, b.lastFailureTime), Passed(v))
  {
  }

  /** An exception outside `expected_exceptions` is re-raised and changes
      neither the count nor the failure time; the state changes only by the
      half-open admission of an open breaker. */
  lemma UnexpectedPassesThrough<T>(cfg: BreakerConfig, b: Breaker, now: int, e: Exc)
    requires Consistent(cfg, b) && !Rejects(cfg, b, now) && !Catches(cfg.expected, e)
    ensures var s := Invoke<T>(cfg, b, now, Raised(e));
            s.result == Reraised(e) && s.breaker.failureCount == b.failureCount &&
            s.breaker.lastFailureTime == b.lastFailureTime &&
            s.breaker.state == (if b.state == Open then HalfOpen else b.state)
  {
  }

  /** The breaker after a series of expected failures at the given times. */
  function FailAt(cfg: BreakerConfig, b: Breaker, times: seq<int>, e: Exc): (r: Breaker)
    requires Consistent(cfg, b)
    ensures Consistent(cfg, r)
    decreases |times|
  {
    if times == [] then b
    else
      var before := FailAt(cfg, b, times[..|times| - 1], e);
      var failed: CallResult<int> := Raised(e);
      InvokeKeepsConsistent(cfg, before, times[|times| - 1], failed);
      Invoke(cfg, before, times[|times| - 1], failed).breaker
  }

  /** From a new breaker, consecutive expected failures keep it closed and
      count them until there are `failure_threshold` of them, which opens it. */
  lemma {:induction false} ThresholdFailuresOpen(cfg: BreakerConfig, times: seq<int>, e: Exc)
    requires cfg.failureThreshold >= 1 && 1 <= |times| <= cfg.failureThreshold
    requires Catches(cfg.expected, e)
    ensures FailAt(cfg, Initial(), times, e)
            == Breaker(if |times| == cfg.failureThreshold then Open else Closed, |times|, Some(times[|times| - 1]))
  {
    if |times| > 1 {
      ThresholdFailuresOpen(cfg, times[..|times| - 1], e);
    }
  }

  /** CircuitBreaker: the configuration is fixed at construction; the wrapper
      and its two handlers update the fields in place. */
  class CircuitBreaker {
    const failureThreshold: int
    const timeout: int
    const expected: Catch
    var failureCount: int
    var lastFailureTime: Option<int>
    var state: State

    function Config(): BreakerConfig {
      BreakerConfig(failureThreshold, timeout, expected)
    }

    function Snapshot(): Breaker
      reads this
    {
      Breaker(state, failureCount, lastFailureTime)
    }

    predicate Valid()
      reads this
    {
      Consistent(Config(), Snapshot())
    }

    /** A new breaker is closed with no failures. */
    constructor (failureThreshold: int, timeout: int, expected: Catch)
      ensures Config() == BreakerConfig(failureThreshold, timeout, expected)
      ensures Snapshot() == Initial() && Valid()
    {
      this.failureThreshold := failureThreshold;
      this.timeout := timeout;
      this.expected := expected;
      failureCount := 0;
      lastFailureTime := None;
      state := Closed;
    }

    /** `_on_success`: half-open closes, the count resets. */
    method OnSuccess()
      modifies this`state, this`failureCount
      ensures Snapshot() == AfterSuccess(old(Snapshot()))
    {
      if state == HalfOpen {
        state := Closed;
      }
      failureCount := 0;
    }

    /** `_on_failure` at time `now`. */
    method OnFailure(now: int)
      modifies this`state, this`failureCount, this`lastFailureTime
      ensures Snapshot() == AfterFailure(Config(), old(Snapshot()), now)
    {
      failureCount := failureCount + 1;
      lastFailureTime := Some(now);
      if failureCount >= failureThreshold {
        state := Open;
      }
    }

    /** The wrapper `__call__` builds, called at time `now` for a function
        that would do `call`. */
    method Call<T>(now: int, call: CallResult<T>) returns (r: Guarded<T>)
      requires Valid()
      modifies this
      ensures Valid()
      ensures Step(Snapshot(), r) == Invoke(Config(), old(Snapshot()), now, call)
    {
      InvokeKeepsConsistent(Config(), Snapshot(), now, call);
      if state == Open {
        if now - lastFailureTime.value >= timeout {
          state := HalfOpen;
        } else {
          return Rejected;
        }
      }
      match call
      case Returned(v) =>
        OnSuccess();
        r := Passed(v);
      case Raised(e) =>
        if Catches(expected, e) {
          OnFailure(now);
        }
        r := Reraised(e);
    }
  }

  // ---------------------------------------------------------------------------
  // handle_errors
  // ---------------------------------------------------------------------------

  /** `handle_errors(fallback_value, log_exceptions, reraise)(func)()`: the
      function's value, or on any exception the fallback, unless `reraise`. */
  function HandleErrors<T>(fallback: T, reraise: bool, call: CallResult<T>): (r: Result<T, Exc>)
    ensures call.Returned? ==> r == Ok(call.value)
    ensures call.Raised? && !reraise ==> r == Ok(fallback)
    ensures call.Raised? && reraise ==> r == Err(call.exc)
  {
    match call
    case Returned(v) => Ok(v)
    case Raised(e) => if reraise then Err(e) else Ok(fallback)
  }

  /** Without `reraise` the wrapper never raises, and its value is the
      function's whenever the function returns. */
  lemma HandleErrorsNeverRaises<T>(fallback: T, call: CallResult<T>)
    ensures HandleErrors(fallback, false, call).Ok?
    ensures HandleErrors(fallback, false, call).value == (if call.Returned? then call.value else fallback)
  {
  }
}
