/** Retrying an asynchronous call with exponential backoff. The wrapped call
    is a function from the 0-based attempt number to what that attempt does
    (returns a value or raises an error); the sleeps are recorded as the
    sequence of delays waited, in order. */
module Retry {

  datatype Outcome<T, E> = Returns(value: T) | Raises(error: E)

  /** What `retry_with_backoff` ends with: a value, an error re-raised, or
      the `TypeError` of `raise None` when no attempt was made. */
  datatype RetryResult<T, E> = Returned(value: T) | Reraised(error: E) | NoneRaised

  const DefaultMaxRetries: nat := 3
  const DefaultInitialDelay: real := 1.0
  const DefaultBackoffFactor: real := 2.0

  function Pow(f: real, k: nat): real {
    if k == 0 then 1.0 else Pow(f, k - 1) * f
  }

  /** An attempt ends the loop when it returns or raises an error outside
      the retried ones. */
  predicate Stops<T, E>(o: Outcome<T, E>, retryable: E -> bool) {
    o.Returns? || !retryable(o.error)
  }

  /** The attempt at which the loop ends, searching from `k`: the first one
      in [k, last] that stops, or `last` when none before it does. */
  function StopAt<T, E>(call: nat -> Outcome<T, E>, retryable: E -> bool, k: nat, last: nat): (n: nat)
    requires k <= last
    ensures k <= n <= last
    ensures Stops(call(n), retryable) || n == last
    ensures forall j :: k <= j < n ==> !Stops(call(j), retryable)
    decreases last - k
  {
    if k == last || Stops(call(k), retryable) then k else StopAt(call, retryable, k + 1, last)
  }

  /** The result the last attempt leaves: its value, or its error re-raised. */
  function Settle<T, E>(o: Outcome<T, E>): (r: RetryResult<T, E>)
    ensures r.Returned? <==> o.Returns?
    ensures o.Returns? ==> r.value == o.value
    ensures o.Raises? ==> r == Reraised(o.error)
  {
    match o
    case Returns(v) => Returned(v)
    case Raises(e) => Reraised(e)
  }

  /** The delay before retry `k` (0-based). */
  function DelayAt(initialDelay: real, backoffFactor: real, k: nat): real {
    initialDelay * Pow(backoffFactor, k)
  }

  /** The first `n` delays, in order. */
  function Delays(initialDelay: real, backoffFactor: real, n: nat): (ds: seq<real>)
    ensures |ds| == n
    ensures forall k :: 0 <= k < n ==> ds[k] == DelayAt(initialDelay, backoffFactor, k)
  {
    if n == 0 then [] else Delays(initialDelay, backoffFactor, n - 1) + [DelayAt(initialDelay, backoffFactor, n - 1)]
  }

  function Sum(xs: seq<real>): real {
    if xs == [] then 0.0 else Sum(xs[..|xs| - 1]) + xs[|xs| - 1]
  }

  /** `retry_with_backoff`: at most `maxRetries + 1` attempts; a retried
      error is followed by a sleep unless it came from the final attempt,
      which re-raises it; with a negative `maxRetries` no attempt is made and
      `raise None` fails. */
  method RetryWithBackoff<T, E>(call: nat -> Outcome<T, E>, maxRetries: int, initialDelay: real,
                                backoffFactor: real, retryable: E -> bool)
    returns (result: RetryResult<T, E>, calls: nat, sleeps: seq<real>)
    ensures maxRetries < 0 ==> result == NoneRaised && calls == 0 && sleeps == []
    ensures maxRetries >= 0 ==>
      var n := StopAt(call, retryable, 0, maxRetries);
      calls == n + 1 && result == Settle(call(n)) && sleeps == Delays(initialDelay, backoffFactor, n)
  {
    var delay := initialDelay;
    var lastException: RetryResult<T, E> := NoneRaised;
    calls, sleeps := 0, [];
    var attempt: nat := 0;
    while attempt < maxRetries + 1
      invariant maxRetries >= 0 ==> attempt <= maxRetries
      invariant maxRetries < 0 ==> attempt == 0
      invariant calls == attempt
      invariant forall j :: 0 <= j < attempt ==> !Stops(call(j), retryable)
      invariant sleeps == Delays(initialDelay, backoffFactor, attempt)
      invariant delay == DelayAt(initialDelay, backoffFactor, attempt)
      invariant attempt == 0 ==> lastException == NoneRaised
      decreases maxRetries + 1 - attempt
    {
      var outcome := call(attempt);
      calls := calls + 1;
      match outcome {
        case Returns(v) =>
          result := Returned(v);
          return;
        case Raises(e) =>
          if !retryable(e) {
            // not in `exceptions`: propagates from the first occurrence
            result := Reraised(e);
            return;
          }
          lastException := Reraised(e);
          if attempt == maxRetries {
            result := Reraised(e);
            return;
          }
          sleeps := sleeps + [delay];
          delay := delay * backoffFactor;
          assert delay == initialDelay * (Pow(backoffFactor, attempt) * backoffFactor);
      }
      attempt := attempt + 1;
    }
    result := lastException;
  }

  /** `with_retry`: the decorated call with its arguments passed through
      unchanged, every error retried. */
  method WithRetry<A, T, E>(func: (A, nat) -> Outcome<T, E>, args: A, maxRetries: int,
                            initialDelay: real, backoffFactor: real)
    returns (result: RetryResult<T, E>, calls: nat, sleeps: seq<real>)
    ensures maxRetries < 0 ==> result == NoneRaised && calls == 0 && sleeps == []
    ensures maxRetries >= 0 ==>
      var n := StopAt(k => func(args, k), AnyError, 0, maxRetries);
      calls == n + 1 && result == Settle(func(args, n)) && sleeps == Delays(initialDelay, backoffFactor, n)
  {
    result, calls, sleeps := RetryWithBackoff(k => func(args, k), maxRetries, initialDelay, backoffFactor, AnyError);
  }

  /** The default `exceptions=(Exception,)`. */
  predicate AnyError<E>(e: E) {
    true
  }

  // ---------------------------------------------------------------------------
  // Properties

  /** The first success ends the loop: after `i` retried failures within the
      budget, attempt `i` returning is the last attempt, with `i` sleeps. */
  lemma FirstSuccessEndsLoop<T, E>(call: nat -> Outcome<T, E>, retryable: E -> bool, maxRetries: nat, i: nat)
    requires i <= maxRetries && call(i).Returns?
    requires forall j :: 0 <= j < i ==> call(j).Raises? && retryable(call(j).error)
    ensures StopAt(call, retryable, 0, maxRetries) == i
    ensures Settle(call(i)) == Returned(call(i).value)
  {
  }

  /** When every attempt fails with a retried error, all `maxRetries + 1`
      attempts are made, `maxRetries` sleeps happen, and the last error is
      re-raised. */
  lemma ExhaustedRetriesReraiseLast<T, E>(call: nat -> Outcome<T, E>, retryable: E -> bool, maxRetries: nat)
    requires forall j :: 0 <= j <= maxRetries ==> call(j).Raises? && retryable(call(j).error)
    ensures StopAt(call, retryable, 0, maxRetries) == maxRetries
    ensures Settle(call(maxRetries)) == Reraised(call(maxRetries).error)
  {
  }

  /** 1 + f + ... + f^(n-1). */
  function GeometricSum(f: real, n: nat): real {
    if n == 0 then 0.0 else GeometricSum(f, n - 1) + Pow(f, n - 1)
  }

  /** The delays added up one retry at a time. */
  function DelayTotal(initialDelay: real, f: real, n: nat): real {
    if n == 0 then 0.0 else DelayTotal(initialDelay, f, n - 1) + DelayAt(initialDelay, f, n - 1)
  }

  /** The delays are the initial delay times the powers of the factor, so
      they add up to the initial delay times the geometric sum. */
  lemma SumOfDelays(initialDelay: real, f: real, n: nat)
    ensures Sum(Delays(initialDelay, f, n)) == initialDelay * GeometricSum(f, n)
  {
    SumIsDelayTotal(initialDelay, f, n);
    DelayTotalScaled(initialDelay, f, n);
  }

  /** The sleeps `RetryWithBackoff` records add up to the running total. */
  lemma {:induction false} SumIsDelayTotal(initialDelay: real, f: real, n: nat)
    ensures Sum(Delays(initialDelay, f, n)) == DelayTotal(initialDelay, f, n)
  {
    if n > 0 {
      SumIsDelayTotal(initialDelay, f, n - 1);
      SumDelaysStep(initialDelay, f, n);
      TotalStep(Sum(Delays(initialDelay, f, n)), Sum(Delays(initialDelay, f, n - 1)),
                DelayTotal(initialDelay, f, n - 1), DelayAt(initialDelay, f, n - 1), DelayTotal(initialDelay, f, n));
    }
  }

  /** One step of the induction above, on plain numbers: adding the same
      delay to equal totals keeps them equal. */
  lemma TotalStep(slept: real, sleptBefore: real, totalBefore: real, delay: real, total: real)
    requires sleptBefore == totalBefore
    requires slept == sleptBefore + delay && total == totalBefore + delay
    ensures slept == total
  {
  }

  /** The running total is the initial delay times the geometric sum. */
  lemma {:induction false} DelayTotalScaled(initialDelay: real, f: real, n: nat)
    ensures DelayTotal(initialDelay, f, n) == initialDelay * GeometricSum(f, n)
  {
    if n > 0 {
      DelayTotalScaled(initialDelay, f, n - 1);
      var g, p := GeometricSum(f, n - 1), Pow(f, n - 1);
      assert initialDelay * g + initialDelay * p == initialDelay * (g + p);
    }
  }

  /** The closed form: (1 + f + ... + f^(n-1)) * (f - 1) = f^n - 1. */
  lemma {:induction false} GeometricSumClosed(f: real, n: nat)
    ensures GeometricSum(f, n) * (f - 1.0) == Pow(f, n) - 1.0
  {
    if n > 0 {
      GeometricSumClosed(f, n - 1);
      PowStep(f, n);
      ClosedStep(GeometricSum(f, n - 1), Pow(f, n - 1), f, Pow(f, n));
    }
  }

  /** One step of the induction above, on plain numbers. */
  lemma ClosedStep(g: real, p: real, f: real, q: real)
    requires g * (f - 1.0) == p - 1.0 && q == p * f
    ensures (g + p) * (f - 1.0) == q - 1.0
  {
    assert (g + p) * (f - 1.0) == g * (f - 1.0) + p * (f - 1.0);
  }

  /** The total time slept over `n` retries (by `SumIsDelayTotal`) is the
      geometric sum `initialDelay * (f^n - 1) / (f - 1)`, stated without the
      division so that it also covers `f == 1`. */
  lemma {:induction false} TotalDelay(initialDelay: real, f: real, n: nat)
    ensures DelayTotal(initialDelay, f, n) * (f - 1.0) == initialDelay * (Pow(f, n) - 1.0)
  {
    DelayTotalScaled(initialDelay, f, n);
    GeometricSumClosed(f, n);
    ScaledClosed(initialDelay, DelayTotal(initialDelay, f, n), GeometricSum(f, n), f, Pow(f, n));
  }

  /** The last step of the proof above, on plain numbers. */
  lemma ScaledClosed(d: real, s: real, g: real, f: real, q: real)
    requires s == d * g && g * (f - 1.0) == q - 1.0
    ensures s * (f - 1.0) == d * (q - 1.0)
  {
    assert (d * g) * (f - 1.0) == d * (g * (f - 1.0));
  }

  lemma PowStep(f: real, n: nat)
    requires n > 0
    ensures Pow(f, n) == Pow(f, n - 1) * f
  {
  }

  lemma SumDelaysStep(initialDelay: real, f: real, n: nat)
    requires n > 0
    ensures Sum(Delays(initialDelay, f, n)) == Sum(Delays(initialDelay, f, n - 1)) + initialDelay * Pow(f, n - 1)
  {
    var ds := Delays(initialDelay, f, n);
    assert ds[..n - 1] == Delays(initialDelay, f, n - 1);
  }

  /** With the defaults, the waits are 1, 2 and 4 seconds, 7 in all. */
  lemma DefaultSchedule()
    ensures Delays(DefaultInitialDelay, DefaultBackoffFactor, DefaultMaxRetries) == [1.0, 2.0, 4.0]
    ensures Sum(Delays(DefaultInitialDelay, DefaultBackoffFactor, DefaultMaxRetries)) == 7.0
  {
    var ds := Delays(DefaultInitialDelay, DefaultBackoffFactor, DefaultMaxRetries);
    assert Pow(2.0, 1) == 2.0 && Pow(2.0, 2) == 4.0;
    assert ds == [1.0, 2.0, 4.0];
    assert ds[..2] == [1.0, 2.0] && ds[..2][..1] == [1.0];
    assert Sum([1.0]) == 1.0;
    assert Sum([1.0, 2.0]) == 3.0;
  }
}
