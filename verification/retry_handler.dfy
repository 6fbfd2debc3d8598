/**
 * Retry with exponential backoff (src/utils/retry_handler.py): the
 * `retry_with_backoff` wrapper loop and `RetryHandler.execute`.
 *
 * The guarded function is the sequence of its outcomes, `func(i)` being what
 * the i-th invocation (0-indexed) did; `random(i)` is the value
 * `random.random()` supplies for the jitter of attempt i. Sleeping is not
 * performed: the loop returns the delays it would sleep, in order.
 */
module RetryHandler {
  import opened Wrappers

  datatype Config = Config(maxRetries: int, baseDelay: real, maxDelay: real, exponentialBase: real, jitter: bool)

  /** The three predefined handlers; all keep the default base 2.0 and jitter on. */
  const DefaultHandler: Config := Config(3, 1.0, 30.0, 2.0, true)
  const AggressiveHandler: Config := Config(5, 0.5, 60.0, 2.0, true)
  const ConservativeHandler: Config := Config(2, 2.0, 10.0, 2.0, true)

  function Pow(b: real, n: nat): real {
    if n == 0 then 1.0 else b * Pow(b, n - 1)
  }

  lemma {:induction false} PowAtLeastOne(b: real, n: nat)
    requires b >= 1.0
    ensures Pow(b, n) >= 1.0
  {
    if n > 0 {
      PowAtLeastOne(b, n - 1);
    }
  }

  lemma {:induction false} PowMonotone(b: real, m: nat, n: nat)
    requires b >= 1.0 && m <= n
    ensures Pow(b, m) <= Pow(b, n)
    decreases n
  {
    if m < n {
      PowMonotone(b, m, n - 1);
      PowAtLeastOne(b, n - 1);
      assert Pow(b, n) == b * Pow(b, n - 1);
    }
  }

  function Min(a: real, b: real): real {
    if a <= b then a else b
  }

  /** The delay before jitter: `base_delay * exponential_base ** attempt`, capped at `max_delay`. */
  function BackoffDelay(c: Config, attempt: nat): (d: real)
    ensures d <= c.maxDelay
    ensures d == c.maxDelay || d == c.baseDelay * Pow(c.exponentialBase, attempt)
    ensures c.baseDelay * Pow(c.exponentialBase, attempt) <= c.maxDelay ==> d == c.baseDelay * Pow(c.exponentialBase, attempt)
  {
    Min(c.baseDelay * Pow(c.exponentialBase, attempt), c.maxDelay)
  }

  /** With a non-negative base delay and a base of at least 1, later attempts never wait less. */
  lemma BackoffNonDecreasing(c: Config, i: nat, j: nat)
    requires c.baseDelay >= 0.0 && c.exponentialBase >= 1.0 && i <= j
    ensures BackoffDelay(c, i) <= BackoffDelay(c, j)
  {
    PowMonotone(c.exponentialBase, i, j);
    assert c.baseDelay * Pow(c.exponentialBase, i) <= c.baseDelay * Pow(c.exponentialBase, j);
  }

  /**
   * `_calculate_delay(attempt)`: the backoff delay, scaled with jitter by
   * `0.5 + random * 0.5`, a factor in [0.5, 1).
   */
  function CalculateDelay(c: Config, attempt: nat, random: real): (d: real)
    requires 0.0 <= random < 1.0
    ensures !c.jitter ==> d == BackoffDelay(c, attempt)
    ensures c.jitter && BackoffDelay(c, attempt) >= 0.0 ==>
              0.5 * BackoffDelay(c, attempt) <= d <= BackoffDelay(c, attempt) <= c.maxDelay
    ensures c.jitter && BackoffDelay(c, attempt) > 0.0 ==> d < BackoffDelay(c, attempt)
  {
    var delay := BackoffDelay(c, attempt);
    if c.jitter then
      var factor := 0.5 + random * 0.5;
      assert 0.5 <= factor < 1.0;
      assert delay >= 0.0 ==> delay * factor <= delay * 1.0;
      assert delay > 0.0 ==> delay * factor < delay * 1.0;
      delay * factor
    else delay
  }

  /** What one invocation did: returned, or raised an exception that is or is not in the retried types. */
  datatype Attempt<T, E> = Returned(value: T) | Raised(error: E, retryable: bool)

  /** The value, an exception outside the retried types, or `RetryError` with the last exception caught. */
  datatype RetryOutcome<T, E> = Done(value: T) | Propagated(error: E) | RetryError(lastException: Option<E>)

  predicate RetryableFailure<T, E>(a: Attempt<T, E>) {
    a.Raised? && a.retryable
  }

  /** `range(max_retries + 1)` has this many attempts. */
  function AttemptBudget(c: Config): nat {
    if c.maxRetries >= 0 then c.maxRetries + 1 else 0
  }

  /**
   * The wrapper loop of `retry_with_backoff`. It returns the outcome, the
   * number of invocations, the delays slept and the `on_retry(e, attempt)`
   * calls made (whatever the callback raises is swallowed, so it cannot
   * change the loop).
   */
  method RetryWithBackoff<T, E>(c: Config, func: nat -> Attempt<T, E>, random: nat -> real)
    returns (r: RetryOutcome<T, E>, calls: nat, sleeps: seq<real>, retried: seq<(E, nat)>)
    requires forall i: nat :: 0.0 <= random(i) < 1.0
    ensures calls <= AttemptBudget(c)
    ensures forall i :: 0 <= i < calls - 1 ==> RetryableFailure(func(i))
    ensures r.Done? <==> calls > 0 && func(calls - 1).Returned?
    ensures r.Done? ==> r.value == func(calls - 1).value
    ensures r.Propagated? <==> calls > 0 && func(calls - 1).Raised? && !func(calls - 1).retryable
    ensures r.Propagated? ==> r.error == func(calls - 1).error
    ensures r.RetryError? ==> calls == AttemptBudget(c) && forall i :: 0 <= i < calls ==> RetryableFailure(func(i))
    ensures r.RetryError? ==> r.lastException == if calls > 0 then Some(func(calls - 1).error) else None
    ensures |sleeps| == |retried| == (if calls > 0 then calls - 1 else 0)
    ensures forall i :: 0 <= i < |sleeps| ==> sleeps[i] == CalculateDelay(c, i, random(i))
    ensures forall i :: 0 <= i < |retried| ==> func(i).Raised? && retried[i] == (func(i).error, i)
  {
    calls, sleeps, retried := 0, [], [];
    var attempt: nat := 0;
    while attempt < c.maxRetries + 1
      invariant c.maxRetries >= 0 ==> attempt <= c.maxRetries
      invariant c.maxRetries < 0 ==> attempt == 0
      invariant calls == attempt
      invariant forall i :: 0 <= i < attempt ==> RetryableFailure(func(i))
      invariant |sleeps| == attempt && |retried| == attempt
      invariant forall i :: 0 <= i < attempt ==> sleeps[i] == CalculateDelay(c, i, random(i))
      invariant forall i :: 0 <= i < attempt ==> func(i).Raised? && retried[i] == (func(i).error, i)
      decreases c.maxRetries + 1 - attempt
    {
      var a := func(attempt);
      calls := calls + 1;
      match a {
        case Returned(v) =>
          r := Done(v);
          return;
        case Raised(e, retryable) =>
          if !retryable {
            r := Propagated(e);
            return;
          }
          if attempt == c.maxRetries {
            r := RetryError(Some(e));
            return;
          }
          retried := retried + [(e, attempt)];
          sleeps := sleeps + [CalculateDelay(c, attempt, random(attempt))];
      }
      attempt := attempt + 1;
    }
    r := RetryError(None);
  }

  /**
   * `RetryHandler.execute`: the same loop without a callback, the delays
   * from `_calculate_delay`.
   */
  method Execute<T, E>(c: Config, func: nat -> Attempt<T, E>, random: nat -> real)
    returns (r: RetryOutcome<T, E>, calls: nat, sleeps: seq<real>)
    requires forall i: nat :: 0.0 <= random(i) < 1.0
    ensures calls <= AttemptBudget(c)
    ensures forall i :: 0 <= i < calls - 1 ==> RetryableFailure(func(i))
    ensures r.Done? <==> calls > 0 && func(calls - 1).Returned?
    ensures r.Done? ==> r.value == func(calls - 1).value
    ensures r.Propagated? <==> calls > 0 && func(calls - 1).Raised? && !func(calls - 1).retryable
    ensures r.Propagated? ==> r.error == func(calls - 1).error
    ensures r.RetryError? ==> calls == AttemptBudget(c) && forall i :: 0 <= i < calls ==> RetryableFailure(func(i))
    ensures r.RetryError? ==> r.lastException == if calls > 0 then Some(func(calls - 1).error) else None
    ensures |sleeps| == (if calls > 0 then calls - 1 else 0)
    ensures forall i :: 0 <= i < |sleeps| ==> sleeps[i] == CalculateDelay(c, i, random(i))
  {
    var callbacks;
    r, calls, sleeps, callbacks := RetryWithBackoff(c, func, random);
  }

  /**
   * The default handler against a function that always fails with a retried
   * exception: four invocations, three sleeps of at most 1, 2 and 4 seconds.
   */
  method DefaultHandlerExhausts<E>(e: E, random: nat -> real) returns (calls: nat, sleeps: seq<real>)
    requires forall i: nat :: 0.0 <= random(i) < 1.0
    ensures calls == 4 && |sleeps| == 3
    ensures sleeps[0] <= 1.0 && sleeps[1] <= 2.0 && sleeps[2] <= 4.0
  {
    var r;
    r, calls, sleeps := Execute<(), E>(DefaultHandler, (i: nat) => Raised(e, true), random);
    assert Pow(2.0, 1) == 2.0 && Pow(2.0, 2) == 4.0;
  }
}
