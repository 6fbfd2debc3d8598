/**
 * The fixed-window rate limiter with a minimum gap between calls
 * (src/fraud_detection/rate_limiter.py): the `RateLimiter` class used as a
 * context manager, and the state the `rate_limited` decorator closes over.
 *
 * Time is an integer millisecond clock. `time.sleep(d)` is modelled as
 * exact: the clock reads `now + d` afterwards. The guarded function is
 * represented by its outcome and the clock reading when it finished.
 */
module RateLimiter {
  import opened Wrappers

  const WindowMs: int := 60_000

  /** The constructor defaults: 20 calls per minute, 3 s apart. */
  const DefaultCallsPerMinute: int := 20
  const DefaultDelayMs: int := 3_000

  datatype Limiter = Limiter(callsPerMinute: int, delayMs: int, lastCallMs: int, callCount: nat, windowStartMs: int)

  /** A limiter created at `now`: no call yet (`last_call` is the epoch), the window opens at creation. */
  function NewLimiter(callsPerMinute: int, delayMs: int, now: int): Limiter {
    Limiter(callsPerMinute, delayMs, 0, 0, now)
  }

  /** The limiter after `_enforce_rate_limit`, the two waits it slept, and the clock when the call proceeds. */
  datatype Enforced = Enforced(limiter: Limiter, windowWaitMs: int, delayWaitMs: int, proceedMs: int)

  /**
   * `_enforce_rate_limit` at `now`: a window at least 60 s old is restarted;
   * a full window is waited out and restarted; then the caller sleeps until
   * `delay_seconds` have passed since the last call, measured from `now`.
   */
  function Enforce(l: Limiter, now: int): (e: Enforced)
    ensures e.windowWaitMs >= 0 && e.delayWaitMs >= 0
    ensures e.proceedMs == now + e.windowWaitMs + e.delayWaitMs
    ensures e.proceedMs >= l.lastCallMs + l.delayMs
    ensures e.delayWaitMs == (if now - l.lastCallMs < l.delayMs then l.delayMs - (now - l.lastCallMs) else 0)
    ensures l.callsPerMinute >= 1 ==> e.limiter.callCount < l.callsPerMinute
    ensures e.limiter.windowStartMs >= l.windowStartMs
    ensures e.limiter.windowStartMs != l.windowStartMs ==> e.limiter.callCount == 0
    ensures e.limiter.windowStartMs == l.windowStartMs ==> e.limiter.callCount == l.callCount
    ensures e.windowWaitMs > 0 ==> e.limiter.windowStartMs == now + e.windowWaitMs
    ensures e.limiter.(callCount := l.callCount, windowStartMs := l.windowStartMs) == l
  {
    var reset := now - l.windowStartMs >= WindowMs;
    var start := if reset then now else l.windowStartMs;
    var count := if reset then 0 else l.callCount;
    var waitTime := WindowMs - (now - start);
    var windowWait := if count >= l.callsPerMinute && waitTime > 0 then waitTime else 0;
    var l1 := if windowWait > 0 then l.(windowStartMs := now + windowWait, callCount := 0)
              else l.(windowStartMs := start, callCount := count);
    var sinceLast := now - l.lastCallMs;
    var delayWait := if sinceLast < l.delayMs then l.delayMs - sinceLast else 0;
    Enforced(l1, windowWait, delayWait, now + windowWait + delayWait)
  }

  /** A full window is always waited out: the wait is the rest of the current 60 s. */
  lemma FullWindowWaits(l: Limiter, now: int)
    requires now - l.windowStartMs < WindowMs && l.callCount >= l.callsPerMinute
    ensures Enforce(l, now).windowWaitMs == WindowMs - (now - l.windowStartMs)
    ensures Enforce(l, now).limiter.windowStartMs == l.windowStartMs + WindowMs
    ensures Enforce(l, now).limiter.callCount == 0
  {
  }

  /** A window at least 60 s old is restarted at `now` with nothing counted, unless there is no room at all. */
  lemma StaleWindowRestarts(l: Limiter, now: int)
    requires now - l.windowStartMs >= WindowMs && l.callsPerMinute >= 1
    ensures Enforce(l, now).windowWaitMs == 0
    ensures Enforce(l, now).limiter.windowStartMs == now
    ensures Enforce(l, now).limiter.callCount == 0
  {
  }

  /** `_update_tracking` at the clock reading `t`: the call is recorded. */
  function UpdateTracking(l: Limiter, t: int): (l': Limiter)
    ensures l'.lastCallMs == t && l'.callCount == l.callCount + 1
    ensures l'.(lastCallMs := l.lastCallMs, callCount := l.callCount) == l
  {
    l.(lastCallMs := t, callCount := l.callCount + 1)
  }

  /**
   * The `rate_limited` wrapper: enforce, run the function (finishing at
   * `finishedMs`), and record the call only if it returned; an exception is
   * re-raised with the call left unrecorded.
   */
  function Decorated<T, E>(l: Limiter, now: int, outcome: Result<T, E>, finishedMs: int): (r: (Limiter, Result<T, E>))
    ensures r.1 == outcome
    ensures outcome.Success? ==> r.0 == UpdateTracking(Enforce(l, now).limiter, finishedMs)
    ensures outcome.Failure? ==> r.0 == Enforce(l, now).limiter
  {
    var e := Enforce(l, now);
    match outcome
    case Success(_) => (UpdateTracking(e.limiter, finishedMs), outcome)
    case Failure(_) => (e.limiter, outcome)
  }

  /**
   * `with limiter:` — `__enter__` enforces, `__exit__` records the call
   * even when the body raised, and returns `False`, so the exception is
   * propagated.
   */
  function WithLimiter<T, E>(l: Limiter, now: int, outcome: Result<T, E>, finishedMs: int): (r: (Limiter, Result<T, E>))
    ensures r.1 == outcome
    ensures r.0 == UpdateTracking(Enforce(l, now).limiter, finishedMs)
  {
    (UpdateTracking(Enforce(l, now).limiter, finishedMs), outcome)
  }

  datatype Status = Status(callsInWindow: nat, maxCalls: int, windowElapsedMs: int, callsRemaining: int, timeUntilResetMs: int)

  /** `get_status` at `now`. */
  function GetStatus(l: Limiter, now: int): (s: Status)
    ensures s.callsInWindow == l.callCount && s.maxCalls == l.callsPerMinute
    ensures s.windowElapsedMs == now - l.windowStartMs
    ensures s.callsRemaining >= 0 && s.timeUntilResetMs >= 0
    ensures s.callsRemaining > 0 ==> s.callsRemaining + s.callsInWindow == s.maxCalls
    ensures s.timeUntilResetMs > 0 ==> s.timeUntilResetMs + s.windowElapsedMs == WindowMs
    ensures s.timeUntilResetMs == 0 <==> s.windowElapsedMs >= WindowMs
    ensures s.callsRemaining == 0 <==> s.callsInWindow >= s.maxCalls
  {
    var elapsed := now - l.windowStartMs;
    Status(l.callCount, l.callsPerMinute, elapsed,
           if l.callsPerMinute - l.callCount > 0 then l.callsPerMinute - l.callCount else 0,
           if WindowMs - elapsed > 0 then WindowMs - elapsed else 0)
  }

  /** Never more calls recorded in the current window than the limit. */
  predicate Valid(l: Limiter) {
    l.callCount <= l.callsPerMinute
  }

  lemma NewLimiterValid(callsPerMinute: int, delayMs: int, now: int)
    requires callsPerMinute >= 0
    ensures Valid(NewLimiter(callsPerMinute, delayMs, now))
  {
  }

  lemma DecoratedPreservesValid<T, E>(l: Limiter, now: int, outcome: Result<T, E>, finishedMs: int)
    requires Valid(l) && l.callsPerMinute >= 1
    ensures Valid(Decorated(l, now, outcome, finishedMs).0)
  {
  }

  /** One call to the decorated function: when it starts, what it does, when it finishes. */
  datatype Invocation = Invocation(startMs: int, succeeds: bool, finishedMs: int)

  /**
   * A run of the decorated function: the final limiter, and for each call
   * that was recorded, the start of the window it was counted in.
   */
  function Run(l: Limiter, calls: seq<Invocation>): (Limiter, seq<int>)
    decreases |calls|
  {
    if |calls| == 0 then (l, [])
    else
      var (m, tags) := Run(l, calls[..|calls| - 1]);
      var c := calls[|calls| - 1];
      var e := Enforce(m, c.startMs);
      if c.succeeds then (UpdateTracking(e.limiter, c.finishedMs), tags + [e.limiter.windowStartMs])
      else (e.limiter, tags)
  }

  /** The number of recorded calls counted in window `w`. */
  function CountIn(tags: seq<int>, w: int): nat {
    multiset(tags)[w]
  }

  /**
   * Whatever the clock does, a window's start only moves forward, and when
   * it moves the count restarts; so a run never records more than
   * `calls_per_minute` calls in the same window.
   */
  lemma {:induction false} RunWindowBound(l: Limiter, calls: seq<Invocation>)
    requires l.callsPerMinute >= 1 && l.callCount == 0
    ensures var (m, tags) := Run(l, calls);
            && m.callsPerMinute == l.callsPerMinute
            && m.windowStartMs >= l.windowStartMs
            && (forall i :: 0 <= i < |tags| ==> tags[i] <= m.windowStartMs)
            && CountIn(tags, m.windowStartMs) == m.callCount
            && forall w :: CountIn(tags, w) <= l.callsPerMinute
    decreases |calls|
  {
    if |calls| > 0 {
      var prefix := calls[..|calls| - 1];
      RunWindowBound(l, prefix);
      var (m, tags) := Run(l, prefix);
      var c := calls[|calls| - 1];
      var e := Enforce(m, c.startMs);
      if e.limiter.windowStartMs != m.windowStartMs {
        assert e.limiter.windowStartMs !in multiset(tags);
      }
      if c.succeeds {
        var tags' := tags + [e.limiter.windowStartMs];
        assert multiset(tags') == multiset(tags) + multiset{e.limiter.windowStartMs};
        forall w
          ensures CountIn(tags', w) <= l.callsPerMinute
        {
          if w == e.limiter.windowStartMs {
            assert CountIn(tags', w) == e.limiter.callCount + 1;
          } else {
            assert CountIn(tags', w) == CountIn(tags, w);
          }
        }
      }
    }
  }

  /** Between the end of one recorded call and the start of the next, at least `delay_seconds` pass. */
  lemma RunRespectsDelay(l: Limiter, calls: seq<Invocation>)
    requires |calls| > 0
    ensures var (m, tags) := Run(l, calls[..|calls| - 1]);
            Enforce(m, calls[|calls| - 1].startMs).proceedMs >= m.lastCallMs + l.delayMs
  {
    RunKeepsDelay(l, calls[..|calls| - 1]);
  }

  lemma {:induction false} RunKeepsDelay(l: Limiter, calls: seq<Invocation>)
    ensures Run(l, calls).0.delayMs == l.delayMs
    decreases |calls|
  {
    if |calls| > 0 {
      RunKeepsDelay(l, calls[..|calls| - 1]);
    }
  }
}
