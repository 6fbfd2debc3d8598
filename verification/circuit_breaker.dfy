/**
 * The circuit breaker and its name-keyed registry (src/utils/circuit_breaker.py).
 *
 * A breaker is a value threaded through the step functions; the lock that
 * serialises its updates disappears in a sequential model. `time.time()`
 * becomes an integer millisecond clock passed in, and the guarded function
 * is represented by what it did: returned a value, or raised an exception
 * that does or does not match the breaker's expected exception types.
 */
module CircuitBreaker {
  import opened Wrappers

  datatype State = Closed | Open | HalfOpen

  /** The enum's string value, used to build the transition keys. */
  function StateValue(s: State): string {
    match s
    case Closed => "closed"
    case Open => "open"
    case HalfOpen => "half_open"
  }

  datatype Config = Config(name: string, failureThreshold: int, recoveryTimeoutMs: int, successThreshold: int)

  /** The constructor defaults: five failures, 60 s, two successes. */
  function DefaultConfig(name: string): Config {
    Config(name, 5, 60_000, 2)
  }

  datatype Stats = Stats(
    totalRequests: nat,
    successfulRequests: nat,
    failedRequests: nat,
    consecutiveFailures: nat,
    lastFailureMs: Option<int>,
    transitions: map<string, nat>)

  datatype Breaker = Breaker(config: Config, state: State, stats: Stats, consecutiveSuccesses: nat)

  /** The four keys the transition counters start with. */
  const TransitionKeys: set<string> := {"closed_to_open", "open_to_half_open", "half_open_to_closed", "half_open_to_open"}

  function TransitionKey(from: State, to: State): string {
    StateValue(from) + "_to_" + StateValue(to)
  }

  function NewStats(): (s: Stats)
    ensures s.transitions.Keys == TransitionKeys
    ensures forall k :: k in s.transitions ==> s.transitions[k] == 0
  {
    Stats(0, 0, 0, 0, None, map k | k in TransitionKeys :: 0)
  }

  function NewBreaker(config: Config): Breaker {
    Breaker(config, Closed, NewStats(), 0)
  }

  /** Python's `dict.get(key, 0)`. */
  function CountOf(m: map<string, nat>, key: string): nat {
    if key in m then m[key] else 0
  }

  /**
   * The transition counters of `b'` record the move from `b`'s state: the
   * counter of that transition's key is bumped when the state changed, and
   * nothing is counted when it did not.
   */
  predicate CountsTransition(b: Breaker, b': Breaker) {
    var key := TransitionKey(b.state, b'.state);
    if b.state == b'.state then b'.stats.transitions == b.stats.transitions
    else b'.stats.transitions == b.stats.transitions[key := CountOf(b.stats.transitions, key) + 1]
  }

  /**
   * `_set_state`: a change of state bumps the counter of its transition key;
   * setting the current state again changes nothing.
   */
  function SetState(b: Breaker, s: State): (b': Breaker)
    ensures b'.state == s
    ensures b.state == s ==> b' == b
    ensures b.state != s ==>
              b'.stats.transitions == b.stats.transitions[TransitionKey(b.state, s) := CountOf(b.stats.transitions, TransitionKey(b.state, s)) + 1]
    ensures b'.config == b.config && b'.consecutiveSuccesses == b.consecutiveSuccesses
    ensures b'.stats.(transitions := b.stats.transitions) == b.stats
  {
    if b.state == s then b
    else
      var key := TransitionKey(b.state, s);
      b.(state := s, stats := b.stats.(transitions := b.stats.transitions[key := CountOf(b.stats.transitions, key) + 1]))
  }

  /**
   * `_on_success`: the failure streak ends, the success streak grows, and a
   * half-open breaker with enough successes closes with its streak zeroed.
   */
  function OnSuccess(b: Breaker): (b': Breaker)
    ensures b'.stats.successfulRequests == b.stats.successfulRequests + 1
    ensures b'.stats.failedRequests == b.stats.failedRequests
    ensures b'.stats.consecutiveFailures == 0
    ensures b'.stats.lastFailureMs == b.stats.lastFailureMs
    ensures b'.stats.totalRequests == b.stats.totalRequests
    ensures b'.state == Closed <==> b.state == Closed || (b.state == HalfOpen && b.consecutiveSuccesses + 1 >= b.config.successThreshold)
    ensures b'.state == Open <==> b.state == Open
    ensures b'.state == Closed && b.state == HalfOpen ==> b'.consecutiveSuccesses == 0
    ensures b'.state == b.state ==> b'.consecutiveSuccesses == b.consecutiveSuccesses + 1
    ensures b'.config == b.config
    ensures CountsTransition(b, b')
  {
    var c := b.(stats := b.stats.(successfulRequests := b.stats.successfulRequests + 1, consecutiveFailures := 0),
                consecutiveSuccesses := b.consecutiveSuccesses + 1);
    if c.state == HalfOpen && c.consecutiveSuccesses >= c.config.successThreshold then
      SetState(c, Closed).(consecutiveSuccesses := 0)
    else c
  }

  /**
   * `_on_failure` at clock `now`: the failure streak grows, the success
   * streak ends, the failure time is kept; a half-open breaker reopens, and a
   * closed one opens once the streak reaches the failure threshold.
   */
  function OnFailure(b: Breaker, now: int): (b': Breaker)
    ensures b'.stats.failedRequests == b.stats.failedRequests + 1
    ensures b'.stats.successfulRequests == b.stats.successfulRequests
    ensures b'.stats.consecutiveFailures == b.stats.consecutiveFailures + 1
    ensures b'.stats.lastFailureMs == Some(now)
    ensures b'.stats.totalRequests == b.stats.totalRequests
    ensures b'.consecutiveSuccesses == 0
    ensures b'.state == Open <==>
              b.state != Closed || b.stats.consecutiveFailures + 1 >= b.config.failureThreshold
    ensures b'.state == Open || b'.state == b.state
    ensures b'.config == b.config
    ensures CountsTransition(b, b')
  {
    var c := b.(stats := b.stats.(failedRequests := b.stats.failedRequests + 1,
                                  consecutiveFailures := b.stats.consecutiveFailures + 1,
                                  lastFailureMs := Some(now)),
                consecutiveSuccesses := 0);
    match c.state
    case HalfOpen => SetState(c, Open)
    case Closed => if c.stats.consecutiveFailures >= c.config.failureThreshold then SetState(c, Open) else c
    case Open => c
  }

  /** `_should_attempt_reset`: no recorded failure, or the recovery timeout has elapsed since it. */
  predicate ShouldAttemptReset(b: Breaker, now: int) {
    match b.stats.lastFailureMs
    case None => true
    case Some(t) => now - t >= b.config.recoveryTimeoutMs
  }

  /** `_time_until_recovery`: what is left of the recovery timeout, never negative. */
  function TimeUntilRecovery(b: Breaker, now: int): (r: int)
    ensures r >= 0
    ensures b.stats.lastFailureMs.None? ==> r == 0
    ensures r > 0 <==> !ShouldAttemptReset(b, now)
    ensures r > 0 ==> r == b.config.recoveryTimeoutMs - (now - b.stats.lastFailureMs.value)
  {
    match b.stats.lastFailureMs
    case None => 0
    case Some(t) => if b.config.recoveryTimeoutMs - (now - t) > 0 then b.config.recoveryTimeoutMs - (now - t) else 0
  }

  /**
   * `reset`: closed with both streaks zeroed. It assigns the state directly,
   * so no transition is counted, and totals and the failure time are kept.
   */
  function Reset(b: Breaker): (b': Breaker)
    ensures b'.state == Closed
    ensures b'.stats.consecutiveFailures == 0 && b'.consecutiveSuccesses == 0
    ensures b'.config == b.config
    ensures b'.stats.(consecutiveFailures := b.stats.consecutiveFailures) == b.stats
  {
    b.(state := Closed, stats := b.stats.(consecutiveFailures := 0), consecutiveSuccesses := 0)
  }

  datatype Admission = Admitted | Rejected(recoveryInMs: int)

  /**
   * The locked prologue of `call`: the request is counted; an open breaker
   * either moves to half-open (the timeout has elapsed) or rejects the call.
   */
  function Admit(b: Breaker, now: int): (r: (Breaker, Admission))
    ensures r.0.stats.totalRequests == b.stats.totalRequests + 1
    ensures r.1.Rejected? <==> b.state == Open && !ShouldAttemptReset(b, now)
    ensures r.1.Rejected? ==> r.1.recoveryInMs > 0 && r.0 == b.(stats := b.stats.(totalRequests := b.stats.totalRequests + 1))
    ensures r.1.Admitted? ==> r.0.state == (if b.state == Open then HalfOpen else b.state)
    ensures r.1.Admitted? ==>
              && r.0.stats.(totalRequests := b.stats.totalRequests, transitions := b.stats.transitions) == b.stats
              && r.0.consecutiveSuccesses == b.consecutiveSuccesses
    ensures r.0.config == b.config
    ensures CountsTransition(b, r.0)
  {
    var c := b.(stats := b.stats.(totalRequests := b.stats.totalRequests + 1));
    if c.state == Open then
      if ShouldAttemptReset(c, now) then (SetState(c, HalfOpen), Admitted)
      else (c, Rejected(TimeUntilRecovery(c, now)))
    else (c, Admitted)
  }

  /** What the guarded function did: returned, or raised an exception that may or may not match the expected types. */
  datatype Outcome<T, E> = Returned(value: T) | Raised(error: E, expected: bool)

  /** What `call` gives its caller: the value, `CircuitBreakerError`, or the function's own exception re-raised. */
  datatype CallResult<T, E> = Ok(value: T) | CircuitOpen(recoveryInMs: int) | Err(error: E)

  /**
   * `call` admitted at `now`, the function finishing at `finishedMs` with
   * `outcome` (ignored when the call is rejected, since the function is then
   * never invoked).
   */
  function Call<T, E>(b: Breaker, now: int, outcome: Outcome<T, E>, finishedMs: int): (r: (Breaker, CallResult<T, E>))
    ensures r.1.CircuitOpen? <==> Admit(b, now).1.Rejected?
    ensures outcome.Returned? && r.1.Ok? ==> r.1.value == outcome.value
    ensures outcome.Raised? && !r.1.CircuitOpen? ==> r.1 == Err(outcome.error)
    ensures outcome.Raised? && !outcome.expected ==> r.0 == Admit(b, now).0
    ensures r.1.CircuitOpen? ==> r.0 == Admit(b, now).0
    ensures outcome.Returned? && !r.1.CircuitOpen? ==> r == (OnSuccess(Admit(b, now).0), Ok(outcome.value))
    ensures outcome.Raised? && outcome.expected && !r.1.CircuitOpen? ==> r.0 == OnFailure(Admit(b, now).0, finishedMs)
  {
    var (c, admission) := Admit(b, now);
    match admission
    case Rejected(wait) => (c, CircuitOpen(wait))
    case Admitted =>
      match outcome
      case Returned(v) => (OnSuccess(c), Ok(v))
      case Raised(e, expected) => (if expected then OnFailure(c, finishedMs) else c, Err(e))
  }

  /**
   * The breaker invariant: an open breaker has a failure time and no success
   * streak; a half-open one has not yet reached the success threshold; a
   * closed one has not yet reached the failure threshold; the transition
   * counters keep their four keys; completed calls never outnumber requests.
   */
  predicate Valid(b: Breaker) {
    && (b.state == Open ==> b.stats.lastFailureMs.Some? && b.consecutiveSuccesses == 0)
    && (b.state == HalfOpen ==> b.consecutiveSuccesses == 0 || b.consecutiveSuccesses < b.config.successThreshold)
    && (b.state == Closed ==> b.stats.consecutiveFailures == 0 || b.stats.consecutiveFailures < b.config.failureThreshold)
    && b.stats.transitions.Keys == TransitionKeys
    && b.stats.successfulRequests + b.stats.failedRequests <= b.stats.totalRequests
  }

  lemma NewBreakerValid(config: Config)
    ensures Valid(NewBreaker(config))
  {
  }

  /** Every transition `call` can make is one of the four counted ones. */
  lemma SetStateKeepsKeys(b: Breaker, s: State)
    requires b.stats.transitions.Keys == TransitionKeys
    requires b.state != s ==> TransitionKey(b.state, s) in TransitionKeys
    ensures SetState(b, s).stats.transitions.Keys == TransitionKeys
  {
  }

  lemma CallPreservesValid<T, E>(b: Breaker, now: int, outcome: Outcome<T, E>, finishedMs: int)
    requires Valid(b)
    ensures Valid(Call(b, now, outcome, finishedMs).0)
  {
    var c := b.(stats := b.stats.(totalRequests := b.stats.totalRequests + 1));
    assert TransitionKey(Open, HalfOpen) == "open_to_half_open";
    assert TransitionKey(HalfOpen, Closed) == "half_open_to_closed";
    assert TransitionKey(HalfOpen, Open) == "half_open_to_open";
    assert TransitionKey(Closed, Open) == "closed_to_open";
  }

  lemma ResetPreservesValid(b: Breaker)
    requires Valid(b)
    ensures Valid(Reset(b))
  {
  }

  /**
   * While open and before the recovery timeout, `call` fails fast with a
   * positive wait, counts the request and nothing else, whatever the
   * function would have done.
   */
  lemma OpenRejectsBeforeTimeout<T, E>(b: Breaker, now: int, o1: Outcome<T, E>, f1: int, o2: Outcome<T, E>, f2: int)
    requires Valid(b)
    requires b.state == Open && now - b.stats.lastFailureMs.value < b.config.recoveryTimeoutMs
    ensures Call(b, now, o1, f1).1.CircuitOpen?
    ensures Call(b, now, o1, f1).1.recoveryInMs > 0
    ensures Call(b, now, o1, f1) == Call(b, now, o2, f2)
    ensures Call(b, now, o1, f1).0 == b.(stats := b.stats.(totalRequests := b.stats.totalRequests + 1))
  {
  }

  /** Once the timeout has elapsed, the next call is let through with the breaker half-open. */
  lemma OpenAdmitsAfterTimeout(b: Breaker, now: int)
    requires Valid(b)
    requires b.state == Open && now - b.stats.lastFailureMs.value >= b.config.recoveryTimeoutMs
    ensures Admit(b, now).1 == Admitted
    ensures Admit(b, now).0.state == HalfOpen
    ensures Admit(b, now).0.consecutiveSuccesses == 0
    ensures Admit(b, now).0.stats.transitions["open_to_half_open"] == b.stats.transitions["open_to_half_open"] + 1
  {
    assert TransitionKey(Open, HalfOpen) == "open_to_half_open";
  }

  /** Any single counted failure of a half-open call reopens the breaker. */
  lemma HalfOpenFailureReopens<T, E>(b: Breaker, now: int, e: E, finishedMs: int)
    requires b.state == HalfOpen
    ensures Call<T, E>(b, now, Raised(e, true), finishedMs).0.state == Open
    ensures Call<T, E>(b, now, Raised(e, true), finishedMs).0.stats.lastFailureMs == Some(finishedMs)
  {
  }

  /** The state after `k` calls at `now` whose function raises an expected exception. */
  function Failures(b: Breaker, k: nat, now: int): Breaker {
    if k == 0 then b else Call<(), ()>(Failures(b, k - 1, now), now, Raised((), true), now).0
  }

  /** Below the threshold, every counted failure of a closed breaker only lengthens the streak. */
  lemma {:induction false} FailuresAccumulate(b: Breaker, k: nat, now: int)
    requires b.state == Closed
    requires b.stats.consecutiveFailures + k < b.config.failureThreshold
    ensures Failures(b, k, now).state == Closed
    ensures Failures(b, k, now).stats.consecutiveFailures == b.stats.consecutiveFailures + k
    ensures Failures(b, k, now).config == b.config
  {
    if k > 0 {
      FailuresAccumulate(b, k - 1, now);
    }
  }

  /**
   * From a fresh breaker, `failure_threshold - 1` consecutive failures leave
   * it closed and the next one opens it.
   */
  lemma ThresholdFailuresOpen(config: Config, now: int)
    requires config.failureThreshold >= 1
    ensures Failures(NewBreaker(config), config.failureThreshold - 1, now).state == Closed
    ensures Failures(NewBreaker(config), config.failureThreshold, now).state == Open
  {
    var n := config.failureThreshold;
    FailuresAccumulate(NewBreaker(config), n - 1, now);
  }

  /** The state after `k` successful calls at `now`. */
  function Successes(b: Breaker, k: nat, now: int): Breaker {
    if k == 0 then b else Call<(), ()>(Successes(b, k - 1, now), now, Returned(()), now).0
  }

  /** Below the success threshold a half-open breaker stays half-open, counting its successes. */
  lemma {:induction false} SuccessesAccumulate(b: Breaker, k: nat, now: int)
    requires b.state == HalfOpen
    requires b.consecutiveSuccesses + k < b.config.successThreshold
    ensures Successes(b, k, now).state == HalfOpen
    ensures Successes(b, k, now).consecutiveSuccesses == b.consecutiveSuccesses + k
    ensures Successes(b, k, now).config == b.config
  {
    if k > 0 {
      SuccessesAccumulate(b, k - 1, now);
    }
  }

  /**
   * A breaker just turned half-open closes after exactly
   * `success_threshold` consecutive successes, with its streak zeroed.
   */
  lemma ThresholdSuccessesClose(b: Breaker, now: int)
    requires b.state == HalfOpen && b.consecutiveSuccesses == 0
    requires b.config.successThreshold >= 1
    ensures Successes(b, b.config.successThreshold - 1, now).state == HalfOpen
    ensures Successes(b, b.config.successThreshold, now).state == Closed
    ensures Successes(b, b.config.successThreshold, now).consecutiveSuccesses == 0
  {
    SuccessesAccumulate(b, b.config.successThreshold - 1, now);
  }

  /** The registry of `CircuitBreakerManager`: one breaker per name. */
  datatype Registry = Registry(breakers: map<string, Breaker>)

  /**
   * `get_circuit_breaker`: a known name returns its breaker and ignores the
   * parameters; an unknown one creates a fresh breaker from them.
   */
  function GetCircuitBreaker(reg: Registry, config: Config): (r: (Registry, Breaker))
    ensures config.name in reg.breakers ==> r == (reg, reg.breakers[config.name])
    ensures config.name !in reg.breakers ==>
              r.1 == NewBreaker(config) && r.0.breakers == reg.breakers[config.name := r.1]
    ensures config.name in r.0.breakers && r.0.breakers[config.name] == r.1
    ensures r.0.breakers.Keys == reg.breakers.Keys + {config.name}
  {
    if config.name in reg.breakers then (reg, reg.breakers[config.name])
    else
      var b := NewBreaker(config);
      (Registry(reg.breakers[config.name := b]), b)
  }

  /** A second request for the same name, with any parameters, returns the breaker of the first. */
  lemma GetCircuitBreakerOnce(reg: Registry, config: Config, other: Config)
    requires other.name == config.name
    ensures var (reg1, b1) := GetCircuitBreaker(reg, config);
            GetCircuitBreaker(reg1, other) == (reg1, b1)
  {
  }

  /** `get_all_stats`: the statistics of every registered breaker, by name. */
  function GetAllStats(reg: Registry): (m: map<string, Stats>)
    ensures m.Keys == reg.breakers.Keys
    ensures forall n :: n in m ==> m[n] == reg.breakers[n].stats
  {
    map n | n in reg.breakers :: reg.breakers[n].stats
  }

  /**
   * A call through a breaker the registry hands out. The manager returns the
   * breaker object itself, so the state `call` leaves behind is what the
   * registry holds afterwards: it is stored back under the name.
   */
  function CallRegistered<T, E>(reg: Registry, config: Config, now: int, outcome: Outcome<T, E>, finishedMs: int): (r: (Registry, CallResult<T, E>))
    ensures r.0.breakers.Keys == reg.breakers.Keys + {config.name}
    ensures r.1 == Call(GetCircuitBreaker(reg, config).1, now, outcome, finishedMs).1
    ensures r.0.breakers[config.name] == Call(GetCircuitBreaker(reg, config).1, now, outcome, finishedMs).0
    ensures forall n :: n in reg.breakers && n != config.name ==> r.0.breakers[n] == reg.breakers[n]
  {
    var (reg1, b) := GetCircuitBreaker(reg, config);
    var (b', result) := Call(b, now, outcome, finishedMs);
    (Registry(reg1.breakers[config.name := b']), result)
  }

  /** Every registered breaker satisfies the breaker invariant. */
  predicate RegistryValid(reg: Registry) {
    forall n :: n in reg.breakers ==> Valid(reg.breakers[n])
  }

  lemma CallRegisteredPreservesValid<T, E>(reg: Registry, config: Config, now: int, outcome: Outcome<T, E>, finishedMs: int)
    requires RegistryValid(reg)
    ensures RegistryValid(CallRegistered(reg, config, now, outcome, finishedMs).0)
  {
    var b := GetCircuitBreaker(reg, config).1;
    if config.name !in reg.breakers {
      NewBreakerValid(config);
    }
    CallPreservesValid(b, now, outcome, finishedMs);
  }

  /**
   * The next request for the same name, with any parameters, gets the
   * breaker as the call left it, and the registry's statistics show the
   * counted request.
   */
  lemma CallRegisteredIsShared<T, E>(reg: Registry, config: Config, other: Config, now: int, outcome: Outcome<T, E>, finishedMs: int)
    requires other.name == config.name
    ensures var (reg1, _) := CallRegistered(reg, config, now, outcome, finishedMs);
            && GetCircuitBreaker(reg1, other) == (reg1, reg1.breakers[config.name])
            && GetAllStats(reg1)[config.name].totalRequests == GetCircuitBreaker(reg, config).1.stats.totalRequests + 1
  {
  }

  /** `reset_all`: every breaker reset, none added or removed. */
  function ResetAll(reg: Registry): (r: Registry)
    ensures r.breakers.Keys == reg.breakers.Keys
    ensures forall n :: n in r.breakers ==> r.breakers[n].state == Closed && r.breakers[n] == Reset(reg.breakers[n])
  {
    Registry(map n | n in reg.breakers :: Reset(reg.breakers[n]))
  }

  lemma ResetAllPreservesValid(reg: Registry)
    requires RegistryValid(reg)
    ensures RegistryValid(ResetAll(reg))
  {
    forall n | n in ResetAll(reg).breakers
      ensures Valid(ResetAll(reg).breakers[n])
    {
      ResetPreservesValid(reg.breakers[n]);
    }
  }
}
