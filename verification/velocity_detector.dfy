/**
 * The per-user velocity detector (src/fraud_detection/velocity_detector.py).
 *
 * Every check appends one (timestamp, amount) event to the user's history and
 * then applies two rules, first match wins: rapid succession (the gap to the
 * previous event is below a threshold) and card testing (enough small orders
 * inside a trailing window). Only a clean check prunes events older than one
 * hour, dropping users left with no events.
 *
 * The source reads two clocks (epoch milliseconds for the gap, a datetime for
 * the window and the pruning); the model has one millisecond clock, `now`,
 * passed to every operation.
 */
module VelocityDetector {
  import opened Wrappers
  import opened Seqs

  const MinuteMs: int := 60_000
  const OneHourMs: int := 3_600_000

  /** Orders strictly below this amount count as small (hard-coded in the source). */
  const SmallOrderAmount: real := 50.0

  const VelocityBoost: real := 0.4
  const CardTestingBoost: real := 0.5

  datatype Config = Config(
    velocityThresholdMs: int,
    cardTestingOrderThreshold: int,
    cardTestingWindowMinutes: int)

  /** The constructor defaults: 500 ms, 3 orders, 5 minutes. */
  const DefaultConfig: Config := Config(500, 3, 5)

  datatype OrderEvent = OrderEvent(timestampMs: int, amount: real)

  datatype Detector = Detector(config: Config, userOrders: map<string, seq<OrderEvent>>)

  datatype FraudType = Velocity | CardTesting

  /** The result dictionary of `check_velocity_fraud`, one constructor per outcome. */
  datatype Verdict =
    | NoFraud
    | VelocityFraud(timeDiffMs: int)
    | CardTestingFraud(orderCount: nat)
  {
    predicate IsFraud() {
      !NoFraud?
    }

    function ScoreBoost(): real {
      match this
      case NoFraud => 0.0
      case VelocityFraud(_) => VelocityBoost
      case CardTestingFraud(_) => CardTestingBoost
    }

    function FraudType(): Option<FraudType> {
      match this
      case NoFraud => None
      case VelocityFraud(_) => Some(Velocity)
      case CardTestingFraud(_) => Some(CardTesting)
    }
  }

  datatype Step = Step(detector: Detector, verdict: Verdict)

  datatype Stats = Stats(
    trackedUsers: nat,
    totalOrdersTracked: nat,
    velocityThresholdMs: int,
    cardTestingThreshold: int,
    cardTestingWindowMin: int)

  function NewDetector(config: Config): Detector {
    Detector(config, map[])
  }

  /** `self.user_orders.get(user_id, [])`. */
  function History(d: Detector, user: string): seq<OrderEvent> {
    if user in d.userOrders then d.userOrders[user] else []
  }

  /** Events at or after `cutoff` (the card-testing window is inclusive). */
  function Since(h: seq<OrderEvent>, cutoff: int): seq<OrderEvent> {
    Filter(h, (e: OrderEvent) => e.timestampMs >= cutoff)
  }

  /** Events strictly after `cutoff` (pruning and order counts are exclusive). */
  function After(h: seq<OrderEvent>, cutoff: int): seq<OrderEvent> {
    Filter(h, (e: OrderEvent) => e.timestampMs > cutoff)
  }

  function Small(h: seq<OrderEvent>): seq<OrderEvent> {
    Filter(h, (e: OrderEvent) => e.amount < SmallOrderAmount)
  }

  /** Number of small orders at or after `cutoff`. */
  function SmallSinceCount(h: seq<OrderEvent>, cutoff: int): nat {
    |Small(Since(h, cutoff))|
  }

  /**
   * `_check_velocity` on a history that already holds the current event:
   * fraud exactly when there is a previous event and the gap to it is
   * strictly below the threshold.
   */
  function CheckVelocity(config: Config, h: seq<OrderEvent>, now: int): (v: Verdict)
    ensures v.NoFraud? || v.VelocityFraud?
    ensures v.VelocityFraud? <==>
              |h| >= 2 && now - h[|h| - 2].timestampMs < config.velocityThresholdMs
    ensures v.VelocityFraud? ==> v.timeDiffMs == now - h[|h| - 2].timestampMs
  {
    if |h| < 2 then NoFraud
    else
      var diff := now - h[|h| - 2].timestampMs;
      if diff < config.velocityThresholdMs then VelocityFraud(diff) else NoFraud
  }

  /**
   * `_check_card_testing`. The source first requires enough events overall and
   * enough recent events; both are implied by enough small recent events, so
   * the rule fires exactly when the small-recent count reaches the threshold.
   */
  function CheckCardTesting(config: Config, h: seq<OrderEvent>, now: int): (v: Verdict)
    ensures v.NoFraud? || v.CardTestingFraud?
    ensures var count := SmallSinceCount(h, now - config.cardTestingWindowMinutes * MinuteMs);
            && (v.CardTestingFraud? <==> count >= config.cardTestingOrderThreshold)
            && (v.CardTestingFraud? ==> v.orderCount == count)
  {
    if |h| < config.cardTestingOrderThreshold then NoFraud
    else
      var cutoff := now - config.cardTestingWindowMinutes * MinuteMs;
      var recent := Since(h, cutoff);
      if |recent| >= config.cardTestingOrderThreshold then
        var small := Small(recent);
        if |small| >= config.cardTestingOrderThreshold then CardTestingFraud(|small|) else NoFraud
      else NoFraud
  }

  /**
   * `_cleanup_old_orders`: keeps the events strictly newer than `cutoff` and
   * drops the users left with none.
   */
  function Prune(m: map<string, seq<OrderEvent>>, cutoff: int): (r: map<string, seq<OrderEvent>>)
    ensures r.Keys <= m.Keys
    ensures forall u :: u in r ==> |r[u]| > 0 && r[u] == After(m[u], cutoff)
    ensures forall u :: u in r ==> forall i :: 0 <= i < |r[u]| ==> r[u][i].timestampMs > cutoff
    ensures forall u :: u in m && u !in r ==> forall i :: 0 <= i < |m[u]| ==> m[u][i].timestampMs <= cutoff
  {
    map u | u in m && |After(m[u], cutoff)| > 0 :: After(m[u], cutoff)
  }

  /** `history + [event]`: the user's history after recording the current order. */
  function Recorded(d: Detector, user: string, amount: real, now: int): seq<OrderEvent> {
    History(d, user) + [OrderEvent(now, amount)]
  }

  /**
   * `check_velocity_fraud(user_id, amount)` at time `now`.
   *
   * The event is appended before either rule runs; rapid succession is tried
   * first and wins; pruning happens only when neither rule fires.
   */
  function CheckVelocityFraud(d: Detector, user: string, amount: real, now: int): (r: Step)
    ensures r.detector.config == d.config
    // rapid succession: previous event strictly less than the threshold ago
    ensures r.verdict.VelocityFraud? <==>
              |History(d, user)| >= 1
              && now - History(d, user)[|History(d, user)| - 1].timestampMs < d.config.velocityThresholdMs
    ensures r.verdict.VelocityFraud? ==>
              r.verdict.timeDiffMs == now - History(d, user)[|History(d, user)| - 1].timestampMs
    // card testing: only when rapid succession did not fire
    ensures var count := SmallSinceCount(Recorded(d, user, amount, now),
                                         now - d.config.cardTestingWindowMinutes * MinuteMs);
            && (r.verdict.CardTestingFraud? <==>
                  !r.verdict.VelocityFraud? && count >= d.config.cardTestingOrderThreshold)
            && (r.verdict.CardTestingFraud? ==> r.verdict.orderCount == count)
    // a fraud verdict leaves every other user alone and appends exactly one event
    ensures r.verdict.IsFraud() ==>
              r.detector.userOrders == d.userOrders[user := Recorded(d, user, amount, now)]
  {
    var h := Recorded(d, user, amount, now);
    var m := d.userOrders[user := h];
    assert |h| >= 2 ==> h[|h| - 2] == History(d, user)[|History(d, user)| - 1];
    var velocity := CheckVelocity(d.config, h, now);
    if velocity.IsFraud() then Step(Detector(d.config, m), velocity)
    else
      var cardTesting := CheckCardTesting(d.config, h, now);
      if cardTesting.IsFraud() then Step(Detector(d.config, m), cardTesting)
      else
        Step(Detector(d.config, Prune(m, now - OneHourMs)), NoFraud)
  }

  /**
   * A clean check prunes: only events newer than an hour survive, no user is
   * left with an empty history, the event just recorded is kept as the
   * user's latest, and every other user keeps exactly their recent events.
   */
  lemma CleanCheckPrunes(d: Detector, user: string, amount: real, now: int)
    requires !CheckVelocityFraud(d, user, amount, now).verdict.IsFraud()
    ensures var m' := CheckVelocityFraud(d, user, amount, now).detector.userOrders;
            && user in m' && |m'[user]| > 0
            && m'[user][|m'[user]| - 1] == OrderEvent(now, amount)
            && (forall u :: u in m' ==> |m'[u]| > 0)
            && (forall u :: u in m' ==> forall i :: 0 <= i < |m'[u]| ==> m'[u][i].timestampMs > now - OneHourMs)
            && m'.Keys <= d.userOrders.Keys + {user}
            && (forall u :: u in m' && u != user ==> m'[u] == After(d.userOrders[u], now - OneHourMs))
  {
    var h := Recorded(d, user, amount, now);
    var m' := CheckVelocityFraud(d, user, amount, now).detector.userOrders;
    assert m' == Prune(d.userOrders[user := h], now - OneHourMs);
    PruneAfterRecord(d.userOrders, user, h, now - OneHourMs);
  }

  /** Pruning after recording `h` for `user`, when the latest event of `h` is newer than the cutoff. */
  lemma PruneAfterRecord(m: map<string, seq<OrderEvent>>, user: string, h: seq<OrderEvent>, cutoff: int)
    requires |h| > 0 && h[|h| - 1].timestampMs > cutoff
    ensures var p := Prune(m[user := h], cutoff);
            && user in p && |p[user]| > 0 && p[user][|p[user]| - 1] == h[|h| - 1]
            && (forall u :: u in p ==> |p[u]| > 0)
            && (forall u :: u in p ==> forall i :: 0 <= i < |p[u]| ==> p[u][i].timestampMs > cutoff)
            && p.Keys <= m.Keys + {user}
            && (forall u :: u in p && u != user ==> p[u] == After(m[u], cutoff))
  {
    PruneKeepsLatest(m[user := h], user, cutoff);
  }

  /** Pruning keeps a user whose latest event is newer than the cutoff, and keeps that event last. */
  lemma PruneKeepsLatest(m: map<string, seq<OrderEvent>>, user: string, cutoff: int)
    requires user in m && |m[user]| > 0
    requires m[user][|m[user]| - 1].timestampMs > cutoff
    ensures user in Prune(m, cutoff)
    ensures var kept := Prune(m, cutoff)[user];
            |kept| > 0 && kept[|kept| - 1] == m[user][|m[user]| - 1]
  {
    var h := m[user];
    var last := h[|h| - 1];
    var p := (e: OrderEvent) => e.timestampMs > cutoff;
    assert h == h[..|h| - 1] + [last];
    FilterAppend(h[..|h| - 1], [last], p);
    assert Filter([last], p) == [last] by {
      assert [last][1..] == [];
    }
  }

  /**
   * `get_user_order_count(user_id, minutes)` at time `now`: the user's
   * events strictly newer than `now - minutes`.
   */
  function GetUserOrderCount(d: Detector, user: string, minutes: int, now: int): (n: nat)
    ensures n <= |History(d, user)|
    ensures n == |After(History(d, user), now - minutes * MinuteMs)|
    ensures (forall i :: 0 <= i < |History(d, user)| ==>
               History(d, user)[i].timestampMs > now - minutes * MinuteMs) ==> n == |History(d, user)|
    ensures (forall i :: 0 <= i < |History(d, user)| ==>
               History(d, user)[i].timestampMs <= now - minutes * MinuteMs) ==> n == 0
  {
    var recent := After(History(d, user), now - minutes * MinuteMs);
    assert |recent| > 0 ==> recent[0] in History(d, user);
    |recent|
  }

  /** The window `get_user_order_count` uses when none is given. */
  const DefaultCountMinutes: int := 60

  /**
   * Right after a clean check the default one-hour count sees every order
   * the detector still holds, for any user: the cleanup keeps exactly that
   * hour.
   */
  lemma DefaultCountAfterCleanCheck(d: Detector, user: string, amount: real, now: int, other: string)
    requires !CheckVelocityFraud(d, user, amount, now).verdict.IsFraud()
    ensures var d' := CheckVelocityFraud(d, user, amount, now).detector;
            GetUserOrderCount(d', other, DefaultCountMinutes, now) == |History(d', other)|
  {
    CleanCheckPrunes(d, user, amount, now);
  }

  /** A wider window never counts fewer orders. */
  lemma OrderCountMonotone(d: Detector, user: string, minutes: int, wider: int, now: int)
    requires minutes <= wider
    ensures GetUserOrderCount(d, user, minutes, now) <= GetUserOrderCount(d, user, wider, now)
  {
    var h := History(d, user);
    FilterMonotone(h, (e: OrderEvent) => e.timestampMs > now - minutes * MinuteMs,
                      (e: OrderEvent) => e.timestampMs > now - wider * MinuteMs);
  }

  /** The sum of the lengths of all users' histories. */
  ghost function TotalEvents(m: map<string, seq<OrderEvent>>): nat
    decreases |m.Keys|
  {
    if m == map[] then 0
    else
      var u :| u in m;
      assert |(m - {u}).Keys| < |m.Keys| by {
        assert (m - {u}).Keys == m.Keys - {u};
      }
      |m[u]| + TotalEvents(m - {u})
  }

  /** The total does not depend on which user is taken out first. */
  lemma {:induction false} TotalEventsRemove(m: map<string, seq<OrderEvent>>, u: string)
    requires u in m
    ensures TotalEvents(m) == |m[u]| + TotalEvents(m - {u})
    decreases |m.Keys|
  {
    var v :| v in m && TotalEvents(m) == |m[v]| + TotalEvents(m - {v});
    if v != u {
      assert (m - {v}).Keys == m.Keys - {v};
      assert (m - {u}).Keys == m.Keys - {u};
      TotalEventsRemove(m - {v}, u);
      TotalEventsRemove(m - {u}, v);
      assert (m - {v}) - {u} == (m - {u}) - {v};
    }
  }

  /** Every tracked user holds at least one event, so events outnumber users. */
  lemma {:induction false} TotalAtLeastUsers(m: map<string, seq<OrderEvent>>)
    requires forall u :: u in m ==> |m[u]| > 0
    ensures TotalEvents(m) >= |m.Keys|
    decreases |m.Keys|
  {
    if m != map[] {
      var u :| u in m;
      TotalEventsRemove(m, u);
      assert (m - {u}).Keys == m.Keys - {u};
      TotalAtLeastUsers(m - {u});
    }
  }

  /** `get_stats`: number of tracked users and the sum of their history lengths. */
  method GetStats(d: Detector) returns (s: Stats)
    ensures s.trackedUsers == |d.userOrders.Keys|
    ensures s.totalOrdersTracked == TotalEvents(d.userOrders)
    ensures s.velocityThresholdMs == d.config.velocityThresholdMs
    ensures s.cardTestingThreshold == d.config.cardTestingOrderThreshold
    ensures s.cardTestingWindowMin == d.config.cardTestingWindowMinutes
  {
    var rest := d.userOrders;
    var total := 0;
    while rest != map[]
      invariant total + TotalEvents(rest) == TotalEvents(d.userOrders)
      decreases |rest.Keys|
    {
      var u :| u in rest;
      TotalEventsRemove(rest, u);
      assert (rest - {u}).Keys == rest.Keys - {u};
      total := total + |rest[u]|;
      rest := rest - {u};
    }
    s := Stats(|d.userOrders.Keys|, total, d.config.velocityThresholdMs,
               d.config.cardTestingOrderThreshold, d.config.cardTestingWindowMinutes);
  }

  /** A fraud verdict records exactly one more event in total. */
  lemma FraudAddsOneEvent(d: Detector, user: string, amount: real, now: int)
    requires CheckVelocityFraud(d, user, amount, now).verdict.IsFraud()
    ensures TotalEvents(CheckVelocityFraud(d, user, amount, now).detector.userOrders)
            == TotalEvents(d.userOrders) + 1
  {
    var m := d.userOrders;
    var m' := CheckVelocityFraud(d, user, amount, now).detector.userOrders;
    TotalEventsRemove(m', user);
    assert m' - {user} == m - {user};
    if user in m {
      TotalEventsRemove(m, user);
    } else {
      assert m - {user} == m;
    }
  }

  /** With a card-testing threshold of at least two, a user's first order is never fraud. */
  lemma FirstOrderNeverFraud(d: Detector, user: string, amount: real, now: int)
    requires user !in d.userOrders
    requires d.config.cardTestingOrderThreshold >= 2
    ensures !CheckVelocityFraud(d, user, amount, now).verdict.IsFraud()
  {
    var h := Recorded(d, user, amount, now);
    var cutoff := now - d.config.cardTestingWindowMinutes * MinuteMs;
    assert |Small(Since(h, cutoff))| <= |Since(h, cutoff)| <= |h| == 1;
  }

  /** Histories in insertion order are in chronological order. */
  ghost predicate Chronological(h: seq<OrderEvent>) {
    forall i, j :: 0 <= i < j < |h| ==> h[i].timestampMs <= h[j].timestampMs
  }

  /**
   * The detector invariant when the clock reads `now`: no user maps to an
   * empty history, and each history is chronological and lies in the past.
   */
  ghost predicate Valid(d: Detector, now: int) {
    ValidMap(d.userOrders, now)
  }

  ghost predicate ValidMap(m: map<string, seq<OrderEvent>>, now: int) {
    forall u :: u in m ==>
      && |m[u]| > 0
      && Chronological(m[u])
      && forall i :: 0 <= i < |m[u]| ==> m[u][i].timestampMs <= now
  }

  lemma {:induction false} FilterChronological(h: seq<OrderEvent>, p: OrderEvent -> bool)
    requires Chronological(h)
    ensures Chronological(Filter(h, p))
    decreases |h|
  {
    if |h| > 0 {
      FilterChronological(h[1..], p);
      var t := Filter(h[1..], p);
      if p(h[0]) {
        assert forall j :: 0 <= j < |t| ==> t[j] in h[1..];
        assert forall j :: 0 <= j < |t| ==> h[0].timestampMs <= t[j].timestampMs;
        assert Filter(h, p) == [h[0]] + t;
      }
    }
  }

  /** Pruning keeps the invariant. */
  lemma PruneKeepsValid(m: map<string, seq<OrderEvent>>, cutoff: int, now: int)
    requires ValidMap(m, now)
    ensures ValidMap(Prune(m, cutoff), now)
  {
    var p := Prune(m, cutoff);
    forall u | u in p
      ensures |p[u]| > 0 && Chronological(p[u])
      ensures forall i :: 0 <= i < |p[u]| ==> p[u][i].timestampMs <= now
    {
      FilterChronological(m[u], (e: OrderEvent) => e.timestampMs > cutoff);
      assert forall i :: 0 <= i < |p[u]| ==> p[u][i] in m[u];
    }
  }

  /** Recording an event at the current clock reading keeps the invariant. */
  lemma RecordKeepsValid(d: Detector, user: string, amount: real, now: int)
    requires Valid(d, now)
    ensures ValidMap(d.userOrders[user := Recorded(d, user, amount, now)], now)
  {
    var h := Recorded(d, user, amount, now);
    assert forall i :: 0 <= i < |h| - 1 ==> h[i] == History(d, user)[i];
    assert Chronological(h);
  }

  /** A check at a clock reading no earlier than every recorded event keeps the invariant. */
  lemma CheckPreservesValid(d: Detector, user: string, amount: real, now: int)
    requires Valid(d, now)
    ensures Valid(CheckVelocityFraud(d, user, amount, now).detector, now)
  {
    var m := d.userOrders[user := Recorded(d, user, amount, now)];
    RecordKeepsValid(d, user, amount, now);
    var r := CheckVelocityFraud(d, user, amount, now);
    if !r.verdict.IsFraud() {
      assert r.detector.userOrders == Prune(m, now - OneHourMs);
      PruneKeepsValid(m, now - OneHourMs, now);
    }
  }

  /**
   * The test scenario: five $1 orders 500 ms apart; the first two pass and
   * every later one is card testing, counting all the orders so far.
   */
  lemma CardTestingScenario()
    ensures var d0 := NewDetector(DefaultConfig);
            var s1 := CheckVelocityFraud(d0, "U", 1.0, 0);
            var s2 := CheckVelocityFraud(s1.detector, "U", 1.0, 500);
            var s3 := CheckVelocityFraud(s2.detector, "U", 1.0, 1000);
            var s4 := CheckVelocityFraud(s3.detector, "U", 1.0, 1500);
            var s5 := CheckVelocityFraud(s4.detector, "U", 1.0, 2000);
            && s1.verdict == NoFraud
            && s2.verdict == NoFraud
            && s3.verdict == CardTestingFraud(3)
            && s4.verdict == CardTestingFraud(4)
            && s5.verdict == CardTestingFraud(5)
  {
    FirstOrderRecorded(1.0, 0);
    CardTestingSecondOrder();
    CardTestingThirdOrder();
    CardTestingFourthOrder();
    CardTestingFifthOrder();
  }

  /** The rules on a detector tracking one user, stated on that user's history. */
  lemma SingleUserStep(h: seq<OrderEvent>, amount: real, now: int)
    ensures var v := CheckVelocityFraud(Detector(DefaultConfig, map["U" := h]), "U", amount, now).verdict;
            && (v.VelocityFraud? <==> |h| >= 1 && now - h[|h| - 1].timestampMs < DefaultConfig.velocityThresholdMs)
            && (v.CardTestingFraud? <==>
                  !v.VelocityFraud?
                  && SmallSinceCount(h + [OrderEvent(now, amount)], now - 5 * MinuteMs) >= DefaultConfig.cardTestingOrderThreshold)
            && (v.CardTestingFraud? ==> v.orderCount == SmallSinceCount(h + [OrderEvent(now, amount)], now - 5 * MinuteMs))
  {
    var d := Detector(DefaultConfig, map["U" := h]);
    assert History(d, "U") == h;
    assert Recorded(d, "U", amount, now) == h + [OrderEvent(now, amount)];
  }

  lemma CardTestingSecondOrder()
    ensures CheckVelocityFraud(Detector(DefaultConfig, map["U" := [OrderEvent(0, 1.0)]]), "U", 1.0, 500)
            == Step(Detector(DefaultConfig, map["U" := [OrderEvent(0, 1.0), OrderEvent(500, 1.0)]]), NoFraud)
  {
    var h := [OrderEvent(0, 1.0)];
    var h' := h + [OrderEvent(500, 1.0)];
    SingleUserStep(h, 1.0, 500);
    assert SmallSinceCount(h', 500 - 5 * MinuteMs) <= 2 by {
      assert |Small(Since(h', 500 - 5 * MinuteMs))| <= |Since(h', 500 - 5 * MinuteMs)| <= |h'| == 2;
    }
    CleanStepKeepsHistory(h, 1.0, 500);
    assert h' == [OrderEvent(0, 1.0), OrderEvent(500, 1.0)];
  }

  /**
   * With at least two $1 orders in the last five minutes, none within the
   * velocity threshold, the next $1 order is card testing; the flagged order
   * is recorded and nothing is pruned.
   */
  lemma CardTestingStep(h: seq<OrderEvent>, now: int)
    requires |h| >= 2
    requires forall i :: 0 <= i < |h| ==> h[i].timestampMs >= now - 5 * MinuteMs && h[i].amount < SmallOrderAmount
    requires now - h[|h| - 1].timestampMs >= DefaultConfig.velocityThresholdMs
    ensures CheckVelocityFraud(Detector(DefaultConfig, map["U" := h]), "U", 1.0, now)
            == Step(Detector(DefaultConfig, map["U" := h + [OrderEvent(now, 1.0)]]), CardTestingFraud(|h| + 1))
  {
    var d := Detector(DefaultConfig, map["U" := h]);
    var h' := h + [OrderEvent(now, 1.0)];
    SingleUserStep(h, 1.0, now);
    assert forall i :: 0 <= i < |h'| ==> h'[i].timestampMs >= now - 5 * MinuteMs && h'[i].amount < SmallOrderAmount;
    assert Since(h', now - 5 * MinuteMs) == h';
    assert Small(h') == h';
    assert Recorded(d, "U", 1.0, now) == h';
    assert d.userOrders["U" := h'] == map["U" := h'];
  }

  lemma CardTestingThirdOrder()
    ensures CheckVelocityFraud(Detector(DefaultConfig, map["U" := [OrderEvent(0, 1.0), OrderEvent(500, 1.0)]]), "U", 1.0, 1000)
            == Step(Detector(DefaultConfig, map["U" := [OrderEvent(0, 1.0), OrderEvent(500, 1.0), OrderEvent(1000, 1.0)]]),
                    CardTestingFraud(3))
  {
    var h := [OrderEvent(0, 1.0), OrderEvent(500, 1.0)];
    CardTestingStep(h, 1000);
    assert h + [OrderEvent(1000, 1.0)] == [OrderEvent(0, 1.0), OrderEvent(500, 1.0), OrderEvent(1000, 1.0)];
  }

  lemma CardTestingFourthOrder()
    ensures CheckVelocityFraud(Detector(DefaultConfig, map["U" := [OrderEvent(0, 1.0), OrderEvent(500, 1.0), OrderEvent(1000, 1.0)]]),
                               "U", 1.0, 1500)
            == Step(Detector(DefaultConfig, map["U" := [OrderEvent(0, 1.0), OrderEvent(500, 1.0), OrderEvent(1000, 1.0),
                                                         OrderEvent(1500, 1.0)]]),
                    CardTestingFraud(4))
  {
    var h := [OrderEvent(0, 1.0), OrderEvent(500, 1.0), OrderEvent(1000, 1.0)];
    CardTestingStep(h, 1500);
    assert h + [OrderEvent(1500, 1.0)] == [OrderEvent(0, 1.0), OrderEvent(500, 1.0), OrderEvent(1000, 1.0), OrderEvent(1500, 1.0)];
  }

  lemma CardTestingFifthOrder()
    ensures CheckVelocityFraud(Detector(DefaultConfig, map["U" := [OrderEvent(0, 1.0), OrderEvent(500, 1.0), OrderEvent(1000, 1.0),
                                                                    OrderEvent(1500, 1.0)]]),
                               "U", 1.0, 2000).verdict
            == CardTestingFraud(5)
  {
    var h := [OrderEvent(0, 1.0), OrderEvent(500, 1.0), OrderEvent(1000, 1.0), OrderEvent(1500, 1.0)];
    CardTestingStep(h, 2000);
  }

  /** Pruning a map whose events are all newer than the cutoff changes nothing. */
  lemma PruneAllRecent(m: map<string, seq<OrderEvent>>, cutoff: int)
    requires forall u :: u in m ==> |m[u]| > 0
    requires forall u :: u in m ==> forall i :: 0 <= i < |m[u]| ==> m[u][i].timestampMs > cutoff
    ensures Prune(m, cutoff) == m
  {
    forall u | u in m
      ensures After(m[u], cutoff) == m[u]
    {
      assert forall i :: 0 <= i < |m[u]| ==> m[u][i].timestampMs > cutoff;
    }
    assert Prune(m, cutoff).Keys == m.Keys;
  }

  /** A history without an order under $50 has no small orders. */
  lemma {:induction false} NoSmallOrders(h: seq<OrderEvent>)
    requires forall i :: 0 <= i < |h| ==> h[i].amount >= SmallOrderAmount
    ensures Small(h) == []
    decreases |h|
  {
    if |h| > 0 {
      NoSmallOrders(h[1..]);
    }
  }

  /**
   * A clean check on a user whose recorded history is all within the hour:
   * nothing is pruned, so the detector holds exactly the recorded history.
   */
  lemma CleanStepKeepsHistory(h: seq<OrderEvent>, amount: real, now: int)
    requires forall i :: 0 <= i < |h| ==> h[i].timestampMs > now - OneHourMs
    requires !CheckVelocityFraud(Detector(DefaultConfig, map["U" := h]), "U", amount, now).verdict.IsFraud()
    ensures CheckVelocityFraud(Detector(DefaultConfig, map["U" := h]), "U", amount, now).detector
            == Detector(DefaultConfig, map["U" := h + [OrderEvent(now, amount)]])
  {
    var d := Detector(DefaultConfig, map["U" := h]);
    var h' := h + [OrderEvent(now, amount)];
    assert Recorded(d, "U", amount, now) == h';
    assert d.userOrders["U" := h'] == map["U" := h'];
    PruneAllRecent(map["U" := h'], now - OneHourMs);
  }

  /** A first clean order leaves the detector holding just that order. */
  lemma FirstOrderRecorded(amount: real, now: int)
    ensures CheckVelocityFraud(NewDetector(DefaultConfig), "U", amount, now)
            == Step(Detector(DefaultConfig, map["U" := [OrderEvent(now, amount)]]), NoFraud)
  {
    var d0 := NewDetector(DefaultConfig);
    FirstOrderNeverFraud(d0, "U", amount, now);
    assert Recorded(d0, "U", amount, now) == [OrderEvent(now, amount)];
    assert d0.userOrders["U" := [OrderEvent(now, amount)]] == map["U" := [OrderEvent(now, amount)]];
    PruneAllRecent(map["U" := [OrderEvent(now, amount)]], now - OneHourMs);
  }

  /** The test scenario: three $50 orders two seconds apart are never flagged. */
  lemma NormalVelocityScenario()
    ensures var d0 := NewDetector(DefaultConfig);
            var s1 := CheckVelocityFraud(d0, "U", 50.0, 0);
            var s2 := CheckVelocityFraud(s1.detector, "U", 50.0, 2000);
            var s3 := CheckVelocityFraud(s2.detector, "U", 50.0, 4000);
            !s1.verdict.IsFraud() && !s2.verdict.IsFraud() && !s3.verdict.IsFraud()
  {
    FirstOrderRecorded(50.0, 0);
    NormalSecondOrder();
    NormalThirdOrder();
  }

  lemma NormalSecondOrder()
    ensures CheckVelocityFraud(Detector(DefaultConfig, map["U" := [OrderEvent(0, 50.0)]]), "U", 50.0, 2000)
            == Step(Detector(DefaultConfig, map["U" := [OrderEvent(0, 50.0), OrderEvent(2000, 50.0)]]), NoFraud)
  {
    var h := [OrderEvent(0, 50.0)];
    var h' := h + [OrderEvent(2000, 50.0)];
    SingleUserStep(h, 50.0, 2000);
    NoSmallOrders(Since(h', 2000 - 5 * MinuteMs));
    CleanStepKeepsHistory(h, 50.0, 2000);
    assert h' == [OrderEvent(0, 50.0), OrderEvent(2000, 50.0)];
  }

  lemma NormalThirdOrder()
    ensures !CheckVelocityFraud(Detector(DefaultConfig, map["U" := [OrderEvent(0, 50.0), OrderEvent(2000, 50.0)]]), "U", 50.0, 4000)
             .verdict.IsFraud()
  {
    var h := [OrderEvent(0, 50.0), OrderEvent(2000, 50.0)];
    var h' := h + [OrderEvent(4000, 50.0)];
    SingleUserStep(h, 50.0, 4000);
    NoSmallOrders(Since(h', 4000 - 5 * MinuteMs));
  }
}
