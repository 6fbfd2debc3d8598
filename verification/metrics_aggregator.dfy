/**
 * The system-wide metrics aggregator (`MetricsAggregator` in
 * src/observability/langfuse_monitor.py): a fixed set of counters and
 * timers, increments that ignore unknown names, derived averages, and
 * reset. Counters and timers are both kept as reals; Python's distinction
 * between `0` and `0.0` is not modelled.
 */
module MetricsAggregator {
  const CounterKeys: set<string> := {
    "total_transactions", "fraud_detected", "ai_investigations", "velocity_fraud",
    "card_testing", "redis_hits", "qdrant_queries"}
  const TimerKeys: set<string> := {"total_processing_time", "total_ai_time"}

  /** The nine metrics the aggregator is created with. */
  const MetricKeys: set<string> := CounterKeys + TimerKeys

  type Metrics = map<string, real>

  /** Every metric, and only those, is present. */
  predicate WellKeyed(m: Metrics) {
    m.Keys == MetricKeys
  }

  function NewAggregator(): (m: Metrics)
    ensures WellKeyed(m)
    ensures forall k :: k in m ==> m[k] == 0.0
  {
    map k | k in MetricKeys :: 0.0
  }

  /** `increment(metric, value)`: adds to a known metric, ignores any other name. */
  function Increment(m: Metrics, metric: string, value: int): (m': Metrics)
    ensures m'.Keys == m.Keys
    ensures metric in m ==> m'[metric] == m[metric] + value as real
    ensures forall k :: k in m && k != metric ==> m'[k] == m[k]
    ensures metric !in m ==> m' == m
  {
    if metric in m then m[metric := m[metric] + value as real] else m
  }

  /** `add_time(metric, seconds)`: the same for a duration. */
  function AddTime(m: Metrics, metric: string, seconds: real): (m': Metrics)
    ensures m'.Keys == m.Keys
    ensures metric in m ==> m'[metric] == m[metric] + seconds
    ensures forall k :: k in m && k != metric ==> m'[k] == m[k]
    ensures metric !in m ==> m' == m
  {
    if metric in m then m[metric := m[metric] + seconds] else m
  }

  /** `reset`: every metric back to zero, no key added or removed. */
  function Reset(m: Metrics): (m': Metrics)
    ensures m'.Keys == m.Keys
    ensures forall k :: k in m' ==> m'[k] == 0.0
  {
    map k | k in m :: 0.0
  }

  /** Resetting a well-keyed aggregator gives a fresh one. */
  lemma ResetIsFresh(m: Metrics)
    requires WellKeyed(m)
    ensures Reset(m) == NewAggregator()
  {
  }

  /**
   * `get_metrics`: a copy with the derived rates. `fraud_rate` and
   * `avg_processing_time` appear when some transaction was counted;
   * `avg_ai_time` only when there was also an AI investigation.
   */
  function GetMetrics(m: Metrics): (r: Metrics)
    requires WellKeyed(m)
    ensures forall k :: k in m ==> k in r && r[k] == m[k]
    ensures "fraud_rate" in r <==> m["total_transactions"] > 0.0
    ensures "avg_processing_time" in r <==> m["total_transactions"] > 0.0
    ensures "avg_ai_time" in r <==> m["total_transactions"] > 0.0 && m["ai_investigations"] > 0.0
    ensures r.Keys <= MetricKeys + {"fraud_rate", "avg_processing_time", "avg_ai_time"}
    ensures "fraud_rate" in r ==> r["fraud_rate"] * m["total_transactions"] == m["fraud_detected"]
    ensures "avg_processing_time" in r ==>
              r["avg_processing_time"] * m["total_transactions"] == m["total_processing_time"]
    ensures "avg_ai_time" in r ==> r["avg_ai_time"] * m["ai_investigations"] == m["total_ai_time"]
  {
    var total := m["total_transactions"];
    if total > 0.0 then
      var withRates := m["fraud_rate" := m["fraud_detected"] / total]
                        ["avg_processing_time" := m["total_processing_time"] / total];
      var ai := m["ai_investigations"];
      if ai > 0.0 then withRates["avg_ai_time" := m["total_ai_time"] / ai] else withRates
    else m
  }

  /** One recorded event. */
  datatype Event = Count(metric: string, value: int) | Time(metric: string, seconds: real)

  function Apply(m: Metrics, e: Event): Metrics {
    match e
    case Count(k, v) => Increment(m, k, v)
    case Time(k, s) => AddTime(m, k, s)
  }

  function ApplyAll(m: Metrics, es: seq<Event>): Metrics
    decreases |es|
  {
    if |es| == 0 then m else ApplyAll(Apply(m, es[0]), es[1..])
  }

  /** What the events add to one metric. */
  function Contribution(es: seq<Event>, k: string): real
    decreases |es|
  {
    if |es| == 0 then 0.0
    else
      (match es[0] {
        case Count(key, v) => if key == k then v as real else 0.0
        case Time(key, s) => if key == k then s else 0.0
      }) + Contribution(es[1..], k)
  }

  /**
   * However events are recorded, no key is ever added, and each metric is
   * its starting value plus everything recorded under its name.
   */
  lemma {:induction false} ApplyAllTotals(m: Metrics, es: seq<Event>)
    ensures ApplyAll(m, es).Keys == m.Keys
    ensures forall k :: k in m ==> ApplyAll(m, es)[k] == m[k] + Contribution(es, k)
    decreases |es|
  {
    if |es| > 0 {
      ApplyAllTotals(Apply(m, es[0]), es[1..]);
    }
  }

  /** Events under names the aggregator does not know change nothing. */
  lemma {:induction false} UnknownEventsIgnored(m: Metrics, es: seq<Event>)
    requires forall i :: 0 <= i < |es| ==> es[i].metric !in m
    ensures ApplyAll(m, es) == m
    decreases |es|
  {
    if |es| > 0 {
      UnknownEventsIgnored(m, es[1..]);
    }
  }
}
