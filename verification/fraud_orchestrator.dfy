/**
 * Score fusion, triage and the post-decision bookkeeping of
 * `FraudOrchestrator.process_transaction`
 * (src/fraud_detection/fraud_orchestrator.py).
 *
 * The collaborators are inputs: what the Redis store answers for this
 * transaction (absent when no store is configured), the similar cases the
 * Qdrant knowledge base returns (absent when none is configured), the ML
 * score, the elapsed processing time, and the investigating agent crew as
 * an opaque function. The writes to the stores come back as a list of
 * effects, in the order the source performs them. The velocity detector
 * is the model of its own module, threaded through the orchestrator state.
 */
module FraudOrchestrator {
  import opened Wrappers
  import VD = VelocityDetector
  import TM = TransactionModels
  import opened Strings

  /** `block_threshold` and `review_threshold` of the fraud-detection settings. */
  datatype Thresholds = Thresholds(block: real, review: real)

  const DefaultThresholds: Thresholds := Thresholds(0.70, 0.40)

  /** Scores at or above these trigger the post-decision writes. */
  const FlagUserScore: real := 0.8
  const HighSeverityScore: real := 0.9
  const FraudCountScore: real := 0.7

  datatype Stats = Stats(
    totalTransactions: nat,
    fraudDetected: nat,
    agentInvestigations: nat,
    velocityFraudCount: nat,
    cardTestingCount: nat,
    redisBoosts: nat,
    qdrantBoosts: nat)

  const ZeroStats: Stats := Stats(0, 0, 0, 0, 0, 0, 0)

  datatype Orchestrator = Orchestrator(thresholds: Thresholds, detector: VD.Detector, stats: Stats)

  function NewOrchestrator(thresholds: Thresholds, config: VD.Config): Orchestrator {
    Orchestrator(thresholds, VD.NewDetector(config), ZeroStats)
  }

  /** One flag lookup of the store: whether the key is flagged, and why. */
  datatype FlagStatus = FlagStatus(isFlagged: bool, reason: string)

  /** What the store answers: the user lookup, the IP lookup and the last-hour transaction count. */
  datatype RedisAnswers = RedisAnswers(user: FlagStatus, ip: FlagStatus, lastHourCount: int)

  /** One entry of `redis_context`, in the order the lookups add them. */
  datatype ContextNote = UserFlaggedNote(reason: string) | IpFlaggedNote(reason: string) | HighVelocityNote(count: int)

  /** A similar fraud case returned by the knowledge base. */
  datatype SimilarCase = SimilarCase(similarityScore: real, fraudType: string)

  /** What the investigating crew is given. */
  datatype Investigation = Investigation(
    transaction: TM.Transaction,
    mlScore: real,
    velocity: Option<VD.Verdict>,
    redisContext: Option<seq<ContextNote>>,
    qdrantContext: Option<seq<SimilarCase>>)

  datatype Severity = Medium | High

  /** A write to a collaborator, in the order the source issues them. */
  datatype Effect =
    | RecordTransaction(user: string, orderId: string, amount: real, paymentMethod: string, fraudScore: real)
    | FlagUser(user: string, severity: Severity)
    | FlagIp(ip: Option<string>)
    | AddPattern(user: string, fraudType: string)

  /** Everything `process_transaction` reads besides the transaction and its own state. */
  datatype Inputs = Inputs(
    redis: Option<RedisAnswers>,
    similarCases: Option<seq<SimilarCase>>,
    mlScore: real,
    elapsedSeconds: real)

  datatype Outcome = Outcome(result: TM.DetectionResult, agentRecommendation: Option<string>, effects: seq<Effect>)

  /** Step 1: +0.3 for a flagged user, +0.4 for a flagged IP, +0.2 for five or more orders in the last hour. */
  function RedisBoost(redis: Option<RedisAnswers>): (b: real)
    ensures 0.0 <= b <= 0.9
    ensures redis.None? ==> b == 0.0
    ensures redis.Some? ==>
              (b == 0.0 <==> !redis.value.user.isFlagged && !redis.value.ip.isFlagged && redis.value.lastHourCount < 5)
    ensures redis.Some? ==>
              (b == 0.9 <==> redis.value.user.isFlagged && redis.value.ip.isFlagged && redis.value.lastHourCount >= 5)
  {
    match redis
    case None => 0.0
    case Some(a) =>
      (if a.user.isFlagged then 0.3 else 0.0)
      + (if a.ip.isFlagged then 0.4 else 0.0)
      + (if a.lastHourCount >= 5 then 0.2 else 0.0)
  }

  /** The notes that accompany the Redis boost, one per rule that fired. */
  function RedisContext(redis: Option<RedisAnswers>): (notes: seq<ContextNote>)
    ensures |notes| <= 3
    ensures (|notes| == 0) <==> (RedisBoost(redis) == 0.0)
  {
    match redis
    case None => []
    case Some(a) =>
      (if a.user.isFlagged then [UserFlaggedNote(a.user.reason)] else [])
      + (if a.ip.isFlagged then [IpFlaggedNote(a.ip.reason)] else [])
      + (if a.lastHourCount >= 5 then [HighVelocityNote(a.lastHourCount)] else [])
  }

  /** The text of a note as it appears in the result's `redis_context`. */
  function RenderNote(n: ContextNote): string {
    match n
    case UserFlaggedNote(reason) => "User flagged: " + reason
    case IpFlaggedNote(reason) => "IP flagged: " + reason
    case HighVelocityNote(count) =>
      (if count >= 0 then NatToString(count) else "-" + NatToString(-count)) + " transactions in last hour"
  }

  function RenderNotes(notes: seq<ContextNote>): (r: seq<string>)
    ensures |r| == |notes|
    ensures forall i :: 0 <= i < |notes| ==> r[i] == RenderNote(notes[i])
  {
    seq(|notes|, i requires 0 <= i < |notes| => RenderNote(notes[i]))
  }

  /** Step 4: 0.2 times the similarity of each returned case. */
  function SimilarityBoost(cases: seq<SimilarCase>): (b: real)
    ensures (forall i :: 0 <= i < |cases| ==> 0.0 <= cases[i].similarityScore <= 1.0) ==>
              0.0 <= b <= 0.2 * |cases| as real
    ensures (forall i :: 0 <= i < |cases| ==> cases[i].similarityScore > 0.0) && |cases| > 0 ==> b > 0.0
  {
    if |cases| == 0 then 0.0
    else cases[0].similarityScore * 0.2 + SimilarityBoost(cases[1..])
  }

  /** The cases actually used: none without a knowledge base, else all it returned. */
  function QdrantContext(similar: Option<seq<SimilarCase>>): seq<SimilarCase> {
    similar.GetOr([])
  }

  function Min(a: real, b: real): real {
    if a <= b then a else b
  }

  /** Step 5: the additive fusion, clamped at 1.0. */
  function FinalScore(ml: real, velocity: real, redis: real, qdrant: real): (s: real)
    ensures s <= 1.0
    ensures 0.0 <= ml && 0.0 <= velocity && 0.0 <= redis && 0.0 <= qdrant ==> 0.0 <= s
    ensures ml + velocity + redis + qdrant <= 1.0 ==> s == ml + velocity + redis + qdrant
    ensures ml + velocity + redis + qdrant >= 1.0 ==> s == 1.0
  {
    Min(1.0, ml + velocity + redis + qdrant)
  }

  /** The fused score never decreases when any one input grows. */
  lemma FinalScoreMonotone(ml: real, v: real, r: real, q: real, ml': real, v': real, r': real, q': real)
    requires ml <= ml' && v <= v' && r <= r' && q <= q'
    ensures FinalScore(ml, v, r, q) <= FinalScore(ml', v', r', q')
  {
  }

  /** Step 6: three bands, each lower bound inclusive. */
  function Triage(score: real, th: Thresholds): (t: string)
    ensures t in {"AGENT_ANALYSIS", "MANUAL_REVIEW", "APPROVE"}
    ensures t == "AGENT_ANALYSIS" <==> score >= th.block
    ensures t == "MANUAL_REVIEW" <==> th.block > score >= th.review
    ensures t == "APPROVE" <==> score < th.block && score < th.review
  {
    if score >= th.block then "AGENT_ANALYSIS"
    else if score >= th.review then "MANUAL_REVIEW"
    else "APPROVE"
  }

  /** Severity order of the triage bands. */
  function Rank(t: string): nat {
    if t == "AGENT_ANALYSIS" then 2 else if t == "MANUAL_REVIEW" then 1 else 0
  }

  /** A higher score never lands in a lower band. */
  lemma TriageMonotone(s: real, s': real, th: Thresholds)
    requires s <= s'
    ensures Rank(Triage(s, th)) <= Rank(Triage(s', th))
  {
  }

  /** `fraud_type` of a fraud verdict, or `ml_detected` when the velocity detector found nothing. */
  function PatternType(v: VD.Verdict): string {
    match v
    case NoFraud => "ml_detected"
    case VelocityFraud(_) => "velocity"
    case CardTestingFraud(_) => "card_testing"
  }

  /**
   * The IP flag as the source writes it: the IP is read back with
   * `get('ip_address', 'unknown')` from the dumped transaction, whose key is
   * always present, so a missing IP arrives as `None` and passes the
   * `!= 'unknown'` test.
   */
  function IpFlagAsWritten(ip: Option<string>, score: real): (e: seq<Effect>)
    ensures |e| <= 1
    ensures |e| == 1 <==> score >= HighSeverityScore && ip != Some("unknown")
    ensures forall k :: 0 <= k < |e| ==> e[k] == FlagIp(ip)
  {
    if score >= HighSeverityScore && ip != Some("unknown") then [FlagIp(ip)] else []
  }

  /** The flag as intended: only an address that is present is flagged. */
  function IpFlag(ip: Option<string>, score: real): (e: seq<Effect>)
    ensures |e| <= 1
    ensures |e| == 1 <==> score >= HighSeverityScore && ip.Some? && ip.value != "unknown"
    ensures forall k :: 0 <= k < |e| ==> e[k] == FlagIp(ip) && ip.Some?
  {
    if score >= HighSeverityScore && ip.Some? && ip.value != "unknown" then [FlagIp(ip)] else []
  }

  /** As written, a high score with no IP address flags the address `None`. */
  lemma IpFlagAsWrittenFlagsMissingIp()
    ensures IpFlagAsWritten(None, 0.95) == [FlagIp(None)]
    ensures IpFlag(None, 0.95) == []
  {
  }

  /** On every validated address the intended flag agrees with the source. */
  lemma IpFlagAgreesOnPresentIp(raw: Option<string>, score: real)
    requires TM.ValidateIp(raw).Success? && TM.ValidateIp(raw).value.Some?
    ensures IpFlag(TM.ValidateIp(raw).value, score) == IpFlagAsWritten(TM.ValidateIp(raw).value, score)
  {
    TM.ValidatedIpNeverUnknown(raw);
  }

  /**
   * Steps 8 and 9: the writes after the decision. With a store, the
   * transaction is recorded, the user flagged from 0.8 (high severity from
   * 0.9) and a present IP flagged from 0.9; with a knowledge base, a
   * pattern is added from 0.9.
   */
  function Effects(t: TM.Transaction, hasRedis: bool, hasQdrant: bool, verdict: VD.Verdict, score: real): (e: seq<Effect>)
    ensures hasRedis ==> |e| >= 1 && e[0] == RecordTransaction(t.userId, t.orderId, t.totalAmount, t.paymentMethod, score)
    ensures !hasRedis && !hasQdrant ==> e == []
    ensures FlagUser(t.userId, High) in e <==> hasRedis && score >= HighSeverityScore
    ensures FlagUser(t.userId, Medium) in e <==> hasRedis && FlagUserScore <= score < HighSeverityScore
    ensures FlagIp(t.ipAddress) in e <==>
              hasRedis && score >= HighSeverityScore && t.ipAddress.Some? && t.ipAddress.value != "unknown"
    ensures AddPattern(t.userId, PatternType(verdict)) in e <==> hasQdrant && score >= HighSeverityScore
  {
    var redisWrites :=
      if hasRedis then
        [RecordTransaction(t.userId, t.orderId, t.totalAmount, t.paymentMethod, score)]
        + (if score >= FlagUserScore then
             [FlagUser(t.userId, if score >= HighSeverityScore then High else Medium)]
             + IpFlag(t.ipAddress, score)
           else [])
      else [];
    var qdrantWrites := if hasQdrant && score >= HighSeverityScore then [AddPattern(t.userId, PatternType(verdict))] else [];
    redisWrites + qdrantWrites
  }

  /** The counters after one processed transaction. */
  function CountStats(s: Stats, verdict: VD.Verdict, redisBoost: real, qdrantBoost: real, investigated: bool, score: real): (s': Stats)
    ensures s'.totalTransactions == s.totalTransactions + 1
    ensures s'.fraudDetected == s.fraudDetected + (if score >= FraudCountScore then 1 else 0)
    ensures s'.agentInvestigations == s.agentInvestigations + (if investigated then 1 else 0)
    ensures s'.velocityFraudCount == s.velocityFraudCount + (if verdict.VelocityFraud? then 1 else 0)
    ensures s'.cardTestingCount == s.cardTestingCount + (if verdict.CardTestingFraud? then 1 else 0)
    ensures s'.redisBoosts == s.redisBoosts + (if redisBoost > 0.0 then 1 else 0)
    ensures s'.qdrantBoosts == s.qdrantBoosts + (if qdrantBoost > 0.0 then 1 else 0)
  {
    Stats(
      s.totalTransactions + 1,
      s.fraudDetected + (if score >= FraudCountScore then 1 else 0),
      s.agentInvestigations + (if investigated then 1 else 0),
      s.velocityFraudCount + (if verdict.VelocityFraud? then 1 else 0),
      s.cardTestingCount + (if verdict.CardTestingFraud? then 1 else 0),
      s.redisBoosts + (if redisBoost > 0.0 then 1 else 0),
      s.qdrantBoosts + (if qdrantBoost > 0.0 then 1 else 0))
  }

  /**
   * `process_transaction(raw)` at clock reading `now`. An invalid
   * transaction fails before the velocity detector or the counters are
   * touched; a valid one goes through `ProcessValidated`.
   */
  function ProcessTransaction(o: Orchestrator, raw: TM.RawTransaction, now: int, inputs: Inputs,
                              investigate: Investigation -> string)
    : (r: Result<(Orchestrator, Outcome), TM.ValidationError>)
    ensures TM.Validate(raw).Failure? <==> r.Failure?
    ensures TM.Validate(raw).Failure? ==> r.error == TM.Validate(raw).error
    ensures r.Success? ==> r.value == ProcessValidated(o, TM.Validate(raw).value, now, inputs, investigate)
  {
    var t :- TM.Validate(raw);
    Success(ProcessValidated(o, t, now, inputs, investigate))
  }

  /**
   * The body of `process_transaction` after validation: the Redis boost,
   * the velocity check, the similarity boost, fusion and triage, the
   * investigation when triage says `AGENT_ANALYSIS`, the writes and the
   * counters.
   */
  function ProcessValidated(o: Orchestrator, t: TM.Transaction, now: int, inputs: Inputs,
                            investigate: Investigation -> string): (Orchestrator, Outcome)
  {
    var redisBoost := RedisBoost(inputs.redis);
    var redisContext := RedisContext(inputs.redis);
    var step := VD.CheckVelocityFraud(o.detector, t.userId, t.totalAmount, now);
    var velocityBoost := step.verdict.ScoreBoost();
    var cases := QdrantContext(inputs.similarCases);
    var qdrantBoost := SimilarityBoost(cases);
    var score := FinalScore(inputs.mlScore, velocityBoost, redisBoost, qdrantBoost);
    var triage := Triage(score, o.thresholds);
    var investigated := triage == "AGENT_ANALYSIS";
    var agent :=
      if investigated then
        Some(investigate(Investigation(
          t, inputs.mlScore,
          if step.verdict.IsFraud() then Some(step.verdict) else None,
          if |redisContext| > 0 then Some(redisContext) else None,
          if |cases| > 0 then Some(cases) else None)))
      else None;
    var recommendation := if investigated then agent.value else triage;
    var result := TM.DetectionResult(
      t.orderId, score, inputs.mlScore, velocityBoost, redisBoost, qdrantBoost,
      recommendation, inputs.elapsedSeconds, RenderNotes(redisContext), |cases|);
    var effects := Effects(t, inputs.redis.Some?, inputs.similarCases.Some?, step.verdict, score);
    var stats := CountStats(o.stats, step.verdict, redisBoost, qdrantBoost, investigated, score);
    (Orchestrator(o.thresholds, step.detector, stats), Outcome(result, agent, effects))
  }

  /** The velocity check of one transaction, as the orchestrator runs it. */
  function VelocityStep(o: Orchestrator, t: TM.Transaction, now: int): VD.Step {
    VD.CheckVelocityFraud(o.detector, t.userId, t.totalAmount, now)
  }

  /**
   * The detector advances by exactly one velocity check, whose boost is the
   * one reported; the thresholds never change, and the fused score is the
   * clamped sum of the four reported components.
   */
  lemma ProcessThreadsDetector(o: Orchestrator, t: TM.Transaction, now: int, inputs: Inputs,
                               investigate: Investigation -> string)
    ensures var (o', out) := ProcessValidated(o, t, now, inputs, investigate);
            && o'.detector == VelocityStep(o, t, now).detector
            && o'.thresholds == o.thresholds
            && out.result.orderId == t.orderId
            && out.result.mlScore == inputs.mlScore
            && out.result.velocityBoost == VelocityStep(o, t, now).verdict.ScoreBoost()
            && out.result.redisBoost == RedisBoost(inputs.redis)
            && out.result.qdrantBoost == SimilarityBoost(QdrantContext(inputs.similarCases))
            && out.result.fraudScore
               == FinalScore(inputs.mlScore, out.result.velocityBoost, out.result.redisBoost, out.result.qdrantBoost)
  {
  }

  /**
   * The investigation runs exactly when the fused score reaches the block
   * threshold, and its recommendation then replaces the triage band;
   * otherwise the band is the recommendation.
   */
  lemma ProcessInvestigatesOnlyEscalations(o: Orchestrator, t: TM.Transaction, now: int, inputs: Inputs,
                                           investigate: Investigation -> string)
    ensures var (o', out) := ProcessValidated(o, t, now, inputs, investigate);
            && (out.agentRecommendation.Some? <==> out.result.fraudScore >= o.thresholds.block)
            && (out.agentRecommendation.Some? ==> out.result.recommendation == out.agentRecommendation.value)
            && (out.agentRecommendation.None? ==>
                  out.result.recommendation == Triage(out.result.fraudScore, o.thresholds)
                  && out.result.recommendation in {"MANUAL_REVIEW", "APPROVE"})
  {
  }

  /** Counter invariant: no counter ever exceeds the number of processed transactions. */
  predicate StatsBounded(s: Stats) {
    && s.fraudDetected <= s.totalTransactions
    && s.agentInvestigations <= s.totalTransactions
    && s.velocityFraudCount + s.cardTestingCount <= s.totalTransactions
    && s.redisBoosts <= s.totalTransactions
    && s.qdrantBoosts <= s.totalTransactions
  }

  /**
   * One processed transaction adds one to the total, one to `fraud_detected`
   * exactly when the score reaches 0.7, one to the investigations exactly
   * when the agent ran, and one to the counter of the detector's fraud type;
   * the counter invariant is kept.
   */
  lemma ProcessCounts(o: Orchestrator, t: TM.Transaction, now: int, inputs: Inputs,
                      investigate: Investigation -> string)
    requires StatsBounded(o.stats)
    ensures var (o', out) := ProcessValidated(o, t, now, inputs, investigate);
            var v := VelocityStep(o, t, now).verdict;
            && StatsBounded(o'.stats)
            && o'.stats.totalTransactions == o.stats.totalTransactions + 1
            && (o'.stats.fraudDetected == o.stats.fraudDetected + 1 <==> out.result.fraudScore >= FraudCountScore)
            && (o'.stats.agentInvestigations == o.stats.agentInvestigations + 1 <==> out.agentRecommendation.Some?)
            && (o'.stats.velocityFraudCount == o.stats.velocityFraudCount + 1 <==> v.VelocityFraud?)
            && (o'.stats.cardTestingCount == o.stats.cardTestingCount + 1 <==> v.CardTestingFraud?)
  {
  }

  /** Every count of a fresh orchestrator is zero, so the invariant holds from the start. */
  lemma NewOrchestratorBounded(thresholds: Thresholds, config: VD.Config)
    ensures StatsBounded(NewOrchestrator(thresholds, config).stats)
  {
  }

  /**
   * Under the collaborators' own guarantees (an ML score in [0, 1], at most
   * three similar cases with similarity in [0, 1], a recommendation of the
   * crew in the result's vocabulary, positive elapsed time), every result
   * meets the constraints of `FraudDetectionResult`.
   */
  lemma ProcessResultValid(o: Orchestrator, t: TM.Transaction, now: int, inputs: Inputs,
                           investigate: Investigation -> string)
    requires 0.0 <= inputs.mlScore <= 1.0
    requires inputs.elapsedSeconds > 0.0
    requires inputs.similarCases.Some? ==> |inputs.similarCases.value| <= 3
    requires inputs.similarCases.Some? ==>
               forall i :: 0 <= i < |inputs.similarCases.value| ==> 0.0 <= inputs.similarCases.value[i].similarityScore <= 1.0
    requires forall inv: Investigation :: investigate(inv) in {"APPROVE", "MANUAL_REVIEW", "BLOCK"}
    ensures TM.ValidDetectionResult(ProcessValidated(o, t, now, inputs, investigate).1.result)
  {
    var cases := QdrantContext(inputs.similarCases);
    assert 0.0 <= SimilarityBoost(cases) <= 0.2 * |cases| as real;
  }

  /**
   * Three $1 orders flagged as card testing, with an ML score of 0.1 and no
   * store or knowledge base: 0.1 + 0.5 lands in the manual-review band and
   * no investigation runs.
   */
  lemma CardTestingGoesToManualReview(o: Orchestrator, t: TM.Transaction, now: int, elapsed: real,
                                      investigate: Investigation -> string)
    requires o.thresholds == DefaultThresholds
    requires VelocityStep(o, t, now).verdict.CardTestingFraud?
    ensures var out := ProcessValidated(o, t, now, Inputs(None, None, 0.1, elapsed), investigate).1;
            && out.result.fraudScore == 0.6
            && out.result.recommendation == "MANUAL_REVIEW"
            && out.agentRecommendation == None
  {
  }

  /**
   * Two orders 50 ms apart with an ML score of 0.5: the velocity boost takes
   * the score to 0.9, the crew is consulted, and its answer is final.
   */
  lemma VelocityEscalates(o: Orchestrator, t: TM.Transaction, now: int, elapsed: real,
                          investigate: Investigation -> string)
    requires o.thresholds == DefaultThresholds
    requires VelocityStep(o, t, now).verdict.VelocityFraud?
    ensures var out := ProcessValidated(o, t, now, Inputs(None, None, 0.5, elapsed), investigate).1;
            && out.result.fraudScore == 0.9
            && out.agentRecommendation.Some?
            && out.result.recommendation == out.agentRecommendation.value
            && out.effects == []
  {
  }
}
