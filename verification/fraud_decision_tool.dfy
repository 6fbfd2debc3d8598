/**
 * Argument normalisation and validation of the fraud decision tool
 * (src/agents_agno/tools/fraud_decision_tool.py), everything it does
 * before it touches the database. A JSON argument enters as what
 * `json.loads` made of it, each item already rendered by `str`.
 */
module FraudDecisionTool {
  import opened Wrappers

  const ValidDecisions: seq<string> := ["APPROVE", "MANUAL_REVIEW", "BLOCK"]

  const DefaultConfidence: real := 0.5
  const DefaultFindings: string := "No detailed findings provided"
  const DefaultAnalysisType: string := "fraud_detection"
  const DefaultAgentName: string := "fraud_decision_agent"

  /** What `json.loads` made of a JSON-string argument. */
  datatype Parsed = ParsedList(items: seq<string>) | ParsedDict(values: seq<string>) | ParsedScalar(text: string) | NotJson

  /** A JSON-string argument: its raw text and its parse. */
  datatype JsonArg = JsonArg(raw: string, parsed: Parsed)

  datatype DecisionArgs = DecisionArgs(
    orderId: string,
    decision: string,
    confidence: Option<real>,
    confidenceScore: Option<real>,
    reasoning: Option<string>,
    findings: Option<string>,
    fraudIndicators: Option<JsonArg>,
    riskFactors: Option<JsonArg>,
    analysisType: Option<string>,
    agentName: Option<string>)

  datatype DecisionError = InvalidDecision(decision: string) | ConfidenceOutOfRange(confidence: real)

  /** The record the tool goes on to write. */
  datatype Normalized = Normalized(
    orderId: string,
    decision: string,
    confidence: real,
    findings: string,
    riskFactors: Option<seq<string>>,
    analysisType: string,
    agentName: string)

  /** Python truthiness of an optional string. */
  predicate Truthy(s: Option<string>) {
    s.Some? && s.value != ""
  }

  /** `a or b`. */
  function Or(a: Option<string>, b: string): (r: string)
    ensures Truthy(a) ==> r == a.value
    ensures !Truthy(a) ==> r == b
  {
    if Truthy(a) then a.value else b
  }

  /** `confidence`, else `confidence_score`, else 0.5; a zero is a value, not an absence. */
  function FinalConfidence(confidence: Option<real>, confidenceScore: Option<real>): (c: real)
    ensures confidence.Some? ==> c == confidence.value
    ensures confidence.None? && confidenceScore.Some? ==> c == confidenceScore.value
    ensures confidence.None? && confidenceScore.None? ==> c == DefaultConfidence
  {
    match confidence
    case Some(c) => c
    case None => confidenceScore.GetOr(DefaultConfidence)
  }

  /** A parsed list gives its items, a dict its values, a scalar itself; text that is not JSON is kept whole. */
  function FactorList(arg: JsonArg): (r: seq<string>)
    ensures arg.parsed.ParsedList? ==> r == arg.parsed.items
    ensures arg.parsed.ParsedDict? ==> r == arg.parsed.values
    ensures arg.parsed.ParsedScalar? ==> r == [arg.parsed.text]
    ensures arg.parsed.NotJson? ==> r == [arg.raw]
    ensures |r| == 0 ==> arg.parsed.ParsedList? || arg.parsed.ParsedDict?
  {
    match arg.parsed
    case ParsedList(items) => items
    case ParsedDict(values) => values
    case ParsedScalar(text) => [text]
    case NotJson => [arg.raw]
  }

  predicate ArgGiven(arg: Option<JsonArg>) {
    arg.Some? && arg.value.raw != ""
  }

  /**
   * The risk factors: from `risk_factors` when given, and from
   * `fraud_indicators` when that produced nothing (`None` or an empty list).
   */
  function RiskFactorList(riskFactors: Option<JsonArg>, fraudIndicators: Option<JsonArg>): (r: Option<seq<string>>)
    ensures ArgGiven(riskFactors) && |FactorList(riskFactors.value)| > 0 ==> r == Some(FactorList(riskFactors.value))
    ensures !(ArgGiven(riskFactors) && |FactorList(riskFactors.value)| > 0) && ArgGiven(fraudIndicators) ==>
              r == Some(FactorList(fraudIndicators.value))
    ensures r.None? <==> !ArgGiven(riskFactors) && !ArgGiven(fraudIndicators)
    ensures ArgGiven(riskFactors) && !ArgGiven(fraudIndicators) ==> r == Some(FactorList(riskFactors.value))
  {
    var fromRisk := if ArgGiven(riskFactors) then Some(FactorList(riskFactors.value)) else None;
    if ArgGiven(fraudIndicators) && (fromRisk.None? || |fromRisk.value| == 0) then Some(FactorList(fraudIndicators.value))
    else fromRisk
  }

  /**
   * The checks and defaults before any database access: the decision is
   * checked first, then the confidence; then the findings, type and agent
   * name defaults and the risk factors.
   */
  function Normalize(args: DecisionArgs): (r: Result<Normalized, DecisionError>)
    ensures args.decision !in ValidDecisions <==> r.Failure? && r.error.InvalidDecision?
    ensures r.Failure? && r.error.InvalidDecision? ==> r.error.decision == args.decision
    ensures var c := FinalConfidence(args.confidence, args.confidenceScore);
            r.Failure? && r.error.ConfidenceOutOfRange? <==> args.decision in ValidDecisions && !(0.0 <= c <= 1.0)
    ensures r.Failure? && r.error.ConfidenceOutOfRange? ==>
              r.error.confidence == FinalConfidence(args.confidence, args.confidenceScore)
    ensures r.Success? ==>
              && r.value.orderId == args.orderId && r.value.decision == args.decision
              && r.value.decision in ValidDecisions && 0.0 <= r.value.confidence <= 1.0
              && r.value.confidence == FinalConfidence(args.confidence, args.confidenceScore)
              && r.value.findings == Or(args.findings, Or(args.reasoning, DefaultFindings))
              && r.value.analysisType == Or(args.analysisType, DefaultAnalysisType)
              && r.value.agentName == Or(args.agentName, DefaultAgentName)
              && r.value.riskFactors == RiskFactorList(args.riskFactors, args.fraudIndicators)
  {
    var c := FinalConfidence(args.confidence, args.confidenceScore);
    if args.decision !in ValidDecisions then Failure(InvalidDecision(args.decision))
    else if !(0.0 <= c <= 1.0) then Failure(ConfidenceOutOfRange(c))
    else
      Success(Normalized(args.orderId, args.decision, c,
                         Or(args.findings, Or(args.reasoning, DefaultFindings)),
                         RiskFactorList(args.riskFactors, args.fraudIndicators),
                         Or(args.analysisType, DefaultAnalysisType),
                         Or(args.agentName, DefaultAgentName)))
  }

  /** The arguments that state a normalised record explicitly. */
  function Denormalize(n: Normalized): DecisionArgs {
    DecisionArgs(n.orderId, n.decision, Some(n.confidence), None, None, Some(n.findings), None,
                 match n.riskFactors { case None => None case Some(fs) => Some(JsonArg("[...]", ParsedList(fs))) },
                 Some(n.analysisType), Some(n.agentName))
  }

  /** Normalising the explicit arguments of a normalised record gives the same record. */
  lemma NormalizeIdempotent(args: DecisionArgs)
    requires Normalize(args).Success?
    ensures Normalize(Denormalize(Normalize(args).value)) == Normalize(args)
  {
  }

  /** An invalid decision is reported even when the confidence is also out of range. */
  lemma DecisionCheckedFirst(args: DecisionArgs)
    requires args.decision !in ValidDecisions
    ensures Normalize(args) == Failure(InvalidDecision(args.decision))
  {
  }
}
