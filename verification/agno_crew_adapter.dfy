/**
 * The CrewAI-compatible adapter over the Agno agents
 * (src/agents_agno/agno_crew_adapter.py): its own recommendation
 * extraction, the mapping of the agent manager's result to the report the
 * orchestrator reads, and the formatting of the analysis text.
 *
 * The agent manager's run is opaque: its result, or the exception it
 * raised, is an input.
 */
module AgnoCrewAdapter {
  import opened Wrappers
  import opened Strings
  import CM = CrewManager

  /**
   * `_extract_recommendation`: like the crew's, except that REJECT is not a
   * blocking keyword.
   */
  function ExtractRecommendation(result: string): (r: string)
    ensures r in CM.Verdicts
    ensures r == "BLOCK" <==> Contains(ToUpper(result), "BLOCK")
    ensures r == "APPROVE" <==>
              && !Contains(ToUpper(result), "BLOCK") && !Contains(ToUpper(result), "REVIEW")
              && (Contains(ToUpper(result), "APPROVE") || Contains(ToUpper(result), "ALLOW"))
  {
    var upper := ToUpper(result);
    CM.ManualReviewMentionsReview(upper);
    if Contains(upper, "BLOCK") then "BLOCK"
    else if Contains(upper, "MANUAL_REVIEW") || Contains(upper, "REVIEW") then "MANUAL_REVIEW"
    else if Contains(upper, "APPROVE") || Contains(upper, "ALLOW") then "APPROVE"
    else "MANUAL_REVIEW"
  }

  /** The extraction ignores letter case. */
  lemma ExtractIgnoresCase(result: string)
    ensures ExtractRecommendation(ToUpper(result)) == ExtractRecommendation(result)
  {
    ToUpperIdempotent(result);
  }

  /**
   * The two extractions disagree exactly on texts that say REJECT but not
   * BLOCK: the crew blocks them, the adapter reads on.
   */
  lemma ExtractionsDifferOnlyOnReject(result: string)
    ensures ExtractRecommendation(result) != CM.ExtractRecommendation(result) <==>
              Contains(ToUpper(result), "REJECT") && !Contains(ToUpper(result), "BLOCK")
    ensures ExtractRecommendation(result) != CM.ExtractRecommendation(result) ==>
              CM.ExtractRecommendation(result) == "BLOCK"
  {
  }

  /** The text "reject" is blocked by the crew and sent to manual review by the adapter. */
  lemma RejectWithoutBlockExample()
    ensures CM.ExtractRecommendation("reject") == "BLOCK"
    ensures ExtractRecommendation("reject") == "MANUAL_REVIEW"
  {
    var u := ToUpper("reject");
    assert UpperChar('r') == 'R' && UpperChar('e') == 'E' && UpperChar('j') == 'J';
    assert UpperChar('c') == 'C' && UpperChar('t') == 'T';
    assert u == "REJECT";
    ContainsIffOccurs(u, "REJECT");
    assert OccursAt(u, "REJECT", 0);
    ContainsIffOccurs(u, "BLOCK");
    ContainsIffOccurs(u, "REVIEW");
    ContainsIffOccurs(u, "APPROVE");
    ContainsIffOccurs(u, "ALLOW");
  }

  /**
   * What the agent manager returned. A stage (investigation, risk
   * assessment, decision) is `None` when it is missing or an empty dict,
   * otherwise its `response` text (`''` when it has none).
   */
  datatype ManagerResult = ManagerResult(
    success: bool,
    error: Option<string>,
    investigation: Option<string>,
    riskAssessment: Option<string>,
    decision: Option<string>,
    processingTime: real)

  function ResponseOf(stage: Option<string>): string {
    stage.GetOr("")
  }

  /** The processing-time line; `timeText` is the time rendered with two decimals. */
  function TimeLine(timeText: string): string {
    "\n\U{23F1}\U{FE0F} Processing time: " + timeText + "s"
  }

  /** One heading and response pair for a present stage, nothing for an absent one. */
  function StageParts(heading: string, stage: Option<string>): (parts: seq<string>)
    ensures stage.None? ==> parts == []
    ensures stage.Some? ==> parts == [heading, stage.value]
  {
    match stage
    case None => []
    case Some(response) => [heading, response]
  }

  /** The lines `_format_analysis` joins: investigation, risk, decision when present, then the time line. */
  function AnalysisParts(result: ManagerResult, timeText: string): (parts: seq<string>)
    ensures |parts| >= 1 && parts[|parts| - 1] == TimeLine(timeText)
    ensures |parts| == 1 + |StageParts("", result.investigation)| + |StageParts("", result.riskAssessment)|
                         + |StageParts("", result.decision)|
    ensures result.investigation.Some? ==>
              parts[0] == "=== INVESTIGATION ===" && parts[1] == result.investigation.value
    ensures result.decision.Some? ==>
              parts[|parts| - 3] == "\n=== DECISION ===" && parts[|parts| - 2] == result.decision.value
  {
    StageParts("=== INVESTIGATION ===", result.investigation)
    + StageParts("\n=== RISK ASSESSMENT ===", result.riskAssessment)
    + StageParts("\n=== DECISION ===", result.decision)
    + [TimeLine(timeText)]
  }

  /** `_format_analysis`: the parts joined by newlines. */
  function FormatAnalysis(result: ManagerResult, timeText: string): string {
    Join(AnalysisParts(result, timeText), '\n')
  }

  /** The processing-time line always ends the analysis. */
  lemma AnalysisEndsWithTime(result: ManagerResult, timeText: string)
    ensures EndsWith(FormatAnalysis(result, timeText), TimeLine(timeText))
  {
    JoinEndsWithLast(AnalysisParts(result, timeText), '\n');
  }

  /** With no stage present the analysis is the time line alone. */
  lemma EmptyResultAnalysis(result: ManagerResult, timeText: string)
    requires result.investigation.None? && result.riskAssessment.None? && result.decision.None?
    ensures FormatAnalysis(result, timeText) == TimeLine(timeText)
  {
  }

  /** The report `investigate` hands back to the orchestrator. */
  datatype Report =
    | Investigated(recommendation: string, analysis: string, investigation: string, riskAssessment: string,
                   decision: string, processingTime: real)
    | Errored(recommendation: string, analysis: string, error: Option<string>)

  /**
   * `investigate` given what the manager run did: raised (`Failure` with the
   * exception text), returned an unsuccessful result, or returned a result
   * whose decision response is searched for the recommendation.
   */
  function Investigate(run: Result<ManagerResult, string>, timeText: string): (r: Report)
    ensures r.recommendation in CM.Verdicts
    ensures run.Failure? ==>
              r == Errored("MANUAL_REVIEW", "Investigation failed: " + run.error, Some(run.error))
    ensures run.Success? && !run.value.success ==>
              r.Errored? && r.recommendation == "MANUAL_REVIEW" && r.error == run.value.error
              && r.analysis == "Investigation error: " + run.value.error.GetOr("Unknown error")
    ensures run.Success? && run.value.success ==>
              r.Investigated? && r.recommendation == ExtractRecommendation(ResponseOf(run.value.decision))
              && r.decision == ResponseOf(run.value.decision)
              && EndsWith(r.analysis, TimeLine(timeText))
  {
    match run
    case Failure(e) => Errored("MANUAL_REVIEW", "Investigation failed: " + e, Some(e))
    case Success(m) =>
      if !m.success then
        Errored("MANUAL_REVIEW", "Investigation error: " + m.error.GetOr("Unknown error"), m.error)
      else
        var decision := ResponseOf(m.decision);
        AnalysisEndsWithTime(m, timeText);
        Investigated(ExtractRecommendation(decision), FormatAnalysis(m, timeText),
                     ResponseOf(m.investigation), ResponseOf(m.riskAssessment), decision, m.processingTime)
  }

  /** Only a successful run with a decision can lead to anything but manual review. */
  lemma OnlyDecisionsCommit(run: Result<ManagerResult, string>, timeText: string)
    requires Investigate(run, timeText).recommendation != "MANUAL_REVIEW"
    ensures run.Success? && run.value.success && run.value.decision.Some?
  {
    if run.Success? && run.value.success && run.value.decision.None? {
      assert ResponseOf(run.value.decision) == "";
      ContainsIffOccurs("", "BLOCK");
      ContainsIffOccurs("", "APPROVE");
      ContainsIffOccurs("", "ALLOW");
    }
  }
}
