/**
 * The three-band reading of a tool's risk score shared by the transaction
 * analysis and user reputation tools
 * (src/agents_agno/tools/transaction_analysis_tool.py:100-102,
 * src/agents_agno/tools/user_reputation_tool.py:100-102): 0.7 and above
 * is HIGH and blocks, 0.4 and above is MEDIUM and goes to manual review,
 * anything lower is LOW and allowed.
 */
module RiskBands {
  datatype Band = Low | Medium | High

  const HighThreshold: real := 0.7
  const MediumThreshold: real := 0.4

  function BandOf(score: real): (b: Band)
    ensures b == High <==> score >= HighThreshold
    ensures b == Medium <==> MediumThreshold <= score < HighThreshold
    ensures b == Low <==> score < MediumThreshold
  {
    if score >= HighThreshold then High else if score >= MediumThreshold then Medium else Low
  }

  /** The `risk_level` string. */
  function LevelName(b: Band): string {
    match b
    case High => "HIGH"
    case Medium => "MEDIUM"
    case Low => "LOW"
  }

  /** The recommended action string. */
  function ActionName(b: Band): string {
    match b
    case High => "BLOCK"
    case Medium => "MANUAL_REVIEW"
    case Low => "ALLOW"
  }

  /** Higher scores never fall in a lower band. */
  lemma BandMonotone(s: real, t: real)
    requires s <= t
    ensures BandOf(s) == High ==> BandOf(t) == High
    ensures BandOf(s) == Medium ==> BandOf(t) != Low
  {
  }

  /** Level and action name the same band: each determines the other. */
  lemma NamesDetermineBand(a: Band, b: Band)
    ensures LevelName(a) == LevelName(b) <==> a == b
    ensures ActionName(a) == ActionName(b) <==> a == b
  {
  }
}
