/**
 * The rule-based scoring of the transaction analysis tool
 * (src/agents_agno/tools/transaction_analysis_tool.py), after the JSON
 * argument has been parsed into its fields. The rendered JSON, the
 * formatted `value` strings and the parse error path are not modelled.
 */
module TransactionAnalysisTool {
  import opened Wrappers
  import opened RiskBands

  /** The fields the tool reads from the parsed transaction; `None` when a key is absent. */
  datatype TxData = TxData(
    amount: Option<real>,
    totalAmount: Option<real>,
    paymentMethod: Option<string>,
    accountAgeDays: Option<int>,
    totalOrders: Option<int>)

  /** `amount`, else `total_amount`, else 0. */
  function AmountOf(t: TxData): real {
    if t.amount.Some? then t.amount.value else t.totalAmount.GetOr(0.0)
  }

  /** A missing account age reads as 0 days, so it counts as a brand-new account. */
  function AgeOf(t: TxData): int {
    t.accountAgeDays.GetOr(0)
  }

  /** A missing order count reads as 0, so it counts as a first order. */
  function OrdersOf(t: TxData): int {
    t.totalOrders.GetOr(0)
  }

  /** A missing payment method reads as `'unknown'`; the comparison is case-sensitive. */
  function MethodOf(t: TxData): string {
    t.paymentMethod.GetOr("unknown")
  }

  datatype RiskFactor = SmallAmount | LargeAmount | NewAccount(ageDays: int) | FirstOrder | CreditCard

  /** What each rule adds to the score. */
  function Weight(f: RiskFactor): real {
    match f
    case SmallAmount => 0.2
    case LargeAmount => 0.15
    case NewAccount(age) => if age < 1 then 0.3 else 0.2
    case FirstOrder => 0.15
    case CreditCard => 0.05
  }

  /** The `risk_level` recorded with the factor. */
  function FactorLevel(f: RiskFactor): string {
    match f
    case NewAccount(age) => if age < 1 then "HIGH" else "MEDIUM"
    case CreditCard => "LOW"
    case _ => "MEDIUM"
  }

  function SumWeights(fs: seq<RiskFactor>): real {
    if |fs| == 0 then 0.0 else SumWeights(fs[..|fs| - 1]) + Weight(fs[|fs| - 1])
  }

  lemma {:induction false} SumWeightsAppend(a: seq<RiskFactor>, b: seq<RiskFactor>)
    ensures SumWeights(a + b) == SumWeights(a) + SumWeights(b)
    decreases |b|
  {
    if |b| > 0 {
      assert (a + b)[..|a + b| - 1] == a + b[..|b| - 1];
      assert (a + b)[|a + b| - 1] == b[|b| - 1];
      SumWeightsAppend(a, b[..|b| - 1]);
    } else {
      assert a + b == a;
    }
  }

  function When(c: bool, f: RiskFactor): seq<RiskFactor> {
    if c then [f] else []
  }

  /** The factors in the order the rules are checked. */
  function Factors(t: TxData): (fs: seq<RiskFactor>)
    ensures SmallAmount in fs <==> AmountOf(t) < 10.0
    ensures LargeAmount in fs <==> AmountOf(t) > 500.0
    ensures NewAccount(AgeOf(t)) in fs <==> AgeOf(t) < 7
    ensures FirstOrder in fs <==> OrdersOf(t) == 0
    ensures CreditCard in fs <==> MethodOf(t) == "credit_card"
    ensures forall f :: f in fs && f.NewAccount? ==> f == NewAccount(AgeOf(t))
  {
    var a := AmountOf(t);
    When(a < 10.0, SmallAmount) + When(a > 500.0, LargeAmount)
    + When(AgeOf(t) < 7, NewAccount(AgeOf(t))) + When(OrdersOf(t) == 0, FirstOrder)
    + When(MethodOf(t) == "credit_card", CreditCard)
  }

  /** The score as the tool accumulates it, rule by rule. */
  function RawScore(t: TxData): real {
    var a := AmountOf(t);
    var age := AgeOf(t);
    (if a < 10.0 then 0.2 else 0.0)
    + (if a > 500.0 then 0.15 else 0.0)
    + (if age < 7 then (if age < 1 then 0.3 else 0.2) else 0.0)
    + (if OrdersOf(t) == 0 then 0.15 else 0.0)
    + (if MethodOf(t) == "credit_card" then 0.05 else 0.0)
  }

  /** One factor per rule fired, and the accumulated score is the sum of their weights. */
  lemma ScoreIsSumOfFactors(t: TxData)
    ensures RawScore(t) == SumWeights(Factors(t))
    ensures |Factors(t)| <= 4
  {
    var a := AmountOf(t);
    var s1 := When(a < 10.0, SmallAmount);
    var s2 := When(a > 500.0, LargeAmount);
    var s3 := When(AgeOf(t) < 7, NewAccount(AgeOf(t)));
    var s4 := When(OrdersOf(t) == 0, FirstOrder);
    var s5 := When(MethodOf(t) == "credit_card", CreditCard);
    SumWeightsAppend(s1, s2);
    SumWeightsAppend(s1 + s2, s3);
    SumWeightsAppend(s1 + s2 + s3, s4);
    SumWeightsAppend(s1 + s2 + s3 + s4, s5);
    assert SumWeights(s1) == (if a < 10.0 then 0.2 else 0.0);
    assert SumWeights(s2) == (if a > 500.0 then 0.15 else 0.0);
    assert SumWeights(s3) == (if AgeOf(t) < 7 then Weight(NewAccount(AgeOf(t))) else 0.0);
    assert SumWeights(s4) == (if OrdersOf(t) == 0 then 0.15 else 0.0);
    assert SumWeights(s5) == (if MethodOf(t) == "credit_card" then 0.05 else 0.0);
  }

  /** The small and large amount rules never both fire; the score never exceeds 0.70. */
  lemma RawScoreBounds(t: TxData)
    ensures 0.0 <= RawScore(t) <= 0.7
    ensures !(AmountOf(t) < 10.0 && AmountOf(t) > 500.0)
  {
  }

  datatype Confidence = LowConfidence | MediumConfidence | HighConfidence

  /** HIGH with three or more factors, MEDIUM with two, LOW otherwise. */
  function ConfidenceOf(factorCount: nat): (c: Confidence)
    ensures c == HighConfidence <==> factorCount >= 3
    ensures c == MediumConfidence <==> factorCount == 2
  {
    if factorCount >= 3 then HighConfidence else if factorCount >= 2 then MediumConfidence else LowConfidence
  }

  datatype Analysis = Analysis(riskFactors: seq<RiskFactor>, riskScore: real, band: Band, confidence: Confidence)

  /**
   * The tool's analysis: the factors, `min(1.0, score)` as the reported
   * score, and the level, action and confidence.
   */
  function Analyze(t: TxData): (a: Analysis)
    ensures a.riskFactors == Factors(t)
    ensures 0.0 <= a.riskScore <= 0.7 && a.riskScore == SumWeights(a.riskFactors)
    ensures a.band == BandOf(a.riskScore)
    ensures a.confidence == ConfidenceOf(|a.riskFactors|)
  {
    var raw := RawScore(t);
    ScoreIsSumOfFactors(t);
    var fs := Factors(t);
    Analysis(fs, if raw <= 1.0 then raw else 1.0, BandOf(raw), ConfidenceOf(|fs|))
  }

  /**
   * Only one combination reaches the blocking band: a small amount on a
   * brand-new account's first order paid by credit card.
   */
  lemma BlockOnlyForEveryRedFlag(t: TxData)
    ensures Analyze(t).band == High <==>
              AmountOf(t) < 10.0 && AgeOf(t) < 1 && OrdersOf(t) == 0 && MethodOf(t) == "credit_card"
  {
  }

  /** A long-standing repeat customer paying mid-range amounts by another method is allowed with no factors. */
  lemma QuietTransactionAllowed(t: TxData)
    requires 10.0 <= AmountOf(t) <= 500.0 && AgeOf(t) >= 7 && OrdersOf(t) != 0 && MethodOf(t) != "credit_card"
    ensures Analyze(t).riskFactors == [] && Analyze(t).band == Low && ActionName(Analyze(t).band) == "ALLOW"
  {
  }
}
