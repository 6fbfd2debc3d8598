/**
 * The rule-based half of the ML detector (src/fraud_detection/ml_detector.py).
 *
 * The anomaly model itself (an isolation forest turned into a probability by
 * a sigmoid) is opaque: `Predict` takes its output as a parameter, `None`
 * standing for an untrained model. What is modelled exactly is the payment
 * method encoding, the four fixed rules, their capped sum and the final
 * 65/35 blend with its clamp.
 */
module MlDetector {
  import opened Wrappers
  import opened Strings

  /**
   * The transaction keys the detector reads; `None` is a missing key, for
   * which the source supplies a default (999 for the account age, 0 or ''
   * for the rest).
   */
  datatype Transaction = Transaction(
    accountAgeDays: Option<int>,
    totalOrders: Option<int>,
    totalAmount: Option<real>,
    paymentMethod: Option<string>,
    avgOrderValue: Option<real>)

  /** Default account age for a missing key: old enough that no new-account rule fires. */
  const MissingAccountAge: int := 999

  function AccountAge(t: Transaction): int { t.accountAgeDays.GetOr(MissingAccountAge) }
  function TotalOrders(t: Transaction): int { t.totalOrders.GetOr(0) }
  function TotalAmount(t: Transaction): real { t.totalAmount.GetOr(0.0) }
  function PaymentMethod(t: Transaction): string { t.paymentMethod.GetOr("") }
  function AvgOrderValue(t: Transaction): real { t.avgOrderValue.GetOr(0.0) }

  /** The payment method encoding of `extract_features`, looked up case-insensitively. */
  function PaymentNumeric(pm: string): (n: nat)
    ensures n <= 3
    ensures n == 3 <==> ToLower(pm) == "crypto"
    ensures n == 2 <==> ToLower(pm) == "credit_card"
    ensures n == 1 <==> ToLower(pm) in {"debit_card", "paypal"}
    ensures ToLower(pm) !in {"credit_card", "debit_card", "bank_transfer", "paypal", "crypto"} ==> n == 0
  {
    var m := ToLower(pm);
    if m == "credit_card" then 2
    else if m == "debit_card" then 1
    else if m == "bank_transfer" then 0
    else if m == "paypal" then 1
    else if m == "crypto" then 3
    else 0
  }

  /** The four rules of `_calculate_rule_score`, in source order. */
  datatype Rule = NewAccountHighAmount | FirstOrderVeryHighAmount | NewAccountCreditCard | AmountFarAboveAverage

  function Weight(r: Rule): real {
    match r
    case NewAccountHighAmount => 0.35
    case FirstOrderVeryHighAmount => 0.30
    case NewAccountCreditCard => 0.25
    case AmountFarAboveAverage => 0.15
  }

  /** Whether rule `r` applies to `t`. */
  predicate Fires(r: Rule, t: Transaction) {
    match r
    case NewAccountHighAmount => AccountAge(t) < 7 && TotalAmount(t) > 200.0
    case FirstOrderVeryHighAmount => TotalOrders(t) == 1 && TotalAmount(t) > 300.0
    case NewAccountCreditCard => ToLower(PaymentMethod(t)) == "credit_card" && AccountAge(t) < 7
    case AmountFarAboveAverage => AvgOrderValue(t) > 0.0 && TotalAmount(t) > AvgOrderValue(t) * 3.0
  }

  const AllRules: seq<Rule> :=
    [NewAccountHighAmount, FirstOrderVeryHighAmount, NewAccountCreditCard, AmountFarAboveAverage]

  /** Sum of the weights of the rules in `rs` that fire on `t`. */
  function FiredWeight(rs: seq<Rule>, t: Transaction): real {
    if |rs| == 0 then 0.0
    else (if Fires(rs[0], t) then Weight(rs[0]) else 0.0) + FiredWeight(rs[1..], t)
  }

  function Min(a: real, b: real): real {
    if a <= b then a else b
  }

  /**
   * `_calculate_rule_score`: the running score, each rule adding its weight
   * in turn, capped at 1.0. All four together (1.05) are the only
   * combination the cap changes.
   */
  function RuleScore(t: Transaction): (r: real)
    ensures 0.0 <= r <= 1.0
    ensures t.accountAgeDays.None? ==> r <= 0.45
  {
    var s0 := 0.0;
    var s1 := if AccountAge(t) < 7 && TotalAmount(t) > 200.0 then s0 + 0.35 else s0;
    var s2 := if TotalOrders(t) == 1 && TotalAmount(t) > 300.0 then s1 + 0.30 else s1;
    var s3 := if ToLower(PaymentMethod(t)) == "credit_card" && AccountAge(t) < 7 then s2 + 0.25 else s2;
    var avg := AvgOrderValue(t);
    var s4 := if avg > 0.0 && TotalAmount(t) > avg * 3.0 then s3 + 0.15 else s3;
    Min(s4, 1.0)
  }

  /** Weight of a rule if it fires on `t`, else nothing. */
  function Contribution(r: Rule, t: Transaction): real {
    if Fires(r, t) then Weight(r) else 0.0
  }

  /** The fired weight of all four rules, written out rule by rule. */
  lemma FiredWeightOfAll(t: Transaction)
    ensures FiredWeight(AllRules, t)
            == Contribution(NewAccountHighAmount, t) + Contribution(FirstOrderVeryHighAmount, t)
               + Contribution(NewAccountCreditCard, t) + Contribution(AmountFarAboveAverage, t)
  {
    var rs := AllRules;
    assert rs[1..][1..][1..][1..] == [];
    assert FiredWeight(rs[1..][1..][1..], t) == Contribution(AmountFarAboveAverage, t);
    assert FiredWeight(rs[1..][1..], t)
        == Contribution(NewAccountCreditCard, t) + Contribution(AmountFarAboveAverage, t);
    assert FiredWeight(rs[1..], t)
        == Contribution(FirstOrderVeryHighAmount, t) + Contribution(NewAccountCreditCard, t)
           + Contribution(AmountFarAboveAverage, t);
  }

  /** The running sum equals the weights of the rules that fire, capped at 1.0. */
  lemma RuleScoreIsFiredWeight(t: Transaction)
    ensures RuleScore(t) == Min(FiredWeight(AllRules, t), 1.0)
  {
    FiredWeightOfAll(t);
  }

  /** The cap is reached exactly when all four rules fire (their weights add up to 1.05). */
  lemma RuleScoreFullIffAllFire(t: Transaction)
    ensures RuleScore(t) == 1.0 <==> forall i :: 0 <= i < |AllRules| ==> Fires(AllRules[i], t)
  {
    FiredWeightOfAll(t);
    RuleScoreIsFiredWeight(t);
    var rs := AllRules;
    assert (forall i :: 0 <= i < |rs| ==> Fires(rs[i], t)) <==>
           Fires(rs[0], t) && Fires(rs[1], t) && Fires(rs[2], t) && Fires(rs[3], t);
  }

  /**
   * `predict`: 65% model probability plus 35% rule score, clamped at 1.0.
   * An untrained model (`None`) yields 0.5 without consulting the rules.
   */
  function Predict(t: Transaction, probability: Option<real>): (r: real)
    ensures r <= 1.0
    ensures probability.None? ==> r == 0.5
    ensures probability.Some? && 0.0 <= probability.value <= 1.0 ==>
              0.0 <= r && r == 0.65 * probability.value + 0.35 * RuleScore(t)
  {
    match probability
    case None => 0.5
    case Some(p) => Min(0.65 * p + 0.35 * RuleScore(t), 1.0)
  }

  /** A higher model probability never lowers the prediction. */
  lemma PredictMonotone(t: Transaction, p: real, q: real)
    requires p <= q
    ensures Predict(t, Some(p)) <= Predict(t, Some(q))
  {
  }

  /** A transaction firing more rules never scores lower, given the same model probability. */
  lemma PredictRuleMonotone(t: Transaction, u: Transaction, p: real)
    requires forall i :: 0 <= i < |AllRules| ==> Fires(AllRules[i], t) ==> Fires(AllRules[i], u)
    ensures RuleScore(t) <= RuleScore(u)
    ensures Predict(t, Some(p)) <= Predict(u, Some(p))
  {
    RuleScoreIsFiredWeight(t);
    RuleScoreIsFiredWeight(u);
    FiredWeightMonotone(AllRules, t, u);
  }

  lemma {:induction false} FiredWeightMonotone(rs: seq<Rule>, t: Transaction, u: Transaction)
    requires forall i :: 0 <= i < |rs| ==> Fires(rs[i], t) ==> Fires(rs[i], u)
    ensures FiredWeight(rs, t) <= FiredWeight(rs, u)
    decreases |rs|
  {
    if |rs| > 0 {
      FiredWeightMonotone(rs[1..], t, u);
    }
  }

  /** The payment encoding ignores letter case. */
  lemma PaymentNumericCaseInsensitive(pm: string)
    ensures PaymentNumeric(ToUpper(pm)) == PaymentNumeric(pm)
  {
    assert ToLower(ToUpper(pm)) == ToLower(pm) by {
      forall i | 0 <= i < |pm|
        ensures ToLower(ToUpper(pm))[i] == ToLower(pm)[i]
      {
      }
    }
  }
}
