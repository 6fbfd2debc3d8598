/**
 * Input validation of a transaction and the constraints of a detection
 * result (src/models/transaction_models.py).
 *
 * The input model strips every string before anything else looks at it,
 * checks the declared length and range bounds, runs the field validators,
 * collects every failing field, and only when all fields pass resolves the
 * legacy `amount` alias. Validation either yields a normalised
 * `Transaction` or says why it failed.
 */
module TransactionModels {
  import opened Wrappers
  import opened Strings

  /**
   * The keyword arguments a caller passes. `None` is a missing key or an
   * explicit `None`, which every field treats alike except
   * `avg_order_value`: there the outer `None` is a missing key (defaulted
   * to 0.0) and `Some(None)` an explicit `None` (kept).
   */
  datatype RawTransaction = RawTransaction(
    orderId: Option<string>,
    userId: Option<string>,
    totalAmount: Option<real>,
    paymentMethod: Option<string>,
    accountAgeDays: Option<int>,
    totalOrders: Option<int>,
    avgOrderValue: Option<Option<real>>,
    ipAddress: Option<string>,
    amount: Option<real>)

  /** A transaction that passed validation, as `model_dump` reports it. */
  datatype Transaction = Transaction(
    orderId: string,
    userId: string,
    totalAmount: real,
    paymentMethod: string,
    accountAgeDays: int,
    totalOrders: int,
    avgOrderValue: Option<real>,
    ipAddress: Option<string>)

  datatype Field = OrderId | UserId | TotalAmount | PaymentMethod | AccountAgeDays | TotalOrders | AvgOrderValue | IpAddress

  /**
   * Why a transaction was refused: the fields that failed their checks, or
   * (all fields being valid) a missing or non-positive amount.
   */
  datatype ValidationError = FieldErrors(fields: set<Field>) | MissingAmount | NonPositiveAmount

  const MaxIdentifierLength: nat := 100
  const MaxAmount: real := 1000000.0
  const MaxAccountAgeDays: int := 10000
  const MaxTotalOrders: int := 100000
  const MaxIpLength: nat := 45

  const SqlKeywords: seq<string> := ["SELECT", "INSERT", "UPDATE", "DELETE", "DROP", ";--"]
  const PaymentMethods: seq<string> := ["credit_card", "debit_card", "bank_transfer", "paypal", "crypto"]

  /** Some SQL keyword occurs in the upper-cased form of `s`. */
  predicate HasSqlKeyword(s: string) {
    exists k :: 0 <= k < |SqlKeywords| && Contains(ToUpper(s), SqlKeywords[k])
  }

  /**
   * `order_id` / `user_id`. Pydantic first trims the White_Space
   * characters and checks the 1..100 length bound on what is left; the
   * validator then refuses a value that Python's `strip` empties (one made
   * of \x1c-\x1f, say) or whose upper-cased form holds an SQL keyword, and
   * returns the Python-stripped value.
   */
  function ValidateIdentifier(v: Option<string>): (r: Option<string>)
    ensures r.Some? <==>
              && v.Some?
              && 1 <= |Trim(v.value)| <= MaxIdentifierLength
              && Strip(Trim(v.value)) != ""
              && !HasSqlKeyword(Trim(v.value))
    ensures r.Some? ==> r.value == Strip(Trim(v.value))
    ensures r.Some? ==> 1 <= |r.value| <= MaxIdentifierLength && !IsSpace(r.value[0]) && !IsSpace(r.value[|r.value| - 1])
  {
    match v
    case None => None
    case Some(raw) =>
      var t := Trim(raw);
      if |t| < 1 || |t| > MaxIdentifierLength then None
      else if Strip(t) == "" || HasSqlKeyword(t) then None
      else Some(Strip(t))
  }

  /**
   * `payment_method`: trimmed by Pydantic, then lower-cased and stripped by
   * the validator, and one of the five known methods.
   */
  function NormalizePaymentMethod(v: Option<string>): (r: Option<string>)
    ensures r.Some? <==> v.Some? && Strip(ToLower(Trim(v.value))) in PaymentMethods
    ensures r.Some? ==> r.value in PaymentMethods && r.value == Strip(ToLower(Trim(v.value)))
  {
    match v
    case None => None
    case Some(raw) =>
      var normalized := Strip(ToLower(Trim(raw)));
      if normalized in PaymentMethods then Some(normalized) else None
  }

  /** A run of one to three decimal digits, as `\d{1,3}` matches it. */
  predicate IsOctetText(p: string) {
    1 <= |p| <= 3 && forall i :: 0 <= i < |p| ==> IsDigit(p[i])
  }

  /** Matches `^(\d{1,3}\.){3}\d{1,3}$`: four dot-separated runs of one to three digits. */
  predicate IsIpv4Shaped(s: string) {
    var parts := Split(s, '.');
    |parts| == 4 && forall k :: 0 <= k < 4 ==> IsOctetText(parts[k])
  }

  /** An IPv4-shaped string whose octets all read as at most 255. */
  predicate IsIpv4(s: string) {
    IsIpv4Shaped(s) &&
    var parts := Split(s, '.');
    forall k :: 0 <= k < 4 ==> DigitsValue(parts[k]) <= 255
  }

  predicate IsHexGroup(p: string) {
    |p| <= 4 && forall i :: 0 <= i < |p| ==> IsHexDigit(p[i])
  }

  /**
   * Matches `^([0-9a-fA-F]{0,4}:){2,7}[0-9a-fA-F]{0,4}$`: three to eight
   * colon-separated groups of at most four hex digits (any group may be empty).
   */
  predicate IsIpv6Shaped(s: string) {
    var parts := Split(s, ':');
    3 <= |parts| <= 8 && forall k :: 0 <= k < |parts| ==> IsHexGroup(parts[k])
  }

  /**
   * `validate_ip_address` after the strip and the 45-character bound: never
   * fails, but maps the empty string, a dotted quad with an octet above 255
   * and anything unrecognised to `None`.
   */
  function NormalizeIp(s: string): (r: Option<string>)
    ensures r.Some? <==> s != "" && (IsIpv4(s) || (!IsIpv4Shaped(s) && IsIpv6Shaped(s)))
    ensures r.Some? ==> r.value == s
  {
    if s == "" then None
    else if IsIpv4Shaped(s) then
      if IsIpv4(s) then Some(s) else None
    else if IsIpv6Shaped(s) then Some(s)
    else None
  }

  /**
   * The `ip_address` field: absent stays absent; Pydantic trims the
   * White_Space characters and refuses more than 45 that remain; the
   * validator Python-strips the rest and hands it to `NormalizeIp`.
   */
  function ValidateIp(v: Option<string>): (r: Result<Option<string>, Field>)
    ensures v.None? ==> r == Success(None)
    ensures r.Failure? <==> v.Some? && |Trim(v.value)| > MaxIpLength
    ensures r.Success? && r.value.Some? ==> v.Some? && r.value.value == Strip(Trim(v.value)) && |r.value.value| <= MaxIpLength
  {
    match v
    case None => Success(None)
    case Some(raw) =>
      var t := Trim(raw);
      if |t| > MaxIpLength then Failure(IpAddress)
      else Success(NormalizeIp(Strip(t)))
  }

  predicate TotalAmountOk(v: Option<real>) {
    v.None? || 0.0 < v.value < MaxAmount
  }

  predicate AccountAgeOk(v: Option<int>) {
    v.Some? && 0 <= v.value <= MaxAccountAgeDays
  }

  predicate TotalOrdersOk(v: Option<int>) {
    v.Some? && 0 <= v.value <= MaxTotalOrders
  }

  /** The value `avg_order_value` takes when the key is missing. */
  const DefaultAvgOrderValue: real := 0.0

  /** A missing key or an explicit `None` passes; a number must lie in [0, 1000000). */
  predicate AvgOrderValueOk(v: Option<Option<real>>) {
    v.None? || v.value.None? || 0.0 <= v.value.value < MaxAmount
  }

  const AllFields: set<Field> :=
    {OrderId, UserId, TotalAmount, PaymentMethod, AccountAgeDays, TotalOrders, AvgOrderValue, IpAddress}

  lemma EveryFieldListed(f: Field)
    ensures f in AllFields
  {
    match f
    case OrderId =>
    case UserId =>
    case TotalAmount =>
    case PaymentMethod =>
    case AccountAgeDays =>
    case TotalOrders =>
    case AvgOrderValue =>
    case IpAddress =>
  }

  /** Field `f` of `raw` passes its own checks. */
  predicate FieldOk(raw: RawTransaction, f: Field) {
    match f
    case OrderId => ValidateIdentifier(raw.orderId).Some?
    case UserId => ValidateIdentifier(raw.userId).Some?
    case TotalAmount => TotalAmountOk(raw.totalAmount)
    case PaymentMethod => NormalizePaymentMethod(raw.paymentMethod).Some?
    case AccountAgeDays => AccountAgeOk(raw.accountAgeDays)
    case TotalOrders => TotalOrdersOk(raw.totalOrders)
    case AvgOrderValue => AvgOrderValueOk(raw.avgOrderValue)
    case IpAddress => ValidateIp(raw.ipAddress).Success?
  }

  /** Every field whose own checks fail, as Pydantic collects them. */
  function FieldErrorsOf(raw: RawTransaction): (errs: set<Field>)
    ensures forall f :: f in errs <==> !FieldOk(raw, f)
  {
    forall f: Field
      ensures f in AllFields
    {
      EveryFieldListed(f);
    }
    set f | f in AllFields && !FieldOk(raw, f)
  }

  lemma NoErrorMeansOk(raw: RawTransaction, f: Field)
    requires FieldErrorsOf(raw) == {}
    ensures FieldOk(raw, f)
  {
    assert f !in FieldErrorsOf(raw);
  }

  /**
   * `TransactionInput(**raw)`: field checks first (all failures reported
   * together), then `model_post_init`, which falls back to the legacy
   * `amount` when `total_amount` is missing and requires the result to be
   * positive. The legacy value is not held to the upper bound.
   */
  function Validate(raw: RawTransaction): (r: Result<Transaction, ValidationError>)
    ensures FieldErrorsOf(raw) != {} ==> r == Failure(FieldErrors(FieldErrorsOf(raw)))
    ensures FieldErrorsOf(raw) == {} ==>
              match ResolvedAmount(raw)
              case None => r == Failure(MissingAmount)
              case Some(total) => (r.Success? <==> total > 0.0) && (r.Failure? ==> r.error == NonPositiveAmount)
    ensures r.Success? ==>
              && r.value.totalAmount == ResolvedAmount(raw).value
              && r.value.totalAmount > 0.0
              && r.value.paymentMethod in PaymentMethods
              && (raw.avgOrderValue.None? ==> r.value.avgOrderValue == Some(DefaultAvgOrderValue))
              && (raw.avgOrderValue.Some? ==> r.value.avgOrderValue == raw.avgOrderValue.value)
              && (r.value.avgOrderValue.Some? ==> 0.0 <= r.value.avgOrderValue.value < MaxAmount)
  {
    var errs := FieldErrorsOf(raw);
    if errs != {} then Failure(FieldErrors(errs))
    else
      NoErrorMeansOk(raw, OrderId);
      NoErrorMeansOk(raw, UserId);
      NoErrorMeansOk(raw, PaymentMethod);
      NoErrorMeansOk(raw, IpAddress);
      NoErrorMeansOk(raw, AccountAgeDays);
      NoErrorMeansOk(raw, TotalOrders);
      NoErrorMeansOk(raw, AvgOrderValue);
      var orderId := ValidateIdentifier(raw.orderId).value;
      var userId := ValidateIdentifier(raw.userId).value;
      var pm := NormalizePaymentMethod(raw.paymentMethod).value;
      var ip := ValidateIp(raw.ipAddress).value;
      var avg := if raw.avgOrderValue.Some? then raw.avgOrderValue.value else Some(DefaultAvgOrderValue);
      if raw.totalAmount.None? && raw.amount.None? then Failure(MissingAmount)
      else
        var total := if raw.totalAmount.Some? then raw.totalAmount.value else raw.amount.value;
        if total <= 0.0 then Failure(NonPositiveAmount)
        else Success(Transaction(orderId, userId, total, pm, raw.accountAgeDays.value,
                                 raw.totalOrders.value, avg, ip))
  }

  /** `total_amount`, or the legacy `amount` when it is missing. */
  function ResolvedAmount(raw: RawTransaction): Option<real> {
    if raw.totalAmount.Some? then raw.totalAmount else raw.amount
  }

  /** An accepted transaction holds, field by field, what each field validator returned. */
  lemma ValidatedFields(raw: RawTransaction)
    requires Validate(raw).Success?
    ensures var t := Validate(raw).value;
            && ValidateIdentifier(raw.orderId) == Some(t.orderId)
            && ValidateIdentifier(raw.userId) == Some(t.userId)
            && NormalizePaymentMethod(raw.paymentMethod) == Some(t.paymentMethod)
            && ValidateIp(raw.ipAddress) == Success(t.ipAddress)
            && raw.accountAgeDays == Some(t.accountAgeDays)
            && raw.totalOrders == Some(t.totalOrders)
            && t.avgOrderValue == (if raw.avgOrderValue.Some? then raw.avgOrderValue.value else Some(DefaultAvgOrderValue))
  {
    NoErrorMeansOk(raw, OrderId);
    NoErrorMeansOk(raw, UserId);
    NoErrorMeansOk(raw, PaymentMethod);
    NoErrorMeansOk(raw, IpAddress);
    NoErrorMeansOk(raw, AccountAgeDays);
    NoErrorMeansOk(raw, TotalOrders);
  }

  /** `model_dump()` fed back as keyword arguments; the legacy alias is excluded from the dump. */
  function Dump(t: Transaction): RawTransaction {
    RawTransaction(Some(t.orderId), Some(t.userId), Some(t.totalAmount), Some(t.paymentMethod),
                   Some(t.accountAgeDays), Some(t.totalOrders), Some(t.avgOrderValue), t.ipAddress, None)
  }

  /** Identifiers come out stripped and free of SQL keywords. */
  lemma AcceptedIdentifierIsClean(v: Option<string>)
    requires ValidateIdentifier(v).Some?
    ensures var s := ValidateIdentifier(v).value;
            && 1 <= |s| <= MaxIdentifierLength
            && (|s| > 0 ==> !IsSpace(s[0]) && !IsSpace(s[|s| - 1]))
            && forall k :: 0 <= k < |SqlKeywords| ==> !Contains(ToUpper(s), SqlKeywords[k])
  {
    AcceptedIdentifierIsStripped(v);
    NoKeywordAfterStrip(Trim(v.value));
  }

  /** Stripping cannot create an SQL keyword. */
  lemma NoKeywordAfterStrip(t: string)
    requires !HasSqlKeyword(t)
    ensures !HasSqlKeyword(Strip(t))
  {
    forall k | 0 <= k < |SqlKeywords|
      ensures !Contains(ToUpper(Strip(t)), SqlKeywords[k])
    {
      ContainsUpperOfStrip(t, SqlKeywords[k]);
    }
  }

  /** An accepted identifier is the stripped form of a trimmed value free of SQL keywords. */
  lemma AcceptedIdentifierIsStripped(v: Option<string>)
    requires ValidateIdentifier(v).Some?
    ensures !HasSqlKeyword(Trim(v.value)) && ValidateIdentifier(v).value == Strip(Trim(v.value))
  {
  }

  /** Re-validating an accepted identifier gives it back unchanged. */
  lemma IdentifierIdempotent(v: Option<string>)
    requires ValidateIdentifier(v).Some?
    ensures ValidateIdentifier(ValidateIdentifier(v)) == ValidateIdentifier(v)
  {
    var s := ValidateIdentifier(v).value;
    AcceptedIdentifierIsClean(v);
    TrimOfStripped(Trim(v.value));
    StripIdempotent(Trim(v.value));
    assert !HasSqlKeyword(s);
  }

  /** Each known payment method is already in normal form. */
  lemma KnownMethodIsNormal(m: string)
    requires m in PaymentMethods
    ensures Strip(ToLower(Trim(m))) == m
  {
    if m == "credit_card" {
      LowerWordIsNormal(m);
    } else if m == "debit_card" {
      LowerWordIsNormal(m);
    } else if m == "bank_transfer" {
      LowerWordIsNormal(m);
    } else if m == "paypal" {
      LowerWordIsNormal(m);
    } else {
      LowerWordIsNormal(m);
    }
  }

  /** A non-empty word of lower-case letters and underscores survives trimming, lower-casing and stripping. */
  lemma LowerWordIsNormal(m: string)
    requires |m| > 0 && forall i :: 0 <= i < |m| ==> m[i] == '_' || 'a' <= m[i] <= 'z'
    ensures Strip(ToLower(Trim(m))) == m
  {
    TrimNoop(m);
    ToLowerNoop(m);
    StripNoop(m);
  }

  /** Re-normalising a normalised payment method gives it back unchanged. */
  lemma PaymentMethodIdempotent(v: Option<string>)
    requires NormalizePaymentMethod(v).Some?
    ensures NormalizePaymentMethod(NormalizePaymentMethod(v)) == NormalizePaymentMethod(v)
  {
    KnownMethodIsNormal(NormalizePaymentMethod(v).value);
  }

  /** A kept IP address is kept again when re-validated. */
  lemma IpIdempotent(v: Option<string>)
    requires ValidateIp(v).Success?
    ensures ValidateIp(ValidateIp(v).value) == ValidateIp(v)
  {
    if ValidateIp(v).value.Some? {
      TrimOfStripped(Trim(v.value));
      StripIdempotent(Trim(v.value));
    }
  }

  /** The normalised string fields of an accepted transaction come back unchanged from their validators. */
  lemma DumpStringFieldsOk(raw: RawTransaction)
    requires Validate(raw).Success?
    ensures var t := Validate(raw).value;
            var d := Dump(t);
            && ValidateIdentifier(d.orderId) == Some(t.orderId)
            && ValidateIdentifier(d.userId) == Some(t.userId)
            && NormalizePaymentMethod(d.paymentMethod) == Some(t.paymentMethod)
            && ValidateIp(d.ipAddress) == Success(t.ipAddress)
  {
    ValidatedFields(raw);
    IdentifierIdempotent(raw.orderId);
    IdentifierIdempotent(raw.userId);
    PaymentMethodIdempotent(raw.paymentMethod);
    IpIdempotent(raw.ipAddress);
  }

  /** The numeric fields of an accepted transaction stay within bounds, the amount when it was in bounds. */
  lemma DumpNumericFieldsOk(raw: RawTransaction)
    requires Validate(raw).Success? && Validate(raw).value.totalAmount < MaxAmount
    ensures var d := Dump(Validate(raw).value);
            FieldOk(d, TotalAmount) && FieldOk(d, AccountAgeDays) && FieldOk(d, TotalOrders) && FieldOk(d, AvgOrderValue)
  {
    ValidatedFields(raw);
    NoErrorMeansOk(raw, AvgOrderValue);
    NoErrorMeansOk(raw, AccountAgeDays);
    NoErrorMeansOk(raw, TotalOrders);
  }

  /**
   * Validation is a normalisation: the dump of an accepted transaction
   * validates to the same transaction, provided its amount is within the
   * `total_amount` bound (a legacy `amount` need not be; see
   * `LegacyAmountSkipsUpperBound`).
   */
  lemma ValidateDumpRoundTrip(raw: RawTransaction)
    requires Validate(raw).Success? && Validate(raw).value.totalAmount < MaxAmount
    ensures Validate(Dump(Validate(raw).value)) == Validate(raw)
  {
    var t := Validate(raw).value;
    var d := Dump(t);
    DumpStringFieldsOk(raw);
    DumpNumericFieldsOk(raw);
    forall f: Field
      ensures FieldOk(d, f)
    {
      EveryFieldListed(f);
    }
    assert FieldErrorsOf(d) == {};
    assert ResolvedAmount(d) == Some(t.totalAmount);
  }

  /**
   * The legacy `amount` is only checked for being positive: a value above
   * the `total_amount` bound is accepted when it comes through the alias.
   */
  lemma LegacyAmountSkipsUpperBound(raw: RawTransaction)
    requires FieldErrorsOf(raw) == {}
    requires raw.totalAmount.None? && raw.amount == Some(2.0 * MaxAmount)
    ensures Validate(raw).Success? && Validate(raw).value.totalAmount > MaxAmount
  {
  }

  /** An accepted amount at or above the bound (only possible through the alias) fails re-validation. */
  lemma OutOfBoundsDumpRejected(t: Transaction)
    requires t.totalAmount >= MaxAmount
    ensures var r := Validate(Dump(t));
            r.Failure? && r.error.FieldErrors? && TotalAmount in r.error.fields
  {
    assert !FieldOk(Dump(t), TotalAmount);
  }

  /** A validated IP address is never the placeholder string `unknown`. */
  lemma ValidatedIpNeverUnknown(v: Option<string>)
    requires ValidateIp(v).Success? && ValidateIp(v).value.Some?
    ensures ValidateIp(v).value.value != "unknown"
  {
    assert ValidateIp(v) == Success(NormalizeIp(Strip(Trim(v.value))));
    NoSeparatorIsNoIp("unknown");
  }

  /** A string with neither a dot nor a colon is no IP address. */
  lemma NoSeparatorIsNoIp(s: string)
    requires '.' !in s && ':' !in s
    ensures NormalizeIp(s) == None
  {
    assert Split(s, '.') == [s];
    assert Split(s, ':') == [s];
  }

  /** The literal set of recommendations a detection result may carry. */
  const Recommendations: set<string> := {"APPROVE", "MANUAL_REVIEW", "AGENT_ANALYSIS", "BLOCK"}

  /** The fields of `FraudDetectionResult` that carry constraints. */
  datatype DetectionResult = DetectionResult(
    orderId: string,
    fraudScore: real,
    mlScore: real,
    velocityBoost: real,
    redisBoost: real,
    qdrantBoost: real,
    recommendation: string,
    processingTimeSeconds: real,
    redisContext: seq<string>,
    qdrantSimilarCases: int)

  predicate UnitInterval(x: real) {
    0.0 <= x <= 1.0
  }

  /** `FraudDetectionResult`'s field constraints. */
  predicate ValidDetectionResult(r: DetectionResult) {
    && UnitInterval(r.fraudScore)
    && UnitInterval(r.mlScore)
    && UnitInterval(r.velocityBoost)
    && UnitInterval(r.redisBoost)
    && UnitInterval(r.qdrantBoost)
    && r.recommendation in Recommendations
    && r.processingTimeSeconds > 0.0
    && r.qdrantSimilarCases >= 0
  }
}
