# Fraud detection core, modelled in Dafny

This project models the decision core of a real-time e-commerce fraud
detection service. The service scores each incoming order, decides whether to
approve it, send it to manual review or escalate it to a crew of AI agents,
and keeps short-term memory of users and IPs.

The model covers these parts:

- **Transaction validation.** The Pydantic input model is modelled: identifiers are stripped and screened for SQL keywords, the payment method is normalised, the IP address is normalised, numeric bounds are checked, and the legacy `amount` alias is handled. The output is the result record and its invariants.
- **Velocity detector.** It keeps per-user order histories over an explicit millisecond clock. It applies the rapid-succession rule, which is tried first, then the card-testing rule, and prunes old orders on clean checks. It also reports order counts and statistics.
- **ML detector, rule part.** The payment-method encoding, the four weighted rules, the 65/35 ensemble and the clamp are modelled. The anomaly probability of the isolation forest enters as an input.
- **Orchestrator.** It computes the Redis boost and its context lines, runs the velocity step, computes the similarity boost, and clamps the fused score. Triage comes next, with investigation only for `AGENT_ANALYSIS`. The writes to the stores come back as a list of effects, and the counters are updated.
- **Resilience utilities.**
  - The circuit breaker: its state machine, its statistics and its registry.
  - The retry decorator and the retry handler, with capped exponential backoff and jitter. These are loops with invariants.
  - The rate limiter: its window, minimum delay and status. The decorator form is modelled, which counts only returning calls. So is the context-manager form, which counts every call.
- **Agent glue.**
  - The prompt loader's markdown section parser and its fallbacks.
  - The recommendation extraction of both agent back-ends.
  - The context the CrewAI crew is given.
  - The error paths of both `investigate` methods.
  - The analysis text of the Agno adapter.
- **Agent tools.** The rule scoring of the transaction-analysis tool, the findings and score of the user-reputation tool, and the argument checks and defaults of the fraud-decision tool.
- **Observability.** The health server's uptime formatter and the system metrics aggregator.

**Modelling choices:**

- Time is an integer millisecond clock passed in as a parameter.
- Sleeping is modelled as the point in time at which the call proceeds.
- Money, scores and probabilities are `real`, so arithmetic is exact.
- Collaborators appear as inputs:
  - Redis and Qdrant appear as the answers they gave;
  - the LLM agent crew appears as an opaque function or a `Result`;
  - random numbers appear as a function from attempt number to `[0, 1)`.
- String functions work on characters. Case conversion, white space and digits are ASCII-only. Pydantic's trim removes the ASCII White_Space characters; Python's `strip` also removes the separators \x1c-\x1f.
- A keyword argument that is missing and one given as `None` are both `None`, except for `avg_order_value`, whose default is 0.0: there a missing key is the outer `None` of an `Option<Option<real>>`.

## Model

| member | source | states |
|---|---|---|
| TransactionModels.ValidateIdentifier | src/models/transaction_models.py:80-104 | an id is accepted iff, after Pydantic's trim, it is 1..100 characters, Python's `strip` does not empty it and it contains none of the SQL keywords in any ASCII case; the accepted value is the trimmed text stripped again by Python |
| TransactionModels.NormalizePaymentMethod | src/models/transaction_models.py:106-118 | accepted iff the trimmed method, lower-cased and stripped by Python, is one of the five known methods, and the result is that normal form |
| TransactionModels.NormalizeIp | src/models/transaction_models.py:120-144 | an address is kept iff it is a dotted quad with octets at most 255, or is not shaped like a quad and has 3..8 hex groups of at most 4 digits; otherwise it becomes absent |
| TransactionModels.ValidateIp | src/models/transaction_models.py:71-75 | an absent IP stays absent; only an address longer than 45 characters after Pydantic's trim is an error; a kept address is the trimmed input stripped again by Python |
| TransactionModels.FieldErrorsOf | src/models/transaction_models.py:30-75 | a field is reported iff its own constraint fails, so every field error is collected, not just the first |
| TransactionModels.Validate | src/models/transaction_models.py:146-157 | field errors come first; then a missing amount, then a non-positive amount; an accepted transaction has a positive amount taken from `total_amount`, else from `amount`, a known payment method, and an average order value that is 0.0 when the key is missing, absent when it was given as `None`, and otherwise the given value, within [0, 1000000) |
| TransactionModels.ValidatedFields | src/models/transaction_models.py:64-157 | every field of an accepted transaction is what its own validator returned for the raw input; a missing average order value becomes its default 0.0 |
| TransactionModels.AcceptedIdentifierIsClean | src/models/transaction_models.py:84-91 | an accepted id has no surrounding white space, is 1..100 long and contains no SQL keyword |
| TransactionModels.IdentifierIdempotent | src/models/transaction_models.py:80-104 | validating an accepted id again changes nothing |
| TransactionModels.KnownMethodIsNormal | src/models/transaction_models.py:110-118 | each of the five known methods is its own normal form |
| TransactionModels.PaymentMethodIdempotent | src/models/transaction_models.py:106-118 | normalising a normalised method changes nothing |
| TransactionModels.IpIdempotent | src/models/transaction_models.py:120-144 | validating a validated IP again changes nothing |
| TransactionModels.ValidateDumpRoundTrip | src/models/transaction_models.py:146-157 | re-validating the dump of an accepted transaction gives the same transaction, when its amount is below the upper bound |
| TransactionModels.LegacyAmountSkipsUpperBound | src/models/transaction_models.py:78 | an amount given only through the legacy alias is accepted above the 1,000,000 bound |
| TransactionModels.OutOfBoundsDumpRejected | src/models/transaction_models.py:37-42 | a transaction whose amount is at or above the bound, which only the alias lets through, fails validation on `total_amount` when it is dumped and read back |
| TransactionModels.ValidatedIpNeverUnknown | src/models/transaction_models.py:120-144 | a validated IP is never the text `unknown` |
| VelocityDetector.CheckVelocity | src/fraud_detection/velocity_detector.py:89-110 | velocity fraud iff there are two or more orders and the previous one is strictly less than the threshold before now; reports that gap |
| VelocityDetector.CheckCardTesting | src/fraud_detection/velocity_detector.py:112-144 | card testing iff the number of orders under $50 inside the window reaches the threshold; reports that count |
| VelocityDetector.Prune | src/fraud_detection/velocity_detector.py:146-159 | keeps exactly the orders of the last hour, and drops users left with none |
| VelocityDetector.CheckVelocityFraud | src/fraud_detection/velocity_detector.py:41-87 | the order is recorded before either rule runs; rapid succession wins over card testing; a fraud verdict changes only this user's history, by exactly one appended order |
| VelocityDetector.CleanCheckPrunes | src/fraud_detection/velocity_detector.py:74-87 | after a clean check the new order is this user's latest, and every kept order of every user is from the last hour |
| VelocityDetector.PruneKeepsLatest | src/fraud_detection/velocity_detector.py:146-159 | pruning never removes an order from the last hour, so the order just recorded survives |
| VelocityDetector.GetUserOrderCount | src/fraud_detection/velocity_detector.py:161-178 | counts the user's orders newer than the given number of minutes: all of them when all are that recent, none when none is; never more than the history |
| VelocityDetector.DefaultCountAfterCleanCheck | src/fraud_detection/velocity_detector.py:161 | the default window is 60 minutes; right after a clean check it counts every order the detector holds for any user, because the cleanup keeps exactly the last hour |
| VelocityDetector.OrderCountMonotone | src/fraud_detection/velocity_detector.py:161-178 | a wider window never counts fewer orders |
| VelocityDetector.GetStats | src/fraud_detection/velocity_detector.py:180-191 | reports the number of tracked users, the total number of tracked orders and the configuration |
| VelocityDetector.TotalAtLeastUsers | src/fraud_detection/velocity_detector.py:180-191 | while every tracked user has an order, there are at least as many orders as users |
| VelocityDetector.FraudAddsOneEvent | src/fraud_detection/velocity_detector.py:61-77 | a fraud verdict adds exactly one tracked order |
| VelocityDetector.FirstOrderNeverFraud | src/fraud_detection/velocity_detector.py:41-87 | a user's first order is never fraud, when card testing needs two or more orders |
| VelocityDetector.CheckPreservesValid | src/fraud_detection/velocity_detector.py:41-87 | histories stay chronological, non-empty and not in the future across a check |
| VelocityDetector.CardTestingScenario | tests/test_velocity_detector.py:78-92 | five $1 orders 500 ms apart under the default configuration: the first two pass, and the third, fourth and fifth are card testing with counts 3, 4 and 5 |
| VelocityDetector.NormalVelocityScenario | tests/test_velocity_detector.py:105-119 | three $50 orders two seconds apart are never fraud |
| VelocityDetector.FirstOrderRecorded | src/fraud_detection/velocity_detector.py:61-67 | a fresh detector records a first order and reports no fraud |
| VelocityDetector.CardTestingStep | src/fraud_detection/velocity_detector.py:61-77 | with two or more small orders in the last five minutes and the latest at least the velocity threshold ago, the next $1 order is card testing counting them all; it is recorded and nothing is pruned |
| VelocityDetector.CleanStepKeepsHistory | src/fraud_detection/velocity_detector.py:79-86 | a clean check on a history of the last hour keeps it whole and appends the order |
| MlDetector.PaymentNumeric | src/fraud_detection/ml_detector.py:79-90 | case-insensitively: crypto 3, credit card 2, debit card and PayPal 1, everything else 0 |
| MlDetector.PaymentNumericCaseInsensitive | src/fraud_detection/ml_detector.py:87-90 | the encoding ignores case |
| MlDetector.RuleScore | src/fraud_detection/ml_detector.py:133-164 | in [0, 1]; without an account age the two new-account rules cannot fire, so it is at most 0.45 |
| MlDetector.RuleScoreIsFiredWeight | src/fraud_detection/ml_detector.py:143-164 | the score is the sum of the weights of the rules that fire, capped at 1 |
| MlDetector.FiredWeightOfAll | src/fraud_detection/ml_detector.py:145-162 | each of the four rules contributes its weight exactly when it fires |
| MlDetector.RuleScoreFullIffAllFire | src/fraud_detection/ml_detector.py:143-164 | the score is 1 iff all four rules fire |
| MlDetector.Predict | src/fraud_detection/ml_detector.py:101-131 | without a model the score is 0.5; with a probability in [0, 1] it is 0.65 of it plus 0.35 of the rule score, in [0, 1] |
| MlDetector.PredictMonotone | src/fraud_detection/ml_detector.py:128-131 | a higher model probability never lowers the prediction |
| MlDetector.PredictRuleMonotone | src/fraud_detection/ml_detector.py:133-164 | firing more rules never lowers the rule score or the prediction |
| MlDetector.FiredWeightMonotone | src/fraud_detection/ml_detector.py:143-162 | the sum of fired weights grows with the set of firing rules |
| FraudOrchestrator.RedisBoost | src/fraud_detection/fraud_orchestrator.py:181-208 | zero without a store; zero iff neither user nor IP is flagged and the hour count is under 5; 0.9 iff all three signals fire |
| FraudOrchestrator.RedisContext | src/fraud_detection/fraud_orchestrator.py:188-208 | at most three notes, and none exactly when the boost is zero |
| FraudOrchestrator.RenderNotes | src/fraud_detection/fraud_orchestrator.py:192-207 | one line per note, in order |
| FraudOrchestrator.SimilarityBoost | src/fraud_detection/fraud_orchestrator.py:248-266 | with similarities in [0, 1] the boost is between 0 and 0.2 per case; positive when every case is similar at all |
| FraudOrchestrator.FinalScore | src/fraud_detection/fraud_orchestrator.py:277-278 | the sum of the four components when it is at most 1, and 1 from there on |
| FraudOrchestrator.FinalScoreMonotone | src/fraud_detection/fraud_orchestrator.py:277-278 | raising any component never lowers the score |
| FraudOrchestrator.Triage | src/fraud_detection/fraud_orchestrator.py:292-298 | AGENT_ANALYSIS iff the score reaches the block threshold; MANUAL_REVIEW iff it is below that and reaches the review threshold; APPROVE otherwise |
| FraudOrchestrator.TriageMonotone | src/fraud_detection/fraud_orchestrator.py:292-298 | a higher score never gets a milder triage |
| FraudOrchestrator.IpFlagAsWritten | src/fraud_detection/fraud_orchestrator.py:353-359 | as written: from 0.9 the IP is flagged unless it is the text `unknown`, so an absent IP is flagged too |
| FraudOrchestrator.IpFlagAsWrittenFlagsMissingIp | src/fraud_detection/fraud_orchestrator.py:353-359 | with no IP and a score of 0.95 the code as written flags the address `None`; the corrected flag does not |
| FraudOrchestrator.IpFlag | src/fraud_detection/fraud_orchestrator.py:353-359 | corrected: from 0.9 only a present address other than `unknown` is flagged |
| FraudOrchestrator.IpFlagAgreesOnPresentIp | src/fraud_detection/fraud_orchestrator.py:353-359 | on every validated address the corrected flag and the code as written agree |
| FraudOrchestrator.Effects | src/fraud_detection/fraud_orchestrator.py:335-373 | with a store the transaction is recorded first; from 0.8 the user is flagged, with high severity from 0.9; from 0.9 a present IP is flagged and, with a knowledge base, a pattern is added; with neither there are no writes. It uses the corrected IP flag of the finding below, so a missing IP is never flagged |
| FraudOrchestrator.CountStats | src/fraud_detection/fraud_orchestrator.py:225-378 | each counter goes up by one exactly when its event happened: fraud from 0.7, investigation, velocity, card testing, a positive Redis or Qdrant boost |
| FraudOrchestrator.ProcessTransaction | src/fraud_detection/fraud_orchestrator.py:163-170 | an invalid transaction fails with its validation error, before the detector or the counters are touched |
| FraudOrchestrator.ProcessThreadsDetector | src/fraud_detection/fraud_orchestrator.py:219-278 | the detector advances by exactly one velocity check; the result reports the boosts used, and the score is their clamped sum |
| FraudOrchestrator.ProcessInvestigatesOnlyEscalations | src/fraud_detection/fraud_orchestrator.py:300-333 | the crew is consulted iff the score reaches the block threshold, and then its answer is the recommendation; otherwise triage decides, and it is MANUAL_REVIEW or APPROVE |
| FraudOrchestrator.ProcessCounts | src/fraud_detection/fraud_orchestrator.py:375-378 | one more transaction; the fraud, investigation, velocity and card-testing counters move exactly with their events; no event counter exceeds the total |
| FraudOrchestrator.NewOrchestratorBounded | src/fraud_detection/fraud_orchestrator.py:133-142 | a fresh orchestrator's counters satisfy the bound |
| FraudOrchestrator.ProcessResultValid | src/models/transaction_models.py:160-173 | the orchestrator's result satisfies the result model's constraints when the ML score is in [0, 1], the elapsed time is positive, at most three similar cases with similarities in [0, 1] are returned and the crew answers with a verdict |
| FraudOrchestrator.CardTestingGoesToManualReview | src/fraud_detection/fraud_orchestrator.py:225-298 | with default thresholds, ML score 0.1 plus the card-testing boost gives 0.6 and MANUAL_REVIEW without investigation |
| FraudOrchestrator.VelocityEscalates | src/fraud_detection/fraud_orchestrator.py:225-333 | with default thresholds, ML score 0.5 plus the velocity boost gives 0.9, which is escalated to the crew, whose answer is final; without stores nothing is written |
| CircuitBreaker.NewStats | src/utils/circuit_breaker.py:24-37 | fresh statistics have the four transition counters, all zero |
| CircuitBreaker.SetState | src/utils/circuit_breaker.py:211-220 | a real change counts one transition under `<from>_to_<to>`; setting the current state changes nothing |
| CircuitBreaker.OnSuccess | src/utils/circuit_breaker.py:161-173 | a success is counted and the failure streak cleared; a half-open breaker closes once the success threshold is reached; an open breaker stays open; the configuration is kept, and a transition counter is bumped exactly when the state changed, under that transition's key |
| CircuitBreaker.OnFailure | src/utils/circuit_breaker.py:175-193 | a failure is counted with its time; the breaker opens iff it was not closed or the streak reached the failure threshold, and otherwise keeps its state; the configuration is kept, and a transition counter is bumped exactly when the state changed, under that transition's key |
| CircuitBreaker.TimeUntilRecovery | src/utils/circuit_breaker.py:203-209 | never negative; positive exactly when a reset may not yet be attempted, and then the rest of the recovery timeout |
| CircuitBreaker.Reset | src/utils/circuit_breaker.py:222-228 | closes the breaker and clears both streaks, keeping the other statistics |
| CircuitBreaker.Admit | src/utils/circuit_breaker.py:132-144 | every request is counted; a call is refused iff the breaker is open and the timeout has not passed; an admitted call on an open breaker makes it half-open and changes nothing else but the request count and that transition's counter; the configuration is always kept |
| CircuitBreaker.Call | src/utils/circuit_breaker.py:118-159 | a refused call fails with the circuit-open error; otherwise the function's value or exception passes through; a return is the success update of the admitted breaker, an expected exception its failure update, and an unexpected exception leaves the statistics as admission left them |
| CircuitBreaker.CallPreservesValid | src/utils/circuit_breaker.py:118-220 | the four transition counters are kept and an open breaker has a failure time |
| CircuitBreaker.ResetPreservesValid | src/utils/circuit_breaker.py:222-228 | a reset keeps the breaker well-formed |
| CircuitBreaker.NewBreakerValid | src/utils/circuit_breaker.py:52-78 | a fresh breaker is closed and well-formed |
| CircuitBreaker.OpenRejectsBeforeTimeout | src/utils/circuit_breaker.py:136-144 | before the timeout an open breaker refuses every call, whatever the function would do, and only counts the request |
| CircuitBreaker.OpenAdmitsAfterTimeout | src/utils/circuit_breaker.py:136-139 | after the timeout an open breaker admits the call as half-open and counts the transition |
| CircuitBreaker.HalfOpenFailureReopens | src/utils/circuit_breaker.py:183-186 | one expected failure while half-open reopens the breaker and records the failure time |
| CircuitBreaker.FailuresAccumulate | src/utils/circuit_breaker.py:175-193 | below the threshold a closed breaker stays closed and the failure streak counts the failures |
| CircuitBreaker.ThresholdFailuresOpen | src/utils/circuit_breaker.py:188-193 | a fresh breaker survives threshold-1 failures and opens on the threshold-th |
| CircuitBreaker.SuccessesAccumulate | src/utils/circuit_breaker.py:161-173 | below the threshold a half-open breaker stays half-open and counts the successes |
| CircuitBreaker.ThresholdSuccessesClose | src/utils/circuit_breaker.py:168-172 | a half-open breaker closes on exactly the threshold-th success and resets its success streak |
| CircuitBreaker.GetCircuitBreaker | src/utils/circuit_breaker.py:238-268 | an existing breaker is returned unchanged and the registry untouched; otherwise a fresh one is registered under its name |
| CircuitBreaker.GetCircuitBreakerOnce | src/utils/circuit_breaker.py:258-268 | asking again under the same name, with any configuration, returns the same breaker |
| CircuitBreaker.GetAllStats | src/utils/circuit_breaker.py:270-276 | one entry per registered breaker, holding its statistics |
| CircuitBreaker.ResetAll | src/utils/circuit_breaker.py:278-282 | every registered breaker is reset and closed, and none is added or removed |
| CircuitBreaker.ResetAllPreservesValid | src/utils/circuit_breaker.py:278-282 | resetting every breaker keeps each one well-formed |
| CircuitBreaker.CallRegistered | src/utils/circuit_breaker.py:257-268 | the registry hands out the breaker object itself, so a call through it leaves the updated breaker registered under its name, with the call's own result; no other breaker changes |
| CircuitBreaker.CallRegisteredPreservesValid | src/utils/circuit_breaker.py:257-268 | a call through the registry keeps every registered breaker well-formed, a freshly created one included |
| CircuitBreaker.CallRegisteredIsShared | src/utils/circuit_breaker.py:257-276 | after a call through the registry, the next request for that name returns the updated breaker, and the registry's statistics count the request |
| RetryHandler.BackoffDelay | src/utils/retry_handler.py:72-75 | the delay is base·exponentialBase^attempt, capped at the maximum |
| RetryHandler.BackoffNonDecreasing | src/utils/retry_handler.py:193-205 | for a base of at least 1, later attempts never wait less before jitter |
| RetryHandler.CalculateDelay | src/utils/retry_handler.py:193-211 | without jitter it is the capped backoff; with jitter it lies in [½, 1) of it, never above the maximum |
| RetryHandler.RetryWithBackoff | src/utils/retry_handler.py:54-101 | at most max_retries+1 calls; a return ends it with that value; a non-retryable exception propagates; all attempts failing raises the retry error with the last exception; one sleep of the computed delay and one callback per retry |
| RetryHandler.Execute | src/utils/retry_handler.py:141-191 | the same outcome and sleeps as the decorator, using the handler's own delay calculation |
| RetryHandler.DefaultHandlerExhausts | src/utils/retry_handler.py:215-219 | the default handler calls an always-failing function four times and sleeps at most 1, 2 and 4 seconds between calls |
| RateLimiter.Enforce | src/fraud_detection/rate_limiter.py:151-175 | a stale window restarts; a full window waits until its end and starts a new one; then the call waits out the minimum delay since the previous call, measured from the entry time |
| RateLimiter.FullWindowWaits | src/fraud_detection/rate_limiter.py:160-170 | a full, current window waits exactly until it ends, then counts from zero |
| RateLimiter.StaleWindowRestarts | src/fraud_detection/rate_limiter.py:155-158 | after 60 seconds the window restarts at the current time without waiting |
| RateLimiter.UpdateTracking | src/fraud_detection/rate_limiter.py:177-180 | records the finish time and counts one more call |
| RateLimiter.Decorated | src/fraud_detection/rate_limiter.py:42-88 | the decorator passes the outcome through and counts a call only when the function returned |
| RateLimiter.WithLimiter | src/fraud_detection/rate_limiter.py:141-149 | the context manager passes the outcome through and counts every call, an exception included |
| RateLimiter.GetStatus | src/fraud_detection/rate_limiter.py:182-192 | the remaining calls and the time to reset are never negative and complete the window's capacity and length; no calls remain iff the window's count has reached the limit |
| RateLimiter.DecoratedPreservesValid | src/fraud_detection/rate_limiter.py:42-88 | the call count never exceeds the per-minute limit |
| RateLimiter.RunWindowBound | src/fraud_detection/rate_limiter.py:42-88 | over any sequence of decorated calls no window admits more calls than the per-minute limit |
| RateLimiter.RunRespectsDelay | src/fraud_detection/rate_limiter.py:65-70 | every call proceeds at least the minimum delay after the previous recorded call |
| CrewManager.ExtractRecommendation | src/agents/crew_manager.py:299-311 | BLOCK iff the upper-cased text mentions BLOCK or REJECT; APPROVE iff it mentions APPROVE or ALLOW and none of those nor REVIEW; MANUAL_REVIEW otherwise |
| CrewManager.ExtractIgnoresCase | src/agents/crew_manager.py:301 | upper-casing the text first changes nothing |
| CrewManager.ExtractManualReview | src/agents/crew_manager.py:305-311 | MANUAL_REVIEW iff there is no BLOCK or REJECT and either REVIEW is mentioned or neither APPROVE nor ALLOW is |
| CrewManager.ManualReviewMentionsReview | src/agents/crew_manager.py:305 | a text mentioning MANUAL_REVIEW mentions REVIEW, so the first test of that branch adds nothing |
| CrewManager.DefaultPrompt | src/agents/crew_manager.py:82-106 | an agent other than the three known ones gets the generic prompt named after it |
| CrewManager.LoadPrompt | src/agents/crew_manager.py:31-80 | a missing or unreadable file gives the default prompt; otherwise each field is its parsed section, or empty when the section is absent |
| CrewManager.ParseBody | src/agents/crew_manager.py:56-66 | lines without a header are collected into the open section, or dropped before the first header |
| CrewManager.ParseRendered | src/agents/crew_manager.py:56-70 | parsing rendered sections saves each section under its key in order |
| CrewManager.RenderedSingleLines | src/agents/crew_manager.py:56 | a prompt rendered from sections without line breaks in their names or lines has no line break inside any line, so splitting its text on line breaks gives the lines back |
| CrewManager.ParseSectionsOfRendered | src/agents/crew_manager.py:52-70 | round trip: parsing the text of well-formed rendered sections yields exactly the sections saved in order |
| CrewManager.RepeatedHeaderLastWins | src/agents/crew_manager.py:57-64 | a section repeated under the same header keeps only its last body |
| CrewManager.ParsedKeysAreHeaders | src/agents/crew_manager.py:57-70 | every parsed key is an earlier key, the open section, or the lower-cased, stripped name of a header line |
| CrewManager.LoadThreeSections | src/agents/crew_manager.py:31-76 | a file with Role, Goal and Backstory sections loads exactly their stripped bodies |
| CrewManager.SaveThreeSections | src/agents/crew_manager.py:68-76 | saving the three standard sections stores each body under its lower-case key |
| CrewManager.VelocityParts | src/agents/crew_manager.py:202-204 | a velocity alert line appears iff a velocity check is given and it found fraud |
| CrewManager.RedisParts | src/agents/crew_manager.py:206-210 | a heading and one bullet per note, only when there are notes |
| CrewManager.CaseParts | src/agents/crew_manager.py:212-219 | a heading and one bullet for each of the first three cases, only when there are cases |
| CrewManager.BuildContext | src/agents/crew_manager.py:199-221 | the context is the velocity, Redis and case parts in that order |
| CrewManager.ContextShowsAtMostThreeCases | src/agents/crew_manager.py:213-219 | however many similar cases are passed, the context shows at most three |
| CrewManager.Investigate | src/agents/crew_manager.py:279-297 | the recommendation is always a verdict; a failed kickoff gives MANUAL_REVIEW with the error |
| AgnoCrewAdapter.ExtractRecommendation | src/agents_agno/agno_crew_adapter.py:124-136 | BLOCK iff the upper-cased text mentions BLOCK; APPROVE iff it mentions APPROVE or ALLOW and neither BLOCK nor REVIEW; MANUAL_REVIEW otherwise |
| AgnoCrewAdapter.ExtractIgnoresCase | src/agents_agno/agno_crew_adapter.py:126 | upper-casing the text first changes nothing |
| AgnoCrewAdapter.ExtractionsDifferOnlyOnReject | src/agents_agno/agno_crew_adapter.py:128-129 | the two back-ends disagree iff the text mentions REJECT but not BLOCK, and then the crew blocks |
| AgnoCrewAdapter.RejectWithoutBlockExample | src/agents_agno/agno_crew_adapter.py:128-136 | the text "reject" is blocked by the crew back-end and sent to review by the Agno one |
| AgnoCrewAdapter.StageParts | src/agents_agno/agno_crew_adapter.py:142-155 | a stage contributes its heading and response only when it is present |
| AgnoCrewAdapter.AnalysisParts | src/agents_agno/agno_crew_adapter.py:138-161 | the present stages in order, then the processing-time line |
| AgnoCrewAdapter.AnalysisEndsWithTime | src/agents_agno/agno_crew_adapter.py:157-161 | the analysis always ends with the processing-time line |
| AgnoCrewAdapter.EmptyResultAnalysis | src/agents_agno/agno_crew_adapter.py:138-161 | with no stages the analysis is the processing-time line alone |
| AgnoCrewAdapter.Investigate | src/agents_agno/agno_crew_adapter.py:73-122 | an exception or an unsuccessful result gives MANUAL_REVIEW with its error; a success takes the recommendation from the decision stage |
| AgnoCrewAdapter.OnlyDecisionsCommit | src/agents_agno/agno_crew_adapter.py:91-114 | a recommendation other than MANUAL_REVIEW only comes from a successful run with a decision stage |
| RiskBands.BandOf | src/agents_agno/tools/transaction_analysis_tool.py:100-102 | HIGH from 0.7, MEDIUM from 0.4, LOW below |
| RiskBands.BandMonotone | src/agents_agno/tools/user_reputation_tool.py:98-103 | a higher score never falls into a lower band |
| RiskBands.NamesDetermineBand | src/agents_agno/tools/user_reputation_tool.py:100-102 | both the level name and the action name identify the band |
| TransactionAnalysisTool.Factors | src/agents_agno/tools/transaction_analysis_tool.py:35-92 | each factor is present iff its rule fires: small under $10, large over $500, new account under 7 days, first order, credit card |
| TransactionAnalysisTool.ScoreIsSumOfFactors | src/agents_agno/tools/transaction_analysis_tool.py:42-92 | the accumulated score is the sum of the weights of the recorded factors, and at most four factors fire |
| TransactionAnalysisTool.SumWeightsAppend | src/agents_agno/tools/transaction_analysis_tool.py:42-92 | the weight of a concatenation of factor lists is the sum of their weights |
| TransactionAnalysisTool.RawScoreBounds | src/agents_agno/tools/transaction_analysis_tool.py:45-92 | the small and large rules exclude each other, so the score stays within [0, 0.7] |
| TransactionAnalysisTool.ConfidenceOf | src/agents_agno/tools/transaction_analysis_tool.py:103 | HIGH with three or more factors, MEDIUM with exactly two |
| TransactionAnalysisTool.Analyze | src/agents_agno/tools/transaction_analysis_tool.py:94-105 | the reported factors, a score equal to their weight sum, its band and the confidence from their number |
| TransactionAnalysisTool.BlockOnlyForEveryRedFlag | src/agents_agno/tools/transaction_analysis_tool.py:45-102 | BLOCK iff the amount is under $10, the account is under a day old, it is the first order and it is paid by credit card |
| TransactionAnalysisTool.QuietTransactionAllowed | src/agents_agno/tools/transaction_analysis_tool.py:45-102 | a mid-range amount from an established repeat customer not paying by credit card has no factors and is allowed |
| UserReputationTool.Findings | src/agents_agno/tools/user_reputation_tool.py:48-89 | user flag and velocity are found only for a given user, the IP flag only for a given IP, each iff Redis reports it; at most three findings |
| UserReputationTool.RiskScore | src/agents_agno/tools/user_reputation_tool.py:91-99 | 0.5 for any flag, counted once, plus 0.3 for velocity: one of 0, 0.3, 0.5 or 0.8 |
| UserReputationTool.Assess | src/agents_agno/tools/user_reputation_tool.py:98-103 | the score, its band and the number of findings |
| UserReputationTool.CheckReputation | src/agents_agno/tools/user_reputation_tool.py:48-103 | the findings for the query and their assessment |
| UserReputationTool.BandOfReputation | src/agents_agno/tools/user_reputation_tool.py:91-103 | BLOCK iff something is flagged and the user is busy; review iff flagged but not busy; allowed iff nothing is flagged |
| UserReputationTool.EmptyQueryIsClean | src/agents_agno/tools/user_reputation_tool.py:48-103 | with neither a user nor an IP there are no findings and the result is LOW |
| FraudDecisionTool.Or | src/agents_agno/tools/fraud_decision_tool.py:73-77 | a given, non-empty value wins, else the fallback |
| FraudDecisionTool.FinalConfidence | src/agents_agno/tools/fraud_decision_tool.py:53-56 | `confidence` when given, even zero; else `confidence_score`; else 0.5 |
| FraudDecisionTool.FactorList | src/agents_agno/tools/fraud_decision_tool.py:82-93 | a list gives its items, a dict its values, a scalar itself; text that is not JSON is kept whole; only a list or dict can give nothing |
| FraudDecisionTool.RiskFactorList | src/agents_agno/tools/fraud_decision_tool.py:79-106 | risk factors when they give something; otherwise fraud indicators when given; risk factors alone are used even when empty; absent iff neither argument is given |
| FraudDecisionTool.Normalize | src/agents_agno/tools/fraud_decision_tool.py:53-106 | an invalid decision is rejected first, then a confidence outside [0, 1]; an accepted call carries the defaults for findings, type and agent and the risk factor list |
| FraudDecisionTool.NormalizeIdempotent | src/agents_agno/tools/fraud_decision_tool.py:53-106 | normalising the explicit arguments of a normalised record gives it back |
| FraudDecisionTool.DecisionCheckedFirst | src/agents_agno/tools/fraud_decision_tool.py:58-70 | an invalid decision is reported whatever the confidence |
| HealthServer.FloorMod | src/api/health_server.py:349-351 | Python's float remainder: in [0, d) and completing the floor quotient back to the input |
| HealthServer.Units | src/api/health_server.py:348-351 | hours below 24, minutes below 60, seconds below 60 |
| HealthServer.UnitsDecompose | src/api/health_server.py:348-351 | the units are the days, hours, minutes and seconds of the whole seconds elapsed, and add back up to them |
| HealthServer.FloorDivOfFloor | src/api/health_server.py:348-351 | float floor division and remainder agree with integer ones on the floored input |
| HealthServer.PartsOf | src/api/health_server.py:353-360 | the seconds part is always last; earlier parts are positive days, hours, minutes, largest unit first |
| HealthServer.PartsOfTotal | src/api/health_server.py:353-360 | leaving out zero units loses no time |
| HealthServer.PartsAddUp | src/api/health_server.py:346-362 | for a non-negative uptime the parts add up to the whole seconds elapsed |
| HealthServer.PartsTotalAppend | src/api/health_server.py:353-360 | the time of concatenated parts is the sum of their times |
| HealthServer.FormatUptime | src/api/health_server.py:362 | the text always ends with the seconds part |
| HealthServer.DayAndASecond | src/api/health_server.py:346-362 | 86401.5 seconds is `1d 1s` |
| MetricsAggregator.NewAggregator | src/observability/langfuse_monitor.py:270-281 | the nine metrics, all zero |
| MetricsAggregator.Increment | src/observability/langfuse_monitor.py:283-286 | a known metric grows by the value and nothing else changes; an unknown name changes nothing |
| MetricsAggregator.AddTime | src/observability/langfuse_monitor.py:288-291 | the same for a duration |
| MetricsAggregator.Reset | src/observability/langfuse_monitor.py:307-313 | every metric zero, no key added or removed |
| MetricsAggregator.ResetIsFresh | src/observability/langfuse_monitor.py:307-313 | resetting gives a fresh aggregator |
| MetricsAggregator.GetMetrics | src/observability/langfuse_monitor.py:293-305 | a copy with the fraud rate and average time iff a transaction was counted, and the average AI time iff an investigation was also counted; each rate times its denominator gives its numerator |
| MetricsAggregator.ApplyAllTotals | src/observability/langfuse_monitor.py:283-291 | after any events the keys are unchanged and each metric is its start plus everything recorded under its name |
| MetricsAggregator.UnknownEventsIgnored | src/observability/langfuse_monitor.py:285-291 | events under unknown names change nothing |

## Left out

- Clocks, sleeping and threads. A clock reading is a parameter, a sleep is the time at which the call proceeds, and the locks of the breaker, registry and limiter are not modelled, since every modelled operation is one atomic step.
- The LLM agents. Crew kickoff, the Agno manager and their prompts and task texts are opaque inputs. Only what the core code does with their answers is modelled.
- The ML model itself. Isolation-forest training, `score_samples` and the sigmoid are not modelled; the model's probability is an input to `MlDetector.Predict`. `extract_features` is modelled only as its payment-method encoding.
- I/O and storage. Reading the prompt file, the Redis, Qdrant, PostgreSQL and Langfuse clients, JSON parsing and rendering, and logging are out. The tools' results are modelled before they are rendered to JSON.
- Text formatting of floats. `:.2f`, `:.0%` and the like are out. The Agno processing time enters as its already formatted text, and the case bullets of the crew context carry the case as data.
- `_build_fraud_description` and the orchestrator's `get_stats`. They only assemble text and copy the counters with the collaborators' own statistics.
- The velocity-check tool of the Agno agents. It calls the same detector, whose model is `VelocityDetector`.
- Exception classes. Which exceptions a breaker or a retry loop counts is modelled as a flag on the raised outcome.
- The int/float distinction in the metrics aggregator. All metrics are reals.
- The explicit `avg_order_value=None` case. Rule 4 of the ML rules compares `None > 0`, which raises in Python; the model reads an absent average as 0, so the rule does not fire. A missing key is not this case: validation fills in the default 0.0.
- CrewManager.DefaultPrompt: states only the fallback prompt, not the three built-in prompts' exact texts, because unfolding those long literals in a contract is too costly to verify.
- MetricsAggregator.GetMetrics: requires the nine metric keys to be present, an invariant every aggregator keeps (`ApplyAllTotals`, `ResetIsFresh`), since the source indexes them without checking.
- HealthServer.PartsAddUp: stated for non-negative uptimes only; for a negative uptime the days part is negative and is left out of the text.
- TransactionModels.ValidateIdentifier: trims and strips only ASCII white space. Pydantic's trim and Python's `strip` also remove the non-ASCII White_Space characters (U+0085, U+00A0, U+1680, U+2000-U+200A, U+2028, U+2029, U+202F, U+205F, U+3000), so an id wrapped in those is accepted by the source and rejected or kept unstripped by the model. Its keyword check upper-cases ASCII letters only, while Python's `upper` also maps non-ASCII letters onto ASCII ones ('ſ' to 'S', 'ı' to 'I'), so "ſelect" and "ınsert" are rejected by the source and accepted by the model. The full Unicode table made every string proof too costly to verify.
- TransactionModels.NormalizePaymentMethod: trims, lower-cases and strips on ASCII only, so a known method wrapped in non-ASCII white space or written with non-ASCII case variants is rejected here but accepted by the source, for the same reason.
- TransactionModels.ValidateIp: trims and strips only ASCII white space, so the 45-character bound and the kept text differ from the source for an address padded with non-ASCII white space, for the same reason.
- TransactionModels.NormalizeIp: `\d` is read as the ASCII digits 0-9. Python's `\d` also matches other Unicode decimal digits, and `int()` reads them, so a quad written in, say, Arabic-Indic digits is kept by the source and dropped by the model.
- CircuitBreaker.GetCircuitBreaker: returns a copy of the registered breaker, not a shared object. A call made on that copy is not seen by the registry. A call the registry must see is modelled by `CallRegistered`, which stores the updated breaker back.
- CircuitBreaker.GetAllStats: reads the breakers the registry holds, so it sees a call only when the call went through `CallRegistered`.
- CircuitBreaker.ResetAll: resets the breakers the registry holds. A copy handed out earlier by `GetCircuitBreaker` is not reset, whereas in the source every holder sees the reset.
- FraudOrchestrator.Effects: uses the corrected IP flag, so a missing IP is not flagged as the source does. The as-written flag is `FraudOrchestrator.IpFlagAsWritten` under Findings.
- TransactionAnalysisTool.Analyze: bands exact sums. The source adds binary floats, so 0.2 + 0.15 + 0.05 accumulates to just under 0.4 and those combinations are LOW in the source where the model says MEDIUM.

## Findings

| source | as written | input that shows it | evidently intended | confidence | as-written member | corrected member |
|---|---|---|---|---|---|---|
| src/fraud_detection/fraud_orchestrator.py:353-359 | the IP is read back with `get('ip_address', 'unknown')` from the dumped transaction, where the key is always present, so a missing IP is `None` and passes the `!= 'unknown'` test | a transaction without an IP address and a final score of 0.95: `flag_ip(None, …)` is called | flag an IP only when the transaction has one | not executed | FraudOrchestrator.IpFlagAsWritten | FraudOrchestrator.IpFlag |
