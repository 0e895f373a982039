# Lyte: verified models of forecasting risk, replay protection, evidence chains and bounded ingest

Lyte turns governed telemetry into forecasts, evidence and receipts. This project models
the parts of it whose correctness spans several functions or a whole run, and proves what they promise.

| module | what it models |
|---|---|
| `Decimals`, `Stats` | the quantile keys printed from decimal levels; sorting, medians and means |
| `ForecastLoom`, `ForecastMeaning` | imputation, the robust-drift provider and `run_forecast`; what a forecast, its receipt and the provider's figures say |
| `ForecastRisk` | `derive_risk_window`: validation, per-step probability brackets, alert steps, horizon bounds |
| `RiskBounds`, `RiskCoupling` | finite joint distributions over trajectories: the brackets are sound, and exact |
| `ForecastEvaluation`, `ForecastInvariance` | walk-forward scoring, and what a change of measurement unit leaves unchanged |
| `ReplayGuard`, `ReplayClock`, `GovernedWebhook` | the bounded replay cache, the clocks it can follow, and the verifier of signed events that drives it |
| `Json`, `JsonText`, `JsonEquality`, `HashChains`, `ChainContents`, `HashedRows`, `LivingAnatomy` | JSON data over finite decimals, an injective text for it, Python's `==` on it, the multi-scope hash-chain verifier, what its heads pin down and which columns of each stream it hashes, and the nine-stage digest chain |
| `Restore` | table summaries, batched copying and the transactional import with its three effects |
| `CanonicalJson`, `BuildReceipt`, `ReceiptSpelling` | the canonical JSON printer and parser, the build receipt verifier, and the text of a receipt |
| `ActionsPagination` | the paged fetch of workflow runs |
| `Sanitizer`, `OtlpRecords`, `OtlpRecordLaws`, `OtlpIngest`, `OtlpLeaves`, `OtlpMeaning`, `OtlpAcceptance` | credential stripping, the all-or-nothing OTLP ingest, what each field of an accepted record says, and which requests are accepted |

Floats in forecasting are exact reals; JSON numbers are finite decimals, which every binary float is. SHA-256, HMAC, `log`, `sqrt`, date parsing and the sensitive-key test are
function parameters; a lemma that needs one to be injective, monotone or positive says so in its
`requires`, and `JsonText.InjectiveDigest`, `Restore.LawfulReader` and `ForecastLoom.LawfulMath` exhibit functions that
meet these hypotheses. The source's exceptions are `Err`, `None` or rejection values, in the source's order of checks
wherever the order can be observed. Loops and mutated objects of the source are methods and classes
proved against specification functions, and the results below are lemmas about those functions.

Facts about the code that its documentation does not state, each with its exact condition:

* A governed event can be rejected after its nonce and key have been recorded: exactly when its `subject_type`
  is no receipt name (upper case, say), or its `occurred_at` leaves the years 1 to 9999 when converted to UTC
  (`GovernedWebhook.RejectedYetClaimed`). Until the claim expires, a corrected body under the same key is then
  refused (`GovernedWebhook.CorrectionRefused`).
* A signed message verifies at most once exactly when the retention exceeds twice the permitted skew
  (`GovernedWebhook.AtMostOnceIffLongRetention`). The constructor does not demand it; the defaults 900 and 300 meet it.
* The replay cache agrees with the log of accepted claims on all runs with given claim times exactly when no three
  of the times disturb it (`ReplayClock.AgreementExactly`). A clock that never goes back never does. A clock that
  does can forget a nonce (`ReplayClock.ForgottenNonce`) or shorten a key's binding (`ReplayClock.ShortenedKey`).
* The chain verifier compares the stored basis with the rebuilt row by Python's `==`, in which `True`, `1` and `1.0`
  are equal, and hashes the basis. So a head hash pins the rows behind it exactly when no JSON column there, the
  payload of a receipt excepted, holds a boolean or an integral number (`ChainContents.HeadPinsExactly`).
* A fetch of workflow runs raises, instead of reporting UNAVAILABLE, exactly when it reaches a run whose instant
  overflows in UTC (`ActionsPagination.FetchWorkflowRuns`).
* The traces of an anatomy can be built exactly when its caller passed a well-formed input digest, which
  `build_analysis_anatomy` does not check (`LivingAnatomy.TraceableExactly`).
* The idempotency-capacity error can never be raised (`ReplayGuard.KeysNeverFullOnRuns`).

A consistent distribution is one with P(X < v) <= q <= P(X <= v) at each forecast value v of level q,
so atoms on a forecast value or on the threshold are included.

## Model

| member | source | states |
|---|---|---|
| Decimals.PercentReads | lyte/intelligence/forecast_loom.py:102-113 | the digits of a quantile key, read back, are exactly 100 times the level: stripping zeros and filling to two digits lose nothing |
| Decimals.KeyIdentifiesQuantile | lyte/intelligence/forecast_loom.py:102-113 | two decimal levels print the same key if and only if they are equal numbers, however many digits either has |
| Decimals.NamedAreFaithful | lyte/intelligence/forecast_loom.py:102-113 | in any list of quantiles that carry their printed keys, keys and levels determine each other |
| Decimals.TenthKey | lyte/intelligence/forecast_loom.py:102-113 | level n/10 prints as q, n, 0; in particular 0.5 prints as the median key q50 |
| Decimals.KeyIsSpelled | lyte/intelligence/forecast_loom.py:102-113 | a key is the letter q, the percentage in at least two digits without further leading zeros, and, after a point, its decimals without trailing zeros |
| Stats.SortOrders | lyte/intelligence/forecast_loom.py:141-141 | the order statistics under the median are a sorted permutation of the data |
| Stats.MedianRescales | lyte/intelligence/forecast_loom.py:168-179 | the median commutes with every map x -> c*x + d with c > 0, for odd and even counts |
| Stats.MedianMeans | lyte/intelligence/forecast_loom.py:141-141 | the median is the middle value of the ordered data, or halfway between the two middle values |
| ForecastLoom.QuantilesAccepted | lyte/intelligence/forecast_loom.py:116-126 | quantiles are accepted exactly when there are 1 to 99, strictly increasing in (0, 1), and one is the median; accepted ones are returned unchanged |
| ForecastLoom.Impute | lyte/intelligence/forecast_loom.py:129-153 | imputation fails exactly when the bounded window holds no observation; otherwise the result is as long as the window, keeps every observation in place, fills each gap from the last observation before it or else with the median, and counts the gaps |
| ForecastLoom.FillGaps | lyte/intelligence/forecast_loom.py:141-153 | the loop that carries `last` computes the gap-free window and counts the gaps |
| ForecastLoom.GapsCarryForward | lyte/intelligence/forecast_loom.py:141-153 | a gap takes the nearest earlier observation, and the median of the window when there is none |
| ForecastLoom.DriftStep | lyte/intelligence/forecast_loom.py:182-201 | the loop over quantiles of one step produces the specified row |
| ForecastLoom.ForecastDrift | lyte/intelligence/forecast_loom.py:182-201 | the loop over steps produces the specified rows for the whole horizon |
| ForecastLoom.Run | lyte/intelligence/forecast_loom.py:211-280 | the loop form of `run_forecast`, for any provider, agrees with its specification including which requests and which provider outputs it refuses |
| ForecastLoom.CheckRowLoop | lyte/intelligence/forecast_loom.py:234-248 | a provider row is refused exactly when a quantile is missing or values cross, else normalized by key |
| ForecastLoom.NormalizedKeepsRow | lyte/intelligence/forecast_loom.py:238-245 | normalizing by printed key keeps the value of every level: no key overwrites another |
| ForecastLoom.LawfulMath | lyte/intelligence/forecast_loom.py:182-201 | functions with the laws assumed of log and sqrt exist |
| ForecastLoom.DriftServesEveryValidRequest | lyte/intelligence/forecast_loom.py:182-248 | with the built-in provider, `run_forecast` succeeds exactly on the valid requests: its rows never cross and miss no quantile at any step |
| ForecastLoom.RunYieldsOkForecast | lyte/intelligence/forecast_loom.py:211-280 | every forecast `run_forecast` returns, from any provider, passes the validation of the risk window |
| ForecastMeaning.RunSucceedsExactly | lyte/intelligence/forecast_loom.py:211-248 | a run succeeds exactly when horizon and quantiles are well-posed, some value in the window is observed, and the provider answers every step with all levels and no crossing |
| ForecastMeaning.RunMeans | lyte/intelligence/forecast_loom.py:211-280 | each figure of the receipt (lengths, imputed gaps, truncation, digest) and each value of each point is stated from the request and the provider answer |
| ForecastMeaning.DriftMeans | lyte/intelligence/forecast_loom.py:156-201 | the built-in rows are the last value plus the slope times the step plus the level's log-odds times a spread growing with the root of the step; the slope is the median of later minus earlier neighbours, the scale 1.4826 times the median deviation of the differences, with the stated floors |
| ForecastRisk.DeriveRiskWindow | lyte/intelligence/forecast_risk.py:56-150 | a report is produced exactly when rule and forecast are valid; then row t brackets the threshold at step t, the earliest possible alert is the first row whose upper end reaches the alert level, the earliest supported one the first whose lower end does, the first median crossing the first median strictly past the threshold, and the horizon bounds are the largest lower end and the capped sum of upper ends |
| ForecastRisk.ReportHasMeaning | lyte/intelligence/forecast_risk.py:92-150 | the report says all this of the forecast values, in terms of levels, values and the threshold alone |
| ForecastRisk.DeriveRows | lyte/intelligence/forecast_risk.py:84-110 | the per-point loop accepts exactly the well-formed points and yields their bracket rows in order |
| ForecastRisk.GovernedForecastsDerive | lyte/intelligence/forecast_risk.py:66-91 | a governed forecast with a valid rule always yields a report with at least one row |
| ForecastRisk.BracketLevels | lyte/intelligence/forecast_risk.py:92-104 | the max/min comprehensions pick the two adjacent quantile levels around the threshold, and the bracket is a nonempty subinterval of [0, 1] |
| ForecastRisk.FirstIsLeast | lyte/intelligence/forecast_risk.py:112-113 | the reported alert step is the earliest step that fires, and none is reported exactly when no step fires |
| ForecastRisk.PossibleNoLaterThanSupported | lyte/intelligence/forecast_risk.py:112-129 | the earliest possible alert never comes after the earliest supported one |
| ForecastRisk.SupportedAtHalfIsMedianCrossing | lyte/intelligence/forecast_risk.py:112-129 | at alert level 0.5 the earliest supported alert is the first median crossing, in both directions of the rule |
| ForecastRisk.RaisingTheLevelDelays | lyte/intelligence/forecast_risk.py:112-129 | raising the alert level never makes either alert earlier |
| RiskBounds.BracketIsSound | lyte/intelligence/forecast_risk.py:92-110 | every distribution consistent with a step's quantiles breaches with a probability inside the bracket |
| RiskBounds.BracketIsAttained | lyte/intelligence/forecast_risk.py:92-110 | each end of each bracket is the breach probability of some consistent distribution, in both directions |
| RiskBounds.HorizonIsSound | lyte/intelligence/forecast_risk.py:59-64 | every joint distribution, with any dependence, breaches within the horizon with probability between the largest lower end and the capped sum of upper ends |
| RiskBounds.LowerEndIsAttained | lyte/intelligence/forecast_risk.py:130-134 | some joint distribution consistent with every step breaches with exactly the largest lower end |
| RiskCoupling.CoupleSpreadsBreaches | lyte/intelligence/forecast_risk.py:59-64 | coupling the breaching part of one step with the safe part of the others makes breaches disjoint until they fill the whole mass |
| RiskCoupling.UpperEndIsAttained | lyte/intelligence/forecast_risk.py:130-134 | some joint distribution consistent with every step breaches with exactly min(1, sum of upper ends) |
| RiskCoupling.StepBracketsSound | lyte/intelligence/forecast_risk.py:84-110 | the rows of the report bound the breach probability of every step under every agreeing joint distribution |
| RiskCoupling.HorizonBracketSound | lyte/intelligence/forecast_risk.py:59-134 | the reported horizon bracket holds for every joint distribution that agrees with the forecast |
| RiskCoupling.HorizonBracketExact | lyte/intelligence/forecast_risk.py:59-134 | both ends of the reported horizon bracket are reached, so no narrower bracket is correct |
| ForecastEvaluation.EvaluateWalkForward | lyte/intelligence/forecast_evaluation.py:72-230 | an evaluation succeeds exactly when the configuration is valid, names are unique and every fold can be served; the candidate qualifies exactly when on every series all four mean errors exist and its own is strictly below drift, last value and seasonal naive |
| ForecastEvaluation.RunSeries | lyte/intelligence/forecast_evaluation.py:110-193 | the record of a series: each fold scored on its own slices, each mean the sum of its fold scores over the number of folds, and the verdict of comparing all four |
| ForecastEvaluation.RunFold | lyte/intelligence/forecast_evaluation.py:122-177 | a fold fails exactly when its holdout has a gap or the candidate refuses the request; otherwise its slices have the stated sizes and end at the origin, no score is negative, all scores exist exactly when the training slice varies over a season, and the seasonal one only if moreover its last season is complete |
| ForecastEvaluation.FoldHasMeaning | lyte/intelligence/forecast_evaluation.py:122-177 | the scores of a fold are mean absolute errors of candidate, drift, last value and seasonal naive against the holdout, over the training scale |
| ForecastEvaluation.RecordHasMeaning | lyte/intelligence/forecast_evaluation.py:178-193 | a series is scorable exactly when all four means exist and improves exactly when the candidate beats all three |
| ForecastEvaluation.EvaluatesExactly | lyte/intelligence/forecast_evaluation.py:72-130 | an evaluation succeeds if and only if configuration, names, lengths and holdouts are in order and the candidate serves every fold |
| ForecastEvaluation.ScaleVaries | lyte/intelligence/forecast_evaluation.py:51-60 | the training scale exists, and is positive, exactly when two observations one season apart differ |
| ForecastEvaluation.QuantilesAreNamed | lyte/intelligence/forecast_evaluation.py:109-109 | the three evaluation quantiles carry the keys the printer gives 0.1, 0.5 and 0.9 |
| ForecastEvaluation.SlicesFit | lyte/intelligence/forecast_evaluation.py:123-125 | each training slice ends at its origin, has between min_context and context_limit values and is never cut again by imputation; each holdout has horizon values |
| ForecastEvaluation.HoldoutsCoverTheEnd | lyte/intelligence/forecast_evaluation.py:122-125 | the holdouts, joined, are exactly the last folds*horizon values: disjoint, in order, without gaps |
| ForecastEvaluation.NoLookAhead | lyte/intelligence/forecast_evaluation.py:122-130 | two series that agree before a fold's origin give the provider the same request |
| ForecastEvaluation.DriftLikeNeverImproves | lyte/intelligence/forecast_evaluation.py:178-193 | a candidate with the drift baseline's medians on a series never counts as improving it |
| ForecastEvaluation.DriftLikeNeverQualifies | lyte/intelligence/forecast_evaluation.py:195-216 | one such series is enough for the candidate not to qualify |
| ForecastEvaluation.DriftNeverQualifies | lyte/intelligence/forecast_evaluation.py:195-216 | the built-in provider itself never qualifies |
| ForecastInvariance.MapImputed | lyte/intelligence/forecast_loom.py:129-153 | imputation commutes with every map x -> c*x + d, c > 0, and fails on the same inputs |
| ForecastInvariance.DriftMedians | lyte/intelligence/forecast_loom.py:182-201 | the medians `run_forecast` returns for the drift provider are last + slope * step, despite the spread terms |
| ForecastInvariance.DriftRescales | lyte/intelligence/forecast_loom.py:167-199 | mapping the context maps every drift median by the same map |
| ForecastInvariance.TrainingScaleScales | lyte/intelligence/forecast_evaluation.py:51-60 | the training scale is multiplied by c and exists for the mapped series exactly when it did before |
| ForecastInvariance.MaseUnchanged | lyte/intelligence/forecast_evaluation.py:63-69 | the scaled error of a mapped prediction against mapped truth is unchanged |
| ForecastInvariance.FoldStaysEvaluable | lyte/intelligence/forecast_evaluation.py:122-177 | mapping the observations can only make a fold fail through the candidate provider |
| ForecastInvariance.FoldUnchanged | lyte/intelligence/forecast_evaluation.py:132-177 | in each fold the errors of drift, last-value and seasonal baselines are unchanged, and the candidate's too if it rescales |
| ForecastInvariance.SeriesStaysEvaluable | lyte/intelligence/forecast_evaluation.py:110-193 | a remeasured series is evaluable exactly when the candidate serves each of its fold requests |
| ForecastInvariance.SeriesUnchanged | lyte/intelligence/forecast_evaluation.py:132-193 | the mean errors of all baselines and the scorability are unchanged for every candidate; with a rescaling candidate so are its error and the verdict |
| ForecastInvariance.UnitsAreIrrelevant | lyte/intelligence/forecast_evaluation.py:132-193 | in particular baseline errors and scorability are the same for observations x and c*x + d, c > 0 |
| ReplayGuard.ReplayProtector.Claim | lyte/connectors/generic_webhook.py:88-122 | prunes both caches, then answers and updates them exactly as specified; never answers that the idempotency cache is full |
| ReplayGuard.RefusedExactly | lyte/connectors/generic_webhook.py:88-116 | when each refusal is given, told from the request and the live entries: the first fault in the source's order is the one reported |
| ReplayGuard.KeysNeverFull | lyte/connectors/generic_webhook.py:104-121 | live idempotency keys keep injecting into live nonces of equal expiry, so the second capacity check cannot fail first |
| ReplayGuard.KeysNeverFullOnRuns | lyte/connectors/generic_webhook.py:104-121 | no run, with any clock, ever reaches the idempotency-capacity error |
| ReplayGuard.ClaimRefinesLog | lyte/connectors/generic_webhook.py:100-122 | one claim on the pruned caches has the verdict computed from the log of accepted claims, and the caches still hold every entry that a claim to come will find live |
| ReplayGuard.SteadyRunsAgree | lyte/connectors/generic_webhook.py:100-122 | on every run whose claim times do not disturb the guard, every outcome is the log's, capacity counting exactly its live entries |
| ReplayGuard.GuardRefinesLog | lyte/connectors/generic_webhook.py:100-122 | in particular on every run with a non-decreasing clock |
| ReplayGuard.ShortRunsAgree | lyte/connectors/generic_webhook.py:100-122 | and on every run whose times all lie within one retention of each other, whatever their order |
| ReplayClock.ForgottenNonce | lyte/connectors/generic_webhook.py:100-105 | if one claim expires what an earlier one recorded and a third goes back, the guard accepts there a nonce the log refuses as replayed |
| ReplayClock.ShortenedKey | lyte/connectors/generic_webhook.py:110-121 | if a key is bound again at an earlier time, by however little, and that binding expires first, the guard accepts another payload where the log holds a conflict |
| ReplayClock.AgreementExactly | lyte/connectors/generic_webhook.py:100-122 | guard and log agree on all runs with given claim times if and only if no three of the times do either |
| GovernedWebhook.GovernedEventVerifier.Verify | lyte/connectors/generic_webhook.py:228-310 | the sequential checks and the claim on the shared protector give the specified verdict and state; verified exactly when timely, authentic, claimable and of a known event that a receipt can hold; an unauthentic message changes nothing |
| GovernedWebhook.VerifiedExactly | lyte/connectors/generic_webhook.py:228-302 | a message is verified if and only if its timestamp prints a time within the skew, nonce and key are well-formed, the signature is the HMAC (or unsigned messages are allowed and no secret is set), its event is known, the guard can take it, its instant has a UTC form and its subject type is a receipt name; a replay is reported exactly for a live key |
| GovernedWebhook.UnauthenticChangesNothing | lyte/connectors/generic_webhook.py:250-262 | a message whose signature is missing or wrong is rejected and leaves the guard as it was |
| GovernedWebhook.IdentifiersAreSafe | lyte/connectors/generic_webhook.py:239-262 | safe text is a letter or digit followed by letters, digits and . _ : -, within its length bounds |
| GovernedWebhook.RejectedYetClaimed | lyte/connectors/generic_webhook.py:278-302 | for a message that passes every other check, some state and time reject it after recording it if and only if its subject type is no receipt name or its instant has no UTC form |
| GovernedWebhook.OtherRejectionsRecordNothing | lyte/connectors/generic_webhook.py:228-302 | every other rejection records neither nonce nor key |
| GovernedWebhook.FirstCall | lyte/connectors/generic_webhook.py:239-302 | what an empty guard answers any such message in its window, and what it holds afterwards |
| GovernedWebhook.CorrectionRefused | lyte/connectors/generic_webhook.py:104-121 | after such a rejection every later call with the same nonce, or the same key and another body, is rejected until the claim expires, whatever comes between |
| GovernedWebhook.RejectedFirstCalls | lyte/domain/receipts.py:80-85 | an upper-case subject type, and instants just before year 1 or after year 9999 in UTC, are such inputs on a first call |
| GovernedWebhook.PresentableMessage | lyte/connectors/generic_webhook.py:228-277 | for every event with safe identifiers some message passes every other check under the default limits |
| GovernedWebhook.NeverTwice | lyte/connectors/generic_webhook.py:239-283 | with retention above twice the skew, no two calls of a forward-clock run verify the same timestamp and nonce, from any state |
| GovernedWebhook.TwiceAtTheEdges | lyte/connectors/generic_webhook.py:239-283 | otherwise every acceptable message verifies twice, at the two edges of its window |
| GovernedWebhook.AtMostOnceIffLongRetention | lyte/connectors/generic_webhook.py:77-86 | at-most-once verification holds if and only if retention exceeds twice the skew |
| HashChains.VerifyStream | lyte/persistence/preservation.py:199-222 | the one-pass loop over interleaved scopes accepts exactly when every scope's rows form a chain ending at its head |
| HashChains.Chains | lyte/persistence/preservation.py:186-223 | `_chains` accepts exactly the databases whose heads are scopes x streams and whose streams are all chains, bases compared by `==`, and returns the number of heads |
| HashChains.ChainIsNumbered | lyte/persistence/preservation.py:199-222 | the rows of an accepted chain are numbered 1 to n and its tip is n |
| HashChains.InterleavingIsIrrelevant | lyte/persistence/preservation.py:199-222 | the verdict is the same for every interleaving that keeps each scope's order |
| HashChains.TipDeterminesChain | lyte/persistence/preservation.py:134-217 | with an injective digest, equal last hashes force equal length, bases and hashes throughout, and projections equal under `==` |
| HashChains.HeadDeterminesContents | lyte/persistence/preservation.py:134-223 | two accepted databases with the same head hash of a scope and stream hold the same bases at every sequence number, and projections equal under `==` |
| JsonText.InjectiveDigest | lyte/domain/canonical.py:11-26 | JSON values have a one-line text that no two share, so an injective digest exists |
| JsonEquality.PyEqNormalizes | lyte/persistence/preservation.py:214-214 | `==` on JSON is equality after reading booleans and numbers as numbers, hence an equivalence |
| JsonEquality.RigidExactly | lyte/persistence/preservation.py:214-214 | a value is equal to no other if and only if it holds no boolean and no integral number at any depth |
| ChainContents.PayloadIsBound | lyte/persistence/preservation.py:168-169 | a receipt's payload is identical in equal projections, whatever it holds, because its digest column binds it |
| ChainContents.HeadPinsExactly | lyte/persistence/preservation.py:134-223 | a head hash determines the contents behind it if and only if no unbound JSON column there holds a boolean or an integral number |
| ChainContents.BooleansPassForNumbers | lyte/persistence/preservation.py:209-217 | any unbound JSON column can read true in one accepted database and 1 in another with the same heads |
| HashedRows.ProjectionIsWritten | lyte/persistence/preservation.py:134-183 | the object hashed for a row, written out for each stream: its schema, its stream name and every column under its own name |
| HashedRows.SealedExactly | lyte/persistence/preservation.py:209-217 | a record passes exactly when its basis equals that object, its hash is the digest of the basis, its instants have a UTC form and, for receipts, the payload has the stored digest |
| HashedRows.FirstRecordAccepted | lyte/persistence/preservation.py:186-223 | in every stream, a first record whose basis is that object is accepted |
| HashedRows.HeadPinsColumns | lyte/persistence/preservation.py:134-223 | two accepted databases with one head hash agree, row by row, on every listed text, version and instant, and on every listed JSON column up to `==` |
| LivingAnatomy.BuildAnalysisAnatomy | lyte/intelligence/living_anatomy.py:185-242 | the loop that threads the stage input builds the specified nine stages or the specified error |
| LivingAnatomy.AnatomyExactly | lyte/intelligence/living_anatomy.py:185-242 | an anatomy is built exactly from nine results in the states their stages allow; stage k carries the digest of the stage before, and its basis and output digests are those of the listed objects |
| LivingAnatomy.DigestDeterminesPrefix | lyte/intelligence/living_anatomy.py:201-242 | with an injective digest, equal digests after n stages force equal inputs and results of all n stages |
| LivingAnatomy.LastDigestBindsEverything | lyte/intelligence/living_anatomy.py:201-242 | two anatomies have equal last digests if and only if input digest, truth label, revision and all nine (state, result) pairs agree |
| LivingAnatomy.ToTraces | lyte/intelligence/living_anatomy.py:150-182 | traces are refused exactly when some stage has an ill-formed operation or digest; otherwise each says what its stage says, attribute by attribute, requires human approval, claims no authority, and names the previous span as parent, the first none |
| LivingAnatomy.TraceableExactly | lyte/domain/anatomy.py:71-76 | with digests of the right form, an anatomy can be traced if and only if the input digest it was given has that form |
| LivingAnatomy.StoredTraceRoundTrip | lyte/intelligence/living_anatomy.py:127-265 | a stage stored as a trace and projected back is the stage's public form plus its span links |
| Restore.DigestRows | lyte/persistence/preservation.py:234-243 | the accumulating loop over one table yields its row count and the digest of its lines |
| Restore.LinesAreInjective | lyte/persistence/preservation.py:234-243 | equal line streams come from equal row sequences |
| Restore.SummaryDeterminesTables | lyte/persistence/preservation.py:226-248 | equal table summaries of two databases force rows that are equal one by one after normalization, table for table |
| Restore.SummarizeExactly | lyte/persistence/preservation.py:226-248 | tables have a summary exactly when schema and chains are in order; it gives for every table the row count and the digest of one line per normalized row, and the number of streams |
| Restore.LawfulReader | lyte/persistence/preservation.py:46-49 | texts and digests with the assumed laws exist, for any normalization and checks |
| Restore.SmoothRun | lyte/persistence/preservation.py:412-516 | for every snapshot a run in which nothing fails exists |
| Restore.BatchesLoseNothing | lyte/persistence/preservation.py:405-409 | copying in batches of 500 appends exactly the source rows, none lost or repeated, for every table length |
| Restore.BatchesOf500 | lyte/persistence/preservation.py:405-409 | batch k holds rows 500k to 500k+499, or what is left of them |
| Restore.Target.CopyRows | lyte/persistence/preservation.py:405-409 | the batch loop completes exactly when no batch fails, and then has written the specified rows |
| Restore.Target.CopyAll | lyte/persistence/preservation.py:405-409 | copying completes exactly when no batch of any table fails; then every table is copied, and tables absent from the snapshot are untouched |
| Restore.Target.Restore | lyte/persistence/preservation.py:412-516 | with failure possible at every step, the outcome and the effect on the target for every course of events: NOT_COMMITTED exactly when a check or step before the commit fails, the target then unchanged; COMMIT_OUTCOME_UNKNOWN exactly for a commit that raised, whether or not it took effect; otherwise the copied rows are committed, with the snapshot's summary, hence under injective text and digest its rows after normalization; a result exactly after a matching read-back |
| CanonicalJson.SortedKeysList | lyte/build_receipt.py:66-72 | sorted keys list every key once, in code-point order |
| CanonicalJson.ValueRoundTrip | lyte/build_receipt.py:66-72 | parsing the print of a value followed by anything that can follow a value gives the value and that rest |
| CanonicalJson.DecodeEncode | lyte/build_receipt.py:226-244 | decoding the canonical bytes of a fragment value gives it back |
| CanonicalJson.EncodeIsInjective | lyte/build_receipt.py:66-72 | different values have different canonical bytes |
| BuildReceipt.CollectPayloadEntries | lyte/build_receipt.py:134-148 | the loop over found files validates each path, sorts and refuses duplicates as specified |
| BuildReceipt.CollectedIsManifest | lyte/build_receipt.py:134-148 | collecting succeeds exactly when all paths are safe and distinct, and gives a sorted permutation of the files found |
| BuildReceipt.WalkOrderIsIrrelevant | lyte/build_receipt.py:134-148 | the manifest, or its refusal, is the same for every order of the directory walk |
| BuildReceipt.ValidateDocument | lyte/build_receipt.py:247-294 | the staged checks and the loop over files agree with the specified reading |
| BuildReceipt.ValidatedExactly | lyte/build_receipt.py:247-294 | a document validates to revision, digest and entries if and only if it is the one document built from them and they are well-formed |
| BuildReceipt.Observe | lyte/build_receipt.py:297-383 | VERIFIED exactly when the bytes, within the size bound, are the canonical receipt of the expected revision and current entries; each mismatch state is characterized by what the bytes read as |
| BuildReceipt.GenerateBuildReceipt | lyte/build_receipt.py:196-223 | a just-generated receipt verifies exactly when it is within the size bound |
| BuildReceipt.ReceiptTextIdentifiesPayload | lyte/build_receipt.py:179-193 | receipts are equal if and only if revision and payload are |
| ReceiptSpelling.ReceiptIsSpelled | lyte/build_receipt.py:151-193 | the text of a receipt, character by character: repository, revision, every file with path, digest and size, and the digest of that same text without the digest |
| ReceiptSpelling.SafeExactly | lyte/build_receipt.py:87-93 | a path is safe exactly when it is relative, made of letters, digits and . _ / -, and has no component ".." |
| ActionsPagination.AddPage | lyte/connectors/github_actions.py:280-288 | a page is taken exactly when all its items parse and no run id repeats, within the page or an earlier one; an overflow escapes exactly when it is met before any other fault |
| ActionsPagination.ReadPage | lyte/connectors/github_actions.py:197-290 | one round of the loop takes the page exactly when it is legible in the current standing and its runs are new, goes on exactly when it was full and runs are missing, and otherwise stops for good, with the reason, page count and etag of what the page was |
| ActionsPagination.FetchWorkflowRuns | lyte/connectors/github_actions.py:180-312 | the fetch raises exactly when it reaches an item that overflows; otherwise, under arbitrarily shifting pages, runs are distinct, come from the fetched pages in order up to a page that was not full, the count or the limit, with the first page's etag; OBSERVED means exactly the count every page reported; an early stop names the page and its reason; against a fixed upstream of N runs it returns the first min(N, max_pages*per_page) and is OBSERVED iff N fits |
| Sanitizer.Strip | lyte/connectors/base.py:183-200 | the recursion over entries, in any order, and items computes the stripped tree and the set of removed paths |
| Sanitizer.StrippingIsComplete | lyte/connectors/base.py:176-202 | the stripped tree passes `assert_no_sensitive_keys`, is a fixed point, and no path is reported iff nothing changed |
| Sanitizer.StrippingKeepsPlaces | lyte/connectors/base.py:176-202 | an entry reached through no sensitive key stays at its place; nothing is reachable through one |
| Sanitizer.CleanPassesCheck | lyte/domain/receipts.py:59-67 | the recursive check accepts every stripped tree |
| Sanitizer.ReportedPathsAreExact | lyte/connectors/base.py:176-202 | the reported paths are exactly the rendered paths of the topmost sensitive entries |
| Sanitizer.RenderExtends | lyte/connectors/base.py:176-202 | a path grows by a dot and the key, without the dot at the start, and by the index in brackets |
| OtlpRecords.ParseAttributes | lyte/connectors/otlp_http.py:323-347 | the loop over attribute items, with its duplicate check and credential stripping, agrees with its specification |
| OtlpRecordLaws.UnsignedReadsExactly | lyte/connectors/otlp_http.py:272-279 | every natural below 2^64 has exactly one accepted spelling, and nothing else is accepted |
| OtlpRecordLaws.SignedReadsExactly | lyte/connectors/otlp_http.py:281-288 | every 64-bit integer has exactly one accepted spelling, except that zero may carry a minus sign |
| OtlpRecordLaws.HexIdIsCanonical | lyte/connectors/otlp_http.py:299-302 | accepted identifiers are non-zero lower-case hexadecimal of the right length, letter for letter the input's, and normalizing again changes nothing |
| OtlpRecordLaws.AcceptedNumberPoint | lyte/connectors/otlp_http.py:649-684 | an accepted point starts no later than its time and carries exactly the one number it spelled |
| OtlpRecordLaws.AcceptedHistogram | lyte/connectors/otlp_http.py:686-727 | an accepted histogram has pairwise increasing bounds, one more bucket than bounds, and buckets summing to its count |
| OtlpRecordLaws.StepsUpMeansSorted | lyte/connectors/otlp_http.py:723-724 | the check of neighbouring bounds orders every pair of bounds |
| OtlpRecordLaws.AcceptedAttributes | lyte/connectors/otlp_http.py:323-347 | accepted attributes hold no credential, and nothing is reported stripped exactly when everything was kept |
| OtlpIngest.OtlpJsonIngestor.Append | lyte/connectors/otlp_http.py:255-260 | appends one record exactly while there is room |
| OtlpIngest.OtlpJsonIngestor.ParseMetric | lyte/connectors/otlp_http.py:567-647 | the buffers grow by all points of the metric, or the metric is refused |
| OtlpIngest.OtlpJsonIngestor.ParseItem | lyte/connectors/otlp_http.py:439-519 | the buffers grow by the item's records, or the item is refused |
| OtlpIngest.OtlpJsonIngestor.ParseGroup | lyte/connectors/otlp_http.py:393-437 | the buffers grow by the in-order records of a scope group, or it is refused |
| OtlpIngest.OtlpJsonIngestor.ParseResource | lyte/connectors/otlp_http.py:393-437 | the buffers grow by the in-order records of a resource, or it is refused |
| OtlpIngest.OtlpJsonIngestor.Ingest | lyte/connectors/otlp_http.py:187-253 | the result is a function of the arguments alone, whatever the buffers held before: the whole in-order flattening within the record bound, or nothing |
| OtlpIngest.CollectIsConcatenation | lyte/connectors/otlp_http.py:187-260 | flattening succeeds exactly when every part does, and is then the concatenation of their records and the union of their stripped paths |
| OtlpLeaves.FlattenedLeafByLeaf | lyte/connectors/otlp_http.py:393-437 | flattening a request yields as many records as it has spans, log records or data points, the n-th made from the n-th with its own resource and scope |
| OtlpLeaves.AcceptedExactly | lyte/connectors/otlp_http.py:187-260 | a request is accepted if and only if every resource, scope group, metric and leaf is well-formed, there are 1 to max_records leaves and the key is a token |
| OtlpLeaves.AcceptedIsComplete | lyte/connectors/otlp_http.py:187-260 | an accepted request yields 1 to max_records records, one per leaf in the order of the leaves |
| OtlpMeaning.AcceptedSpan | lyte/connectors/otlp_http.py:439-519 | every field of an accepted span record against the raw field: name, both times and their difference, identifiers in their own places, parent null exactly when absent or empty, kind, status, trace state, attributes, resource and scope |
| OtlpMeaning.AcceptedLog | lyte/connectors/otlp_http.py:796-865 | every field of an accepted log record: time, name from the severity text, body, severity, both identifiers, flags, resource and scope |
| OtlpMeaning.MetricMeans | lyte/connectors/otlp_http.py:567-618 | an accepted metric has one kind, and the name, unit, temporality and monotonicity of its raw fields |
| OtlpMeaning.AcceptedNumber | lyte/connectors/otlp_http.py:649-684 | the data of an accepted number point: its value, start time and flags |
| OtlpMeaning.AcceptedBucketPoint | lyte/connectors/otlp_http.py:686-727 | the data of an accepted histogram point: count, buckets, bounds, sum, minimum, maximum, start time and flags |
| OtlpMeaning.AcceptedPoint | lyte/connectors/otlp_http.py:625-647 | the record of an accepted point: name, time, its metric's metadata, resource and scope |
| OtlpMeaning.AttributesMean | lyte/connectors/otlp_http.py:323-347 | parsed attributes hold exactly the values of the non-sensitive keys, and the stripped paths are those of the sensitive ones |
| OtlpMeaning.ResourceMeans | lyte/connectors/otlp_http.py:349-354 | the resource of a record is what the raw resource says |
| OtlpMeaning.ScopeMeans | lyte/connectors/otlp_http.py:356-374 | the scope of a record is what the raw scope says |
| OtlpMeaning.IngestMeans | lyte/connectors/otlp_http.py:187-260 | the n-th record of an accepted request says, in every field, what the n-th leaf, its resource and its scope say |
| OtlpAcceptance.AttributesExactly | lyte/connectors/otlp_http.py:323-347 | attributes are accepted exactly when each is a filled key with one supported scalar, keys differ and there are not too many |
| OtlpAcceptance.SpanExactly | lyte/connectors/otlp_http.py:439-519 | a span is accepted if and only if its fields are the listed ones, identifiers, times, name, kind, status, trace state and attributes each well-formed, and it ends no earlier than it starts |
| OtlpAcceptance.LogExactly | lyte/connectors/otlp_http.py:796-865 | a log record is accepted if and only if its fields are the listed ones and each well-formed: severity 0 to 24, a span identifier only with a trace identifier |
| OtlpAcceptance.NumberPointExactly | lyte/connectors/otlp_http.py:649-684 | a number point is accepted if and only if it has one of the two values, well-formed, and does not start after its time |
| OtlpAcceptance.HistogramExactly | lyte/connectors/otlp_http.py:686-727 | a histogram point is accepted if and only if counts spell naturals that sum to its count, there is one bound less, bounds increase, and minimum does not exceed maximum |
| OtlpAcceptance.MetricExactly | lyte/connectors/otlp_http.py:567-618 | a metric is accepted, points aside, if and only if it has exactly one of the three kinds with exactly the fields of that kind |
| OtlpAcceptance.IngestAcceptsExactly | lyte/connectors/otlp_http.py:187-260 | a request is accepted if and only if it is a well-formed export of one signal, all the way down, with 1 to max_records leaves and a token as key |

## Left out

- Forecasting arithmetic is over exact reals: IEEE rounding, overflow, NaN and infinities, and the refusal of booleans or other non-numbers, are not modelled.
- Quantiles carry the key printed for them; a float is identified with its shortest decimal representation.
- `log`, `sqrt`, SHA-256, HMAC, date parsing, JSON decoding of requests and `is_sensitive_key` are parameters.
- Forecast receipts: confidence, input digest and constant metadata; evaluation reports: pinball loss, interval coverage and width, raw-unit errors, macro means and the report digest.
- Blank signal identifiers are recognized by ASCII white space only.
- ReplayGuard.ReplayProtector.Claim: does not model the lock; claims are atomic. Time-zone checks are not modelled.
- GovernedWebhook.GovernedEventVerifier.Verify: evidence references and the fields of the event other than its three checked identifiers and its instant are one decoding parameter.
- HashChains.Chains: rows, scopes and heads are values read from the database, text and integer columns holding text and integers; SQL and schema inspection are not modelled, and negative zero is the integral number zero.
- LivingAnatomy.ToTraces: trace timestamps, which come from the clock, are not modelled, and `strip().upper()` of a state is a parameter.
- Restore.Target.Restore: file system, TLS, fsync, locking and the backup command are not modelled; each failing step is a choice of the environment.
- BuildReceipt.CollectPayloadEntries: the directory walk, links and the required payload files are not modelled; found files are the argument. Leading "." components are accepted, as the code does.
- BuildReceipt.Observe: outside the printed fragment (escapes, floats, white space) a document is INVALID, as in the source; very long integers and very deep nesting, on which Python raises other errors, are not modelled.
- ActionsPagination.FetchWorkflowRuns: the HTTP client and the parsing of one run are parameters, the response receipt is not modelled.
- Sanitizer.Strip: tuples are treated as lists, and keys are strings already; removed paths are a set, which the source sorts.
- OtlpIngest.OtlpJsonIngestor.Ingest: error texts, paths and classes are not modelled (a refusal is `None`, also for an integer no float can hold), nor is the lock; the rounding of integers to floats is a parameter.
- Error texts: which calls fail, and in which order of checks, is proved; the wording of an error is not, except where it is reported data (reasons of a fetch, effects of an import, chain errors).
- The rest of the repository: HTTP routes, OIDC identity, metrics export, the store that writes the chains, the Granite model
  adapter, benchmarks, demo fixtures, and domain formulas that are single ratios or case tables.
