# MistralMeter core, modelled in Dafny

MistralMeter evaluates Mistral chat models. It runs a prompt, and can run it several
times. While the reply streams it measures latency, time to first token (TTFT), token
counts and throughput. A second "judge" model then scores the reply, and the platform
aggregates batches and compares two models.

This project models the deterministic core of that pipeline and proves properties
about it. One Dafny module corresponds to each source file:

- `Metrics` (metrics.py) models the metrics collector. It is a class whose fields
  `measure_latency`, `mark_first_token`, `record_tokens` and `set_quality` update. Its
  derived values are latency, TTFT, tokens per second and the `EvalMetrics` export.
  The module also covers batch aggregation, the two-model comparison, the variance
  statistics over repeated runs and `calculate_percentile`.
- `Evaluator` (evaluator.py) models parsing the judge's reply:
  - the first brace-free `{...}` object, or the whole text;
  - the five criteria, with their weighted average when `overall_score` is absent;
  - the 5.0 fallback for unreadable replies, and the exceptions that escape;
  - the reference section of the judge prompt;
  - the fallback of `compare_responses`;
  - the four rubrics and `evaluate_with_rubric`.
- `Runner` (runner.py) models the system prompt for each style and the two chat
  messages. It also models the fold over a streamed reply, where the first chunk marks
  the first token, non-empty deltas are concatenated and the last chunk's usage sets the
  token counts. The last piece is `run_batch`'s normalisation of failed runs into
  `"Error: ..."` entries.
- `Schemas` (schemas.py) models the records and their pydantic range constraints as
  validating constructors, plus `estimated_cost_usd`.
- `Api` (main.py) models the API-key configuration and `verify_api_key`. It also covers:
  - the single- and multi-run `/evaluate` flow, including best-response selection;
  - the batch and compare flows, including the winner mapping;
  - the in-memory human-rating store with its statistics;
  - the model descriptions.
- `Common`, `Numeric`, `Strings` and `Json` supply Option/Result, sums, minimum and
  maximum, insertion sort, Python's half-even `round`, `int()` truncation, `split`,
  `strip`, `lower`, and the decoded-JSON value type.

How the model treats the outside world:

- Floats are exact reals. `round(x, d)` rounds the exact value half-to-even.
- Clock readings, the chunks of a stream, each run's outcome and each judge call's outcome
  are inputs.
- `json.loads`, `float(str)`, `str(exception)` and `statistics.stdev` are function
  parameters. They are grouped as `Lib`, with `stdev` passed on its own.

Where the platform's design description and the code disagree, the model follows the
code:

- `/compare` always names a winner, and an exact tie goes to model B. The description
  wants no winner on a tie.
- Comparing a model with itself is allowed.
- The best run is the first one with the highest score. The description breaks ties by
  latency.
- A percentile is the sorted value at `int(n * p / 100)`, capped at the last index.
  This is not nearest-rank.

## Model

| member | source | states |
|---|---|---|
| Metrics.MetricsCollector.constructor | mistral-eval-platform/app/metrics.py:40-50 | a new collector has no timings, zero tokens and no quality |
| Metrics.MetricsCollector.BeginMeasure | mistral-eval-platform/app/metrics.py:53-55 | entering `measure_latency` sets the start time and changes nothing else |
| Metrics.MetricsCollector.EndMeasure | mistral-eval-platform/app/metrics.py:56-59 | leaving `measure_latency`, normally or by an exception, sets the end time and nothing else |
| Metrics.MetricsCollector.MarkFirstToken | mistral-eval-platform/app/metrics.py:61-64 | only the first call records a time; later calls change nothing |
| Metrics.MetricsCollector.RecordTokens | mistral-eval-platform/app/metrics.py:66-69 | both counts are replaced, and the total becomes their sum |
| Metrics.MetricsCollector.SetQuality | mistral-eval-platform/app/metrics.py:71-73 | the score is stored, and the exported quality is that score |
| Metrics.Collected.ToEvalMetrics | mistral-eval-platform/app/metrics.py:104-135 | tokens are consistent; the latency is rounded to 2 decimals; TTFT (2 decimals) and speed (1 decimal) are rounded when truthy and dropped exactly when falsy (absent or zero); an unjudged run gets score 0.0 with "Not evaluated" |
| Metrics.Collected.TotalLatencyMs | mistral-eval-platform/app/metrics.py:75-80 | 0.0 unless both the start and the end are set; then non-negative exactly when the end is not before the start |
| Metrics.Collected.TimeToFirstTokenMs | mistral-eval-platform/app/metrics.py:82-87 | None unless both the start and the first token are set; then non-negative exactly when the first token is not before the start |
| Metrics.Collected.TokensPerSecond | mistral-eval-platform/app/metrics.py:89-97 | present exactly when both times are set and the end is after the start; never negative for a non-negative output count |
| Metrics.Collected.TotalTokens | mistral-eval-platform/app/metrics.py:99-102 | with non-negative counts, the total is at least each of the input and output counts |
| Metrics.TokensPerSecondInvertsLatency | mistral-eval-platform/app/metrics.py:76-97 | speed is defined exactly when both times are set and the end is after the start; speed times latency is then the output tokens times 1000 |
| Metrics.FirstTokenWithinLatency | mistral-eval-platform/app/metrics.py:76-87 | when start ≤ first token ≤ end, TTFT lies between 0 and the total latency |
| Metrics.AggregateMetrics | mistral-eval-platform/app/metrics.py:138-147 | an empty batch gives the empty summary; otherwise the count is the batch size |
| Metrics.AggregateOrdered | mistral-eval-platform/app/metrics.py:150-188 | min ≤ average ≤ max and min ≤ p50 ≤ max for latency; min ≤ average ≤ max for the score |
| Metrics.AggregateMedianIsPercentile | mistral-eval-platform/app/metrics.py:177 | p50 is the sorted latency at `n // 2`, which is exactly `calculate_percentile(latencies, 50)`, rounded to 2 decimals |
| Metrics.AggregateTokenTotals | mistral-eval-platform/app/metrics.py:156-158 | for consistent records, the total is the input total plus the output total |
| Metrics.AggregateCost | mistral-eval-platform/app/metrics.py:193-195 | the batch cost equals `estimated_cost_usd` of the totals, exactly (2·in + 6·out)/10⁶ |
| Metrics.AggregateThroughput | mistral-eval-platform/app/metrics.py:167-169 | zero total time gives throughput 0; non-negative outputs give non-negative throughput |
| Metrics.CompareMetrics | mistral-eval-platform/app/metrics.py:199-238 | "faster", "better" and the overall winner are A exactly on a strict win by A, otherwise B; the confidence is round(abs(a−b)/10·100, 1) of the weighted scores, hence non-negative; the reported latencies, output tokens and scores are the inputs', with their rounded differences |
| Metrics.CompareSwap | mistral-eval-platform/app/metrics.py:226-236 | swapping the sides flips a strict overall winner; an equal weighted score gives B both ways; confidence is symmetric |
| Metrics.BetterAndNotSlowerWins | mistral-eval-platform/app/metrics.py:226-235 | a strictly better score that is no slower wins overall |
| Metrics.CompareWithItself | mistral-eval-platform/app/metrics.py:210-236 | comparing a run with itself gives B everywhere and confidence 0 |
| Metrics.PyIndex | mistral-eval-platform/app/metrics.py:328 | Python list indexing: defined on [-len, len), with negatives counted from the end; otherwise IndexError |
| Metrics.CalculatePercentile | mistral-eval-platform/app/metrics.py:322-328 | empty input gives 0.0; it raises exactly when the raw index is below -len; any result is an element between the min and the max |
| Metrics.PercentileIndex | mistral-eval-platform/app/metrics.py:326-328 | for a non-negative percentile, the result is the sorted value at the truncated index, capped at the last |
| Metrics.PercentileMonotone | mistral-eval-platform/app/metrics.py:322-328 | a higher percentile never gives a smaller value |
| Metrics.HalfIndex | mistral-eval-platform/app/metrics.py:177 | `int(n * 50 / 100)` is `n // 2` |
| Metrics.P95Index | mistral-eval-platform/app/metrics.py:282 | `int(n * 0.95)` is `n*95 // 100`, a valid index whenever n ≥ 1 |
| Metrics.TruthyValues | mistral-eval-platform/app/metrics.py:271-272 | the result is empty iff no value is truthy, never holds 0.0, is no longer than the input, and every element is the value of some input entry |
| Metrics.CriterionSamples | mistral-eval-platform/app/metrics.py:293-298 | a criterion has samples exactly when some run scored it, and every sample is some run's score for that criterion |
| Metrics.CriteriaMeans | mistral-eval-platform/app/metrics.py:300-303 | there is one mean per criterion that any run scored |
| Metrics.CriteriaMeanBetween | mistral-eval-platform/app/metrics.py:293-303 | each criterion's mean lies within the (rounded) range of the scores the runs reported for it |
| Metrics.VarianceMetrics | mistral-eval-platform/app/metrics.py:241-319 | ValueError exactly for no runs, no scores, or several runs with fewer than two scores; otherwise the token, latency and quality parts |
| Metrics.CollectCriteria | mistral-eval-platform/app/metrics.py:293-298 | the nested loop collects, for each criterion, its scores in run order |
| Metrics.AppendScores | mistral-eval-platform/app/metrics.py:295-298 | one run's criteria are appended to their lists, creating a list when absent |
| Metrics.ComputeVarianceMetrics | mistral-eval-platform/app/metrics.py:241-319 | the imperative computation equals VarianceMetrics |
| Metrics.TokenAverages | mistral-eval-platform/app/metrics.py:263-267 | the input count is the first run's |
| Metrics.TokenAveragesBetween | mistral-eval-platform/app/metrics.py:263-267 | the rounded mean output and total counts lie between the smallest and the largest per-run counts, so identical runs report exactly their counts |
| Metrics.VarianceSingleRun | mistral-eval-platform/app/metrics.py:276-313 | one run gives std dev 0, no p95, and mean = min = max = p50 |
| Metrics.LatencySingleRun | mistral-eval-platform/app/metrics.py:276-282 | one run's latency statistics all equal its rounded latency, with std dev 0 and no p95 |
| Metrics.QualitySingleRun | mistral-eval-platform/app/metrics.py:305-309 | one run's score statistics all equal its rounded score, with std dev 0 |
| Metrics.VarianceLatencyOrdered | mistral-eval-platform/app/metrics.py:276-285 | min ≤ mean ≤ max and min ≤ p50 ≤ max; p95 is present iff there are at least 5 runs, and then p50 ≤ p95 ≤ max |
| Metrics.VariancePercentilesAgree | mistral-eval-platform/app/metrics.py:281-282 | p50 and p95 equal `calculate_percentile` at 50 and 95, rounded |
| Metrics.VarianceOptionalMeans | mistral-eval-platform/app/metrics.py:283-284 | mean TTFT and mean speed are present iff some run has a truthy value |
| Metrics.VarianceScoresInRange | mistral-eval-platform/app/metrics.py:305-309 | scores in [0, 10] give 0 ≤ min ≤ mean ≤ max ≤ 10 |
| Evaluator.FindObject | app/evaluator.py:158 | `re.search(r'\{[^{}]*\}')`: the leftmost brace-free object, and none iff there is no match |
| Evaluator.MatchEndUnique | app/evaluator.py:158 | a match starting at a given position has one end |
| Evaluator.ExtractObject | app/evaluator.py:158-162 | the leftmost match `text[i..j+1]` (braces at the ends, none inside), or the whole text when nothing matches |
| Evaluator.ReferenceSection | app/evaluator.py:114-122 | empty without a non-empty reference; otherwise header, the reference verbatim, footer |
| Evaluator.WeightedSumAbove | app/evaluator.py:185-188 | scores at least lo with non-negative weights give a weighted sum of at least lo·Σw |
| Evaluator.WeightedSumBelow | app/evaluator.py:185-188 | scores at most hi with non-negative weights give a weighted sum of at most hi·Σw |
| Evaluator.WeightedSumBetween | app/evaluator.py:185-188 | with non-negative weights summing to 1, scores in [lo, hi] give a weighted sum in [lo, hi] |
| Evaluator.WeightedScoreInRange | app/evaluator.py:185-193 | with such weights, scores in [0, 10] give a weighted sum that stays in [0, 10] once rounded to one decimal |
| Evaluator.JudgeWeightsSumToOne | app/evaluator.py:178-184 | the five weights are positive and sum to 1 |
| Evaluator.ConvertScores | app/evaluator.py:165-171 | every criterion is converted with default 5; it fails exactly when some conversion fails, with ValueError or TypeError |
| Evaluator.ConvertFirstError | app/evaluator.py:165-171 | the criteria are converted in order: the first one `float()` rejects decides the error |
| Evaluator.ConvertValid | app/evaluator.py:165-171 | criteria that are absent or numbers in [0, 10] always convert, to values in [0, 10] |
| Evaluator.ScoreMapDistinct | app/evaluator.py:165-171 | each distinct criterion maps to its own converted score |
| Evaluator.ScoreMapAll | app/evaluator.py:165-171 | with distinct names, every name is a key and maps to the value at its position |
| Evaluator.ScoreMapConstant | app/evaluator.py:165-171 | when every value is the same, every key maps to that value |
| Evaluator.ParseFallback | app/evaluator.py:198-204 | the fallback score is 5.0 with no criteria |
| Evaluator.ParseEvaluation | app/evaluator.py:153-204 | a parsed score is in [0, 10], with either no criteria or exactly the five; only TypeError (a non-numeric field) or AttributeError (a decoded value that is not a dict) escape; the individual paths are the lemmas ParseUnreadable, ParseNotObject and ParseObject |
| Evaluator.ScoreFields | app/evaluator.py:164-204 | from a decoded dict: the score is in [0, 10] with no criteria or exactly the five; only TypeError escapes; the individual paths are the lemmas CriterionUnreadable, OverallUnreadable, FeedbackNotString, ParseOverallOutOfRange and ParseWeightedAverage |
| Evaluator.ParseObject | app/evaluator.py:158-204 | a reply whose object decodes to a dict is scored from that dict's fields |
| Evaluator.ParseNotObject | app/evaluator.py:158-166 | a reply that decodes to something other than a dict raises AttributeError at `.get`, which escapes |
| Evaluator.CriterionUnreadable | app/evaluator.py:165-204 | a criterion `float()` rejects with ValueError gives the fallback with that error; a TypeError escapes |
| Evaluator.OverallUnreadable | app/evaluator.py:174-204 | the same for `overall_score`: ValueError gives the fallback, TypeError escapes |
| Evaluator.FeedbackNotString | app/evaluator.py:190-204 | a `feedback` that is not a string fails QualityScore validation and gives the fallback |
| Evaluator.Evaluate | app/evaluator.py:133-151 | a failed judge call escapes with its message; otherwise the parsed quality, in [0, 10], or the message of the exception the parser lets through |
| Evaluator.ParseWeightedAverage | app/evaluator.py:164-196 | without `overall_score`, criteria that are absent or in [0, 10] give the rounded weighted average, the feedback (default "Evaluation completed.") and the five converted scores |
| Evaluator.FivesAverage | app/evaluator.py:178-188 | five scores of 5 average to 5.0 under the judge weights |
| Evaluator.NoScoreFields | app/evaluator.py:164-196 | a dict with none of the criteria, no `overall_score` and no `feedback` gives 5.0, "Evaluation completed." and every criterion at 5 |
| Evaluator.ParseEmptyObject | app/evaluator.py:158-196 | a reply whose object decodes to `{}` gives 5.0, "Evaluation completed." and every criterion at 5 |
| Evaluator.ParseOverallScore | app/evaluator.py:174-175 | a valid `overall_score` is used, rounded to 1 decimal |
| Evaluator.ParseOverallOutOfRange | app/evaluator.py:192-204 | an `overall_score` that rounds above 10 or below 0 fails validation and gives the fallback |
| Evaluator.ParseUnreadable | app/evaluator.py:160-162 | undecodable text gives the fallback: 5.0 and the error message followed by the first 200 characters |
| Evaluator.CompareVerdict | app/evaluator.py:253-269 | the decoded object when there is a match and it decodes; otherwise the tie verdict with scores 5 |
| Evaluator.RubricsWellFormed | app/evaluator.py:281-298 | every rubric has one weight per criterion, distinct criteria, and non-negative weights summing to 1 |
| Evaluator.SelectRubric | app/evaluator.py:311-314 | an unknown rubric type falls back to factual_qa |
| Evaluator.EvaluateWithRubric | app/evaluator.py:304-367 | the score is in [0, 10]; the criteria are exactly the rubric's, or the fallback "Rubric evaluation failed" when nothing matches, the match does not decode, or it decodes to something other than a dict |
| Evaluator.RubricQuality | app/evaluator.py:343-367 | from a decoded dict: the fallback when a criterion's `float()` fails, the feedback is not a string, or the rounded weighted sum is outside [0, 10]; any other result is that rounded sum with the feedback and the criterion map, its score in [0, 10] |
| Evaluator.RubricObject | app/evaluator.py:336-343 | a reply with a match that decodes to a dict is scored from that dict with the selected rubric |
| Evaluator.RubricScoresValid | app/evaluator.py:343-358 | valid scores give the rounded weighted sum, the feedback (default "") and the rubric's criteria mapped to their scores |
| Runner.SystemPrompt | app/runner.py:235-271 | each style's text, and the educational text for any other key |
| Runner.StylePromptsMatchStyles | app/runner.py:245-271 | the table has exactly one entry per ExpectedStyle |
| Runner.SystemPromptsDistinct | app/runner.py:245-271 | no two styles share a prompt |
| Runner.BuildMessages | app/runner.py:77-86 | a system message with the style's prompt, then the user's prompt |
| Runner.Pieces | app/runner.py:121-122 | only non-empty deltas are kept, and none are kept iff no chunk has text |
| Runner.StreamTextAppend | app/runner.py:108-131 | the text of a stream split anywhere is the concatenation of the texts of its parts |
| Runner.StreamTextStep | app/runner.py:121-122 | a chunk adds exactly its delta when it has one, and nothing otherwise |
| Runner.RunStreaming | app/runner.py:99-131 | the text is the concatenated deltas; the first chunk marks the first token; the last chunk's usage sets the tokens; an empty stream raises with both times still set |
| Runner.FreshStreamMetrics | app/runner.py:108-129 | on a fresh collector with ordered clock readings, TTFT is taken at the first chunk, lies within the latency, and the tokens are the last chunk's usage or 0 |
| Runner.RunPrompt | app/runner.py:54-97 | a fresh collector, the two messages, and the streamed reply |
| Runner.RunBatch | app/runner.py:186-201 | one entry per prompt, in order: the run's result, or "Error: " plus the message with an empty collector |
| Runner.FailedEntryMetrics | app/runner.py:195-197 | a failed entry exports zero tokens, zero latency, no TTFT or speed, and "Not evaluated" |
| Schemas.NewHumanRating | app/schemas.py:40-49 | valid iff a score in [0, 10] is given; otherwise the error names "score" |
| Schemas.NewEvalPrompt | app/schemas.py:54-69 | the style defaults to educational, with no reference and no category |
| Schemas.SamplingErrors | app/schemas.py:83-135 | names exactly the fields outside temperature [0, 1], max_tokens [1, 4096] and runs [1, 10] |
| Schemas.NewEvalRequest | app/schemas.py:83-112 | valid iff the sampling fields are in range; defaults are small model, 0.7, 1024 and 1 run |
| Schemas.NewBatchEvalRequest | app/schemas.py:114-121 | valid iff there is at least one prompt and the sampling fields are in range; "prompts" is flagged iff the list is empty |
| Schemas.NewCompareRequest | app/schemas.py:124-135 | valid iff the sampling fields are in range; model A defaults to small, model B to large |
| Schemas.TokenMetrics.EstimatedCostUsd | app/schemas.py:159-165 | the cost is exactly (2·in + 6·out)/10⁶ dollars: rounding to 6 decimals loses nothing |
| Schemas.CostIsMicroDollars | app/schemas.py:163-165 | 0.000002·in + 0.000006·out rounded to 6 decimals is exactly (2·in + 6·out)/10⁶ |
| Schemas.EvalDataset.Size | app/schemas.py:359-361 | the size is zero exactly when the dataset has no prompts |
| Schemas.NewQualityScore | app/schemas.py:194-201 | valid iff the score is in [0, 10] and the feedback is a string |
| Api.AllowedKeys | app/main.py:64-68 | every allowed key is non-empty, stripped and has no comma; every stripped non-empty piece is allowed |
| Api.AllowedKeysOfList | app/main.py:64-68 | a comma-joined list of clean keys parses back to exactly those keys |
| Api.NoKeysByDefault | app/main.py:64-68 | with API_KEYS unset, no key is allowed |
| Api.AuthEnabled | app/main.py:71 | enabled iff ENABLE_AUTH is "true" in any letter case; unset means disabled |
| Api.VerifyApiKey | app/main.py:74-91 | with auth off everything is accepted; with it on, a missing or empty key gives 401, an unknown key 403, and a known key is accepted |
| Api.KeyCheckAgainstEnvironment | app/main.py:64-91 | with the environment's configuration, a request passes iff auth is off or its key is configured |
| Api.JudgeOf | app/main.py:286 | the requested judge, or mistral-large when none is requested |
| Api.BestIndex | app/main.py:353 | the first index holding the maximal score |
| Api.TrialAt | app/main.py:321-335 | a run and its judging fail with a 500 exactly when the run, the judge call or the parse of its reply raises; the failing run's or judge call's message becomes the detail; a successful trial is run k's text and collector with the judge's verdict |
| Api.Trials | app/main.py:321-340 | runs are taken in order; it succeeds iff every run succeeds, and a failure is some run's error |
| Api.TrialsFail | app/main.py:321-340 | after the first failure, the later runs are never reached |
| Api.TrialsErrStep | app/main.py:321-340 | one more run after a failure keeps that failure |
| Api.TrialsExtend | app/main.py:321-340 | extending successful runs by one: the new run's failure becomes the result, or its trial is appended |
| Api.ResultOf | app/main.py:297-318 | the result carries the prompt, the response, both model ids, the judge's quality, and the collector's token counts and exported latency |
| Api.VarianceResultOf | app/main.py:356-363 | it carries the request's prompt, model id and judge id; all responses are in run order, and the best response is the one at BestIndex |
| Api.BestResponseScoresHighest | app/main.py:350-361 | the best response's score is at least every run's score and above every earlier run's |
| Api.EvaluatePrompt | app/main.py:284-368 | one run gives a plain result; several runs give the variance result; a failure gives the first failing run's 500 |
| Api.EvaluateRuns | app/main.py:319-363 | `runs` iterations in order; with at least two runs the variance statistics never raise |
| Api.EvaluateBatch | app/main.py:384-430 | one result per prompt, paired in order, with failed runs kept as "Error: " entries; a failing judge call or parse gives a 500 carrying the first such failure's message; the summary aggregates all of the results |
| Api.JudgeEntries | app/main.py:407-421 | each (prompt, entry) pair is judged in order into its result; it succeeds iff every judge call and parse succeeds; otherwise a 500 with the message of the first that fails |
| Api.FailedRunStaysInBatch | app/main.py:407-425 | a failed run's entry is judged and kept, with zero tokens and zero latency |
| Api.WinnerId | app/main.py:517 | model A's id iff the overall winner is "a", otherwise model B's |
| Api.CompareModels | app/main.py:448-534 | a failing run or judge call gives a 500 with its message, A before B and runs before judging; result A is run A with its verdict and result B is run B with its verdict; there is always a winner, one of the two ids; A wins iff its weighted score is strictly higher; the summary names the winner, the comparison's confidence, and the results' scores and total latencies |
| Api.CompareTieGoesToB | app/main.py:505-517 | identical runs and verdicts name model B |
| Api.Distribution | app/main.py:614-622 | the rating values that occur, in strictly ascending order, each with its count |
| Api.DistributionCovers | app/main.py:614-622 | every rating value from 1 to 5 that occurs is listed |
| Api.AverageOf | app/main.py:621 | the average rating times the number of ratings is their sum |
| Api.StatsOf | app/main.py:603-623 | no ratings give 0, 0, no average and no distribution; otherwise the given number of evaluations, the number of ratings, their average and the distribution of their values |
| Api.StatsConsistent | app/main.py:603-623 | the counts add up to the number of ratings, and the average lies in [1, 5] |
| Api.RatingStore.constructor | app/main.py:540 | the store starts empty |
| Api.RatingStore.Get | app/main.py:581-590 | an id's ratings, oldest first, or [] for an unknown id |
| Api.StoreAdd | app/main.py:574-577 | appending a rating 1-5 for its own id, listing a new id last, keeps ids unique, equal to the keys, every list non-empty and every rating in 1..5 |
| Api.RatingStore.Submit | app/main.py:543-579 | a rating outside 1..5 is refused with 422 and nothing changes; otherwise it is appended to its id's list, which is created when absent, and no other id changes |
| Api.RatingStore.Statistics | app/main.py:593-623 | the lists are collected in insertion order and summarised |
| Api.StoreStatistics | app/main.py:603-623 | an empty store gives 0, 0, no average and no distribution; otherwise the number of evaluations is the number of ids, the total is the summed length of the stored lists, the counts add up to the total and the average is in [1, 5] |
| Api.FlattenLength | app/main.py:603-605 | collecting the lists gives exactly as many values as the lists hold ratings |
| Api.SubmitAsWritten | app/main.py:567-572 | the endpoint as written: the HumanRating it builds can only fail, on "score" |
| Api.SubmitAsWrittenAlwaysFails | app/main.py:567-572 | every submission as written, whatever its rating, fails validation on "score" |
| Api.ModelDescription | app/main.py:771-783 | the table's entry, or "Mistral model" for a model outside the table |
| Api.EveryModelDescribed | app/main.py:771-783 | all eight models are in the table, so the fallback is never used |

## Left out

- Calls to the model provider (streaming and plain chat completion, the judge calls) are network I/O. A run's outcome and the outcome of a judge call (its raw reply, or the message of the exception it raised) are inputs instead.
- `_run_sync` and the `use_streaming=False` path of `run_prompt` are left out; every caller in app/main.py streams.
- `stream_response` and the `/stream` endpoint are server-sent-event plumbing.
- `quick_eval` is a thin wrapper over the API.
- The text of `EVALUATION_PROMPT` and the rubric and comparison prompt templates is left out. Only the reference section, the part that depends on input, is modelled.
- The judge-prompt formatting in `evaluate` and `evaluate_with_rubric` is not modelled. The judge's reply is an input, so the prompt it was asked never reaches the model. The compare endpoint passes no reference answer to the judge, and the model does not show that either.
- Floating point: values are exact reals, and `round` is half-even on the exact value. A binary float can round differently near a half.
- `statistics.stdev` and `statistics.mean` of integer token counts: `stdev` is a function parameter, consulted only when there are at least two runs. Nothing is proved about its value.
- Metrics.TokenAverages: the rounded mean output and total counts are stated through bounds (TokenAveragesBetween), not as exact values.
- `asyncio` concurrency in `run_batch` (the semaphore of 3) is left out. `gather` returns results in prompt order, which is what the model keeps.
- Aliasing: collectors in batches and runs are values (`Collected`), not shared objects. Only a single run's streaming fold uses the `MetricsCollector` class.
- HTTP plumbing is left out: FastAPI routing, rate limits, CORS, the health and dataset endpoints, the 503 for an unconfigured service, and the uvicorn entry point. Request-body validation failures (422) are modelled only by the validating constructors and the rating's 1..5 check.
- Api.RatingStore.Submit: the 422 detail text is FastAPI's, not modelled exactly.
- Environment variables are read once at start-up. They are parameters (`Option<string>`, where None means unset).
- `list_models` and `list_styles` are left out; they only list the enums.
- `str(e)` is the parameter `describe`, which sees only the exception's class. The message of a ValueError from `float()` or of a pydantic ValidationError names the offending input in Python; here the fallback feedback's error text cannot.
- `str.lower()` is modelled for ASCII letters only (Strings.LowerChar). It only feeds the `== "true"` test of ENABLE_AUTH, where no other letter can take part.
- Evaluator.ParseEvaluation: its own contract states the range, the criteria and which exceptions escape. Which input takes which path is stated by the lemmas ParseUnreadable, ParseNotObject and ParseObject.
- Evaluator.ScoreFields: the same; the fallback and raise paths are stated by CriterionUnreadable, OverallUnreadable, FeedbackNotString and ParseOverallOutOfRange, and the normal path by ParseWeightedAverage and ParseOverallScore.
- Api.Distribution: the rating distribution is keyed by the integer rating; the endpoint's JSON keys are their decimal strings (`str(k)`).
- Api.CompareModels: the summary sentence is kept as the values it is formatted from, not as formatted text.

## Findings

| source | as written | input that shows it | evidently intended | confidence | as-written member | corrected member |
|---|---|---|---|---|---|---|
| app/main.py:567-572 | `HumanRating(evaluation_id=..., rating=..., comment=..., rater_id=...)`. app/schemas.py:40-49 declares only `score` (required, 0-10), `comment` and `rater_id`, so `score` is missing and pydantic raises a ValidationError. The rating is never stored, and the statistics at main.py:605 read a `rating` field the record lacks. | `POST /rate/e1?rating=3` | store a rating of 1-5 per evaluation id, append it to that id's list, and report totals, average and distribution over the stored ratings | high (not executed) | Api.SubmitAsWrittenAlwaysFails | Api.RatingStore.Submit |
