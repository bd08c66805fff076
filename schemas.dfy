/**
 * The platform's record types (app/schemas.py) with the range constraints their
 * pydantic declarations enforce, and the per-token cost estimate.
 */
module Schemas {
  import opened Common
  import opened Numeric
  import opened Json

  /** The expected response styles; `Value` is the enum's string value. */
  datatype ExpectedStyle = Educational | Technical | Concise | Creative | Formal | Conversational
  {
    function Value(): string
    {
      match this
      case Educational => "educational"
      case Technical => "technical"
      case Concise => "concise"
      case Creative => "creative"
      case Formal => "formal"
      case Conversational => "conversational"
    }
  }

  /** The Mistral models that can be evaluated or used as judge. */
  datatype MistralModel =
    | MistralTiny | MistralSmall | MistralMedium | MistralLarge
    | OpenMistral7b | OpenMixtral8x7b | OpenMixtral8x22b | Codestral
  {
    function Value(): string
    {
      match this
      case MistralTiny => "mistral-tiny"
      case MistralSmall => "mistral-small-latest"
      case MistralMedium => "mistral-medium-latest"
      case MistralLarge => "mistral-large-latest"
      case OpenMistral7b => "open-mistral-7b"
      case OpenMixtral8x7b => "open-mixtral-8x7b"
      case OpenMixtral8x22b => "open-mixtral-8x22b"
      case Codestral => "codestral-latest"
    }
  }

  /** pydantic's ValidationError, naming the offending fields in declaration order. */
  datatype Invalid = Invalid(fields: seq<string>)

  // ============ Human-in-the-loop ============

  datatype HumanRating = HumanRating(score: real, comment: Option<string>, raterId: Option<string>)

  /**
   * Building a HumanRating from keyword arguments: `score` is required and must lie in
   * [0, 10]; `comment` and `rater_id` default to None. `score` is None when the caller
   * passes no `score` keyword (other keywords are ignored).
   */
  function NewHumanRating(score: Option<real>, comment: Option<string>, raterId: Option<string>)
    : (r: Result<HumanRating, Invalid>)
    ensures r.Ok? <==> score.Some? && 0.0 <= score.value <= 10.0
    ensures r.Ok? ==> r.value == HumanRating(score.value, comment, raterId)
    ensures r.Err? ==> r.error.fields == ["score"]
  {
    if score.Some? && 0.0 <= score.value <= 10.0 then Ok(HumanRating(score.value, comment, raterId))
    else Err(Invalid(["score"]))
  }

  // ============ Input Schemas ============

  datatype EvalPrompt = EvalPrompt(
    prompt: string,
    expectedStyle: ExpectedStyle,
    referenceAnswer: Option<string>,
    category: Option<string>)

  /** `EvalPrompt(prompt=text)`: every optional field at its default. */
  function NewEvalPrompt(text: string): (p: EvalPrompt)
    ensures p.prompt == text
    ensures p.expectedStyle == Educational
    ensures p.referenceAnswer == None && p.category == None
  {
    EvalPrompt(text, Educational, None, None)
  }

  datatype EvalRequest = EvalRequest(
    prompt: EvalPrompt,
    model: MistralModel,
    judgeModel: Option<MistralModel>,
    temperature: real,
    maxTokens: int,
    runs: int)

  datatype BatchEvalRequest = BatchEvalRequest(
    prompts: seq<EvalPrompt>,
    model: MistralModel,
    judgeModel: Option<MistralModel>,
    temperature: real,
    maxTokens: int,
    runs: int)

  datatype CompareRequest = CompareRequest(
    prompt: EvalPrompt,
    modelA: MistralModel,
    modelB: MistralModel,
    judgeModel: Option<MistralModel>,
    temperature: real,
    maxTokens: int,
    runs: int)

  /** The sampling bounds the three request types share. */
  predicate SamplingInRange(temperature: real, maxTokens: int, runs: int)
  {
    0.0 <= temperature <= 1.0 && 1 <= maxTokens <= 4096 && 1 <= runs <= 10
  }

  /** The names of the sampling fields that violate their bounds, in declaration order. */
  function SamplingErrors(temperature: real, maxTokens: int, runs: int): (errs: seq<string>)
    ensures errs == [] <==> SamplingInRange(temperature, maxTokens, runs)
    ensures "temperature" in errs <==> !(0.0 <= temperature <= 1.0)
    ensures "max_tokens" in errs <==> !(1 <= maxTokens <= 4096)
    ensures "runs" in errs <==> !(1 <= runs <= 10)
  {
    (if 0.0 <= temperature <= 1.0 then [] else ["temperature"])
    + (if 1 <= maxTokens <= 4096 then [] else ["max_tokens"])
    + (if 1 <= runs <= 10 then [] else ["runs"])
  }

  /**
   * Validating an EvalRequest body. An absent field (None) takes its default:
   * mistral-small-latest, no judge, temperature 0.7, 1024 tokens, one run.
   */
  function NewEvalRequest(
    prompt: EvalPrompt, model: Option<MistralModel>, judgeModel: Option<MistralModel>,
    temperature: Option<real>, maxTokens: Option<int>, runs: Option<int>)
    : (r: Result<EvalRequest, Invalid>)
    ensures r.Ok? <==> SamplingInRange(temperature.GetOr(0.7), maxTokens.GetOr(1024), runs.GetOr(1))
    ensures r.Ok? ==>
      r.value == EvalRequest(prompt, model.GetOr(MistralSmall), judgeModel,
                             temperature.GetOr(0.7), maxTokens.GetOr(1024), runs.GetOr(1))
    ensures r.Err? ==> r.error.fields == SamplingErrors(temperature.GetOr(0.7), maxTokens.GetOr(1024), runs.GetOr(1))
  {
    var t, m, n := temperature.GetOr(0.7), maxTokens.GetOr(1024), runs.GetOr(1);
    var errs := SamplingErrors(t, m, n);
    if errs == [] then Ok(EvalRequest(prompt, model.GetOr(MistralSmall), judgeModel, t, m, n))
    else Err(Invalid(errs))
  }

  /** Validating a BatchEvalRequest body: the same bounds, and at least one prompt. */
  function NewBatchEvalRequest(
    prompts: seq<EvalPrompt>, model: Option<MistralModel>, judgeModel: Option<MistralModel>,
    temperature: Option<real>, maxTokens: Option<int>, runs: Option<int>)
    : (r: Result<BatchEvalRequest, Invalid>)
    ensures r.Ok? <==>
      (|prompts| >= 1 && SamplingInRange(temperature.GetOr(0.7), maxTokens.GetOr(1024), runs.GetOr(1)))
    ensures r.Ok? ==>
      r.value == BatchEvalRequest(prompts, model.GetOr(MistralSmall), judgeModel,
                                  temperature.GetOr(0.7), maxTokens.GetOr(1024), runs.GetOr(1))
    ensures r.Err? ==> ("prompts" in r.error.fields <==> prompts == [])
  {
    var t, m, n := temperature.GetOr(0.7), maxTokens.GetOr(1024), runs.GetOr(1);
    var errs := (if |prompts| >= 1 then [] else ["prompts"]) + SamplingErrors(t, m, n);
    if errs == [] then Ok(BatchEvalRequest(prompts, model.GetOr(MistralSmall), judgeModel, t, m, n))
    else Err(Invalid(errs))
  }

  /** Validating a CompareRequest body: model A defaults to small, model B to large. */
  function NewCompareRequest(
    prompt: EvalPrompt, modelA: Option<MistralModel>, modelB: Option<MistralModel>,
    judgeModel: Option<MistralModel>,
    temperature: Option<real>, maxTokens: Option<int>, runs: Option<int>)
    : (r: Result<CompareRequest, Invalid>)
    ensures r.Ok? <==> SamplingInRange(temperature.GetOr(0.7), maxTokens.GetOr(1024), runs.GetOr(1))
    ensures r.Ok? ==>
      r.value == CompareRequest(prompt, modelA.GetOr(MistralSmall), modelB.GetOr(MistralLarge), judgeModel,
                                temperature.GetOr(0.7), maxTokens.GetOr(1024), runs.GetOr(1))
  {
    var t, m, n := temperature.GetOr(0.7), maxTokens.GetOr(1024), runs.GetOr(1);
    var errs := SamplingErrors(t, m, n);
    if errs == [] then
      Ok(CompareRequest(prompt, modelA.GetOr(MistralSmall), modelB.GetOr(MistralLarge), judgeModel, t, m, n))
    else Err(Invalid(errs))
  }

  // ============ Output Schemas ============

  datatype TokenMetrics = TokenMetrics(inputTokens: int, outputTokens: int, totalTokens: int)
  {
    /** `estimated_cost_usd`: 0.000002 per input token plus 0.000006 per output token, to 6 decimals. */
    function EstimatedCostUsd(): (usd: real)
      ensures usd == (2 * inputTokens + 6 * outputTokens) as real / 1000000.0
    {
      CostIsMicroDollars(inputTokens, outputTokens);
      Round(inputTokens as real * 0.000002 + outputTokens as real * 0.000006, 6)
    }
  }

  /** The cost formula is exactly 2 micro-dollars per input and 6 per output token: rounding loses nothing. */
  lemma CostIsMicroDollars(inputTokens: int, outputTokens: int)
    ensures Round(inputTokens as real * 0.000002 + outputTokens as real * 0.000006, 6)
      == (2 * inputTokens + 6 * outputTokens) as real / 1000000.0
  {
    var micros := 2 * inputTokens + 6 * outputTokens;
    var x := micros as real / 1000000.0;
    var y := inputTokens as real * 0.000002 + outputTokens as real * 0.000006;
    assert y == x;
    assert Scale(6) == 1000000.0;
    assert y * Scale(6) == micros as real;
    RoundHalfEvenOfInt(micros);
    assert Round(y, 6) == RoundHalfEven(micros as real) as real / 1000000.0;
  }

  datatype LatencyMetrics = LatencyMetrics(
    totalMs: real,
    timeToFirstTokenMs: Option<real>,
    tokensPerSecond: Option<real>)

  datatype LatencyMetricsWithVariance = LatencyMetricsWithVariance(
    meanMs: real,
    stdDevMs: real,
    minMs: real,
    maxMs: real,
    p50Ms: real,
    p95Ms: Option<real>,
    meanTtftMs: Option<real>,
    meanTokensPerSecond: Option<real>,
    runs: int)

  datatype QualityScore = QualityScore(score: real, feedback: string, criteriaScores: map<string, real>)

  /**
   * Building a QualityScore from values decoded from a judge's reply: pydantic
   * rejects a score outside [0, 10] and a feedback that is not a string.
   */
  function NewQualityScore(score: real, feedback: Json, criteria: map<string, real>)
    : (r: Result<QualityScore, Invalid>)
    ensures r.Ok? <==> 0.0 <= score <= 10.0 && feedback.JString?
    ensures r.Ok? ==> r.value == QualityScore(score, feedback.s, criteria)
    ensures r.Ok? ==> 0.0 <= r.value.score <= 10.0
  {
    var errs := (if 0.0 <= score <= 10.0 then [] else ["score"])
      + (if feedback.JString? then [] else ["feedback"]);
    if errs == [] then Ok(QualityScore(score, feedback.s, criteria)) else Err(Invalid(errs))
  }

  datatype QualityScoreWithVariance = QualityScoreWithVariance(
    meanScore: real,
    stdDev: real,
    minScore: real,
    maxScore: real,
    runs: int,
    criteriaMeans: map<string, real>,
    feedbacks: seq<string>)

  datatype EvalMetrics = EvalMetrics(tokens: TokenMetrics, latency: LatencyMetrics, quality: QualityScore)

  datatype EvalMetricsWithVariance = EvalMetricsWithVariance(
    tokens: TokenMetrics,
    latency: LatencyMetricsWithVariance,
    quality: QualityScoreWithVariance)

  datatype EvalResult = EvalResult(
    prompt: string,
    model: string,
    judgeModel: string,
    response: string,
    metrics: EvalMetrics,
    humanRating: Option<HumanRating>)

  datatype EvalResultWithVariance = EvalResultWithVariance(
    prompt: string,
    model: string,
    judgeModel: string,
    responses: seq<string>,
    bestResponse: string,
    metrics: EvalMetricsWithVariance,
    humanRating: Option<HumanRating>)

  /** The dictionary `aggregate_metrics` returns for a non-empty batch. */
  datatype BatchSummary = BatchSummary(
    count: nat,
    avgLatencyMs: real, minLatencyMs: real, maxLatencyMs: real, p50LatencyMs: real,
    totalInput: int, totalOutput: int, total: int, avgOutputPerPrompt: real,
    avgScore: real, minScore: real, maxScore: real,
    tokensPerSecond: real,
    estimatedCostUsd: real)

  /** `summary` is None where the source returns the empty dictionary. */
  datatype BatchEvalResult = BatchEvalResult(results: seq<EvalResult>, summary: Option<BatchSummary>)

  /**
   * `comparison_summary` is a formatted sentence; the model keeps the values it is
   * formatted from: the winner's id, the confidence, both scores and both latencies.
   */
  datatype CompareSummary = CompareSummary(
    winner: string, confidence: real, aScore: real, bScore: real, aMs: real, bMs: real)

  datatype CompareResult = CompareResult(
    prompt: string,
    modelA: EvalResult,
    modelB: EvalResult,
    winner: Option<string>,
    comparisonSummary: CompareSummary)

  // ============ Dataset Schemas ============

  datatype EvalDataset = EvalDataset(name: string, description: Option<string>, prompts: seq<EvalPrompt>)
  {
    /** `size`: the number of prompts. */
    function Size(): (n: nat)
      ensures n == 0 <==> prompts == []
    {
      |prompts|
    }
  }
}
