/**
 * The decision logic of the HTTP API (app/main.py): API-key configuration and the
 * key check, the single- and multi-run evaluation flow, the batch and compare
 * flows, the in-memory human-rating store with its statistics, and the model
 * descriptions. Model calls are inputs: a run's outcome (its text and collector, or
 * the message of the exception it raised) and the outcome of a judge call (its raw
 * reply, or the message of the exception it raised).
 */
module Api {
  import opened Common
  import opened Numeric
  import opened Json
  import opened Strings
  import opened Schemas
  import opened Metrics
  import opened Evaluator
  import opened Runner

  /** An HTTPException: a status code and its detail text. */
  datatype HttpError = HttpError(status: int, detail: string)

  // ============ Security configuration ============

  /** `ALLOWED_API_KEYS`: the stripped, non-empty comma-separated pieces of API_KEYS (absent reads as ""). */
  function AllowedKeys(raw: Option<string>): (keys: set<string>)
    ensures forall k :: k in keys ==> k != [] && IsStripped(k) && ',' !in k
    ensures forall p :: p in Split(raw.GetOr(""), ',') && Strip(p) != [] ==> Strip(p) in keys
  {
    set p | p in Split(raw.GetOr(""), ',') && Strip(p) != [] :: Strip(p)
  }

  /** Writing keys out as a comma-separated list and parsing it back gives exactly those keys. */
  lemma AllowedKeysOfList(keys: seq<string>)
    requires |keys| >= 1
    requires forall k :: k in keys ==> k != [] && IsStripped(k) && ',' !in k
    ensures AllowedKeys(Some(Join(keys, ','))) == set k | k in keys
  {
    SplitJoin(keys, ',');
    var parsed := AllowedKeys(Some(Join(keys, ',')));
    assert Split(Join(keys, ','), ',') == keys;
    forall k | k in keys
      ensures k in parsed
    {
      assert Strip(k) == k;
    }
    forall k | k in parsed
      ensures k in keys
    {
      var p :| p in keys && Strip(p) != [] && Strip(p) == k;
      assert Strip(p) == p;
    }
  }

  /** With API_KEYS unset no key is allowed. */
  lemma NoKeysByDefault()
    ensures AllowedKeys(None) == {}
  {
    assert Split("", ',') == [""];
    assert Strip("") == [];
  }

  /** `AUTH_ENABLED`: ENABLE_AUTH (default "false"), lower-cased, equals "true". */
  function AuthEnabled(flag: Option<string>): (enabled: bool)
    ensures enabled <==>
      (flag.Some? && |flag.value| == 4 && forall i :: 0 <= i < 4 ==> LowerChar(flag.value[i]) == "true"[i])
  {
    var v := Lower(flag.GetOr("false"));
    assert v == "true" <==> |v| == 4 && forall i :: 0 <= i < 4 ==> v[i] == "true"[i];
    v == "true"
  }

  /** `verify_api_key`: every request passes when auth is off; otherwise 401 without a key, 403 for an unknown one. */
  function VerifyApiKey(enabled: bool, allowed: set<string>, key: Option<string>): (r: Result<bool, HttpError>)
    ensures !enabled ==> r == Ok(true)
    ensures enabled && (key.None? || key.value == []) ==>
      r == Err(HttpError(401, "Missing API key. Include 'X-API-Key' header."))
    ensures enabled && key.Some? && key.value != [] && key.value !in allowed ==>
      r == Err(HttpError(403, "Invalid API key"))
    ensures r.Ok? <==> !enabled || (key.Some? && key.value != [] && key.value in allowed)
    ensures r.Ok? ==> r.value
  {
    if !enabled then Ok(true)
    else if key.None? || key.value == [] then Err(HttpError(401, "Missing API key. Include 'X-API-Key' header."))
    else if key.value !in allowed then Err(HttpError(403, "Invalid API key"))
    else Ok(true)
  }

  /**
   * Over the configuration read from the environment, a request passes exactly when
   * auth is off or it carries one of the configured keys: no configured key is
   * empty, so the 401 branch never rejects a configured key.
   */
  lemma KeyCheckAgainstEnvironment(apiKeys: Option<string>, enableAuth: Option<string>, key: Option<string>)
    ensures VerifyApiKey(AuthEnabled(enableAuth), AllowedKeys(apiKeys), key).Ok?
      <==> !AuthEnabled(enableAuth) || (key.Some? && key.value in AllowedKeys(apiKeys))
  {
  }

  // ============ /evaluate ============

  /** `request.judge_model or MistralModel.MISTRAL_LARGE`. */
  function JudgeOf(requested: Option<MistralModel>): (judge: MistralModel)
    ensures requested.Some? ==> judge == requested.value
    ensures requested.None? ==> judge == MistralLarge
  {
    requested.GetOr(MistralLarge)
  }

  /**
   * `max(range(n), key=...)`: the first index holding the largest score (Python's
   * `max` keeps the earlier item on ties).
   */
  function BestIndex(scores: seq<real>): (i: nat)
    requires |scores| >= 1
    ensures i < |scores|
    ensures forall j :: 0 <= j < |scores| ==> scores[j] <= scores[i]
    ensures forall j :: 0 <= j < i ==> scores[j] < scores[i]
  {
    if |scores| == 1 then 0
    else
      var k := BestIndex(scores[..|scores| - 1]);
      if scores[|scores| - 1] > scores[k] then |scores| - 1 else k
  }

  /** One completed run: the model's response, its collector and the judge's score. */
  datatype Trial = Trial(response: string, collector: Collected, quality: QualityScore)

  /**
   * Run `k` followed by its judging: the run may raise (its message becomes a 500),
   * and so may the judge call or the parsing of its reply.
   */
  function TrialAt(run: nat -> Result<(string, Collected), string>, judgeReply: nat -> Result<string, string>, lib: Lib, k: nat)
    : (r: Result<Trial, HttpError>)
    ensures r.Err? ==> r.error.status == 500
    ensures r.Ok? <==> run(k).Ok? && Evaluate(judgeReply(k), lib).Ok?
    ensures run(k).Err? ==> r == Err(HttpError(500, run(k).error))
    ensures run(k).Ok? && judgeReply(k).Err? ==> r == Err(HttpError(500, judgeReply(k).error))
    ensures r.Ok? ==> r.value == Trial(run(k).value.0, run(k).value.1, Evaluate(judgeReply(k), lib).value)
  {
    match run(k)
    case Err(message) => Err(HttpError(500, message))
    case Ok((text, c)) =>
      match Evaluate(judgeReply(k), lib)
      case Err(message) => Err(HttpError(500, message))
      case Ok(q) => Ok(Trial(text, c, q))
  }

  /** The first `n` runs in order, stopping at the first one that raises. */
  function Trials(run: nat -> Result<(string, Collected), string>, judgeReply: nat -> Result<string, string>, lib: Lib, n: nat)
    : (r: Result<seq<Trial>, HttpError>)
    ensures r.Ok? <==> forall k :: 0 <= k < n ==> TrialAt(run, judgeReply, lib, k).Ok?
    ensures r.Ok? ==> |r.value| == n && forall k :: 0 <= k < n ==> TrialAt(run, judgeReply, lib, k) == Ok(r.value[k])
    ensures r.Err? ==> exists k :: 0 <= k < n && TrialAt(run, judgeReply, lib, k) == Err(r.error)
  {
    if n == 0 then Ok([])
    else
      match Trials(run, judgeReply, lib, n - 1)
      case Err(e) => Err(e)
      case Ok(ts) =>
        match TrialAt(run, judgeReply, lib, n - 1)
        case Err(e) => Err(e)
        case Ok(t) => Ok(ts + [t])
  }

  /** The `EvalResult` for one judged run: the judge's score is set on the collector first. */
  function ResultOf(prompt: EvalPrompt, model: MistralModel, judge: MistralModel, t: Trial): (r: EvalResult)
    ensures r.prompt == prompt.prompt && r.response == t.response
    ensures r.model == model.Value() && r.judgeModel == judge.Value()
    ensures r.metrics.latency == t.collector.ToEvalMetrics().latency
    ensures r.metrics.quality == t.quality
    ensures r.metrics.tokens == TokenMetrics(t.collector.inputTokens, t.collector.outputTokens,
                                             t.collector.inputTokens + t.collector.outputTokens)
  {
    EvalResult(prompt.prompt, model.Value(), judge.Value(), t.response,
               t.collector.(qualityScore := Some(t.quality)).ToEvalMetrics(), None)
  }

  /** The multi-run result: every response in run order, the best one, and the variance statistics. */
  function VarianceResultOf(req: EvalRequest, ts: seq<Trial>, v: EvalMetricsWithVariance): (r: EvalResultWithVariance)
    requires |ts| >= 1
    ensures |r.responses| == |ts| && forall i :: 0 <= i < |ts| ==> r.responses[i] == ts[i].response
    ensures r.prompt == req.prompt.prompt && r.model == req.model.Value()
    ensures r.judgeModel == JudgeOf(req.judgeModel).Value()
    ensures r.bestResponse == ts[BestIndex(QualityValues(TrialQualities(ts)))].response
    ensures r.metrics == v
  {
    var responses := seq(|ts|, i requires 0 <= i < |ts| => ts[i].response);
    EvalResultWithVariance(req.prompt.prompt, req.model.Value(), JudgeOf(req.judgeModel).Value(),
                           responses, responses[BestIndex(QualityValues(TrialQualities(ts)))], v, None)
  }

  /** The best response of a multi-run evaluation scored at least as well as every run, and better than every earlier run. */
  lemma BestResponseScoresHighest(req: EvalRequest, ts: seq<Trial>, v: EvalMetricsWithVariance)
    requires |ts| >= 1
    ensures exists b ::
      (0 <= b < |ts| && VarianceResultOf(req, ts, v).bestResponse == ts[b].response
       && (forall j :: 0 <= j < |ts| ==> ts[j].quality.score <= ts[b].quality.score)
       && (forall j :: 0 <= j < b ==> ts[j].quality.score < ts[b].quality.score))
  {
    var b := BestIndex(QualityValues(TrialQualities(ts)));
    assert VarianceResultOf(req, ts, v).bestResponse == ts[b].response;
  }

  datatype Evaluation = Single(result: EvalResult) | Multi(variance: EvalResultWithVariance)

  function TrialCollectors(ts: seq<Trial>): (cs: seq<Collected>)
    ensures |cs| == |ts| && forall i :: 0 <= i < |ts| ==> cs[i] == ts[i].collector
  {
    seq(|ts|, i requires 0 <= i < |ts| => ts[i].collector)
  }

  function TrialQualities(ts: seq<Trial>): (qs: seq<QualityScore>)
    ensures |qs| == |ts| && forall i :: 0 <= i < |ts| ==> qs[i] == ts[i].quality
  {
    seq(|ts|, i requires 0 <= i < |ts| => ts[i].quality)
  }

  /**
   * `evaluate_prompt`: one run gives a plain result; several runs, performed in
   * order, give every response, the best one and the variance statistics. Any
   * exception becomes a 500 carrying its message.
   */
  method EvaluatePrompt(req: EvalRequest, run: nat -> Result<(string, Collected), string>,
                        judgeReply: nat -> Result<string, string>, lib: Lib, stdev: seq<real> -> real)
    returns (r: Result<Evaluation, HttpError>)
    requires req.runs >= 1
    ensures Trials(run, judgeReply, lib, req.runs).Err? ==> r == Err(Trials(run, judgeReply, lib, req.runs).error)
    ensures req.runs == 1 && Trials(run, judgeReply, lib, 1).Ok? ==>
      r == Ok(Single(ResultOf(req.prompt, req.model, JudgeOf(req.judgeModel), Trials(run, judgeReply, lib, 1).value[0])))
    ensures req.runs > 1 && Trials(run, judgeReply, lib, req.runs).Ok? ==>
      var ts := Trials(run, judgeReply, lib, req.runs).value;
      var v := VarianceMetrics(TrialCollectors(ts), TrialQualities(ts), stdev);
      v.Ok? && r == Ok(Multi(VarianceResultOf(req, ts, v.value)))
  {
    if req.runs == 1 {
      var t := TrialAt(run, judgeReply, lib, 0);
      if t.Err? {
        return Err(t.error);
      }
      return Ok(Single(ResultOf(req.prompt, req.model, JudgeOf(req.judgeModel), t.value)));
    }
    var m := EvaluateRuns(req, run, judgeReply, lib, stdev);
    r := if m.Err? then Err(m.error) else Ok(Multi(m.value));
  }

  /** The multi-run branch of `evaluate_prompt`: `runs` runs in order, each judged after it completes. */
  method EvaluateRuns(req: EvalRequest, run: nat -> Result<(string, Collected), string>,
                      judgeReply: nat -> Result<string, string>, lib: Lib, stdev: seq<real> -> real)
    returns (r: Result<EvalResultWithVariance, HttpError>)
    requires req.runs >= 2
    ensures Trials(run, judgeReply, lib, req.runs).Err? ==> r == Err(Trials(run, judgeReply, lib, req.runs).error)
    ensures Trials(run, judgeReply, lib, req.runs).Ok? ==>
      var ts := Trials(run, judgeReply, lib, req.runs).value;
      var v := VarianceMetrics(TrialCollectors(ts), TrialQualities(ts), stdev);
      v.Ok? && r == Ok(VarianceResultOf(req, ts, v.value))
  {
    var trials: seq<Trial> := [];
    var collectors: seq<Collected> := [];
    var qualities: seq<QualityScore> := [];
    for k := 0 to req.runs
      invariant Trials(run, judgeReply, lib, k) == Ok(trials)
      invariant collectors == TrialCollectors(trials) && qualities == TrialQualities(trials)
    {
      var t := TrialAt(run, judgeReply, lib, k);
      TrialsExtend(run, judgeReply, lib, k, trials);
      if t.Err? {
        TrialsFail(run, judgeReply, lib, k + 1, req.runs);
        return Err(t.error);
      }
      TrialsSnoc(trials, t.value);
      trials := trials + [t.value];
      collectors := collectors + [t.value.collector];
      qualities := qualities + [t.value.quality];
    }
    // With two runs or more, `compute_variance_metrics` cannot raise.
    var v := ComputeVarianceMetrics(collectors, qualities, stdev);
    assert |collectors| == |qualities| == req.runs;
    r := Ok(VarianceResultOf(req, trials, v.value));
  }

  /** One more run: it either fails the whole sequence with its error or extends the trials. */
  lemma TrialsExtend(run: nat -> Result<(string, Collected), string>, judgeReply: nat -> Result<string, string>, lib: Lib,
                     k: nat, ts: seq<Trial>)
    requires Trials(run, judgeReply, lib, k) == Ok(ts)
    ensures TrialAt(run, judgeReply, lib, k).Err? ==>
      Trials(run, judgeReply, lib, k + 1) == Err(TrialAt(run, judgeReply, lib, k).error)
    ensures TrialAt(run, judgeReply, lib, k).Ok? ==>
      Trials(run, judgeReply, lib, k + 1) == Ok(ts + [TrialAt(run, judgeReply, lib, k).value])
  {
  }

  lemma TrialsSnoc(ts: seq<Trial>, t: Trial)
    ensures TrialCollectors(ts + [t]) == TrialCollectors(ts) + [t.collector]
    ensures TrialQualities(ts + [t]) == TrialQualities(ts) + [t.quality]
  {
    assert TrialCollectors(ts + [t])[..|ts|] == TrialCollectors(ts);
    assert TrialQualities(ts + [t])[..|ts|] == TrialQualities(ts);
  }

  /** Once a run fails, every longer sequence of runs fails with the same error. */
  lemma {:induction false} TrialsFail(run: nat -> Result<(string, Collected), string>, judgeReply: nat -> Result<string, string>,
                                      lib: Lib, k: nat, n: nat)
    requires k <= n && Trials(run, judgeReply, lib, k).Err?
    ensures Trials(run, judgeReply, lib, n) == Trials(run, judgeReply, lib, k)
    decreases n - k
  {
    if k < n {
      TrialsErrStep(run, judgeReply, lib, k);
      TrialsFail(run, judgeReply, lib, k + 1, n);
    }
  }

  /** One more run after a failure keeps the failure. */
  lemma TrialsErrStep(run: nat -> Result<(string, Collected), string>, judgeReply: nat -> Result<string, string>, lib: Lib, k: nat)
    requires Trials(run, judgeReply, lib, k).Err?
    ensures Trials(run, judgeReply, lib, k + 1) == Trials(run, judgeReply, lib, k)
  {
  }

  // ============ /evaluate/batch ============

  /**
   * `evaluate_batch`: the batch runs (see Runner.RunBatch), then each prompt is
   * paired with its entry in order and judged; a failed run's "Error: ..." entry is
   * judged and aggregated like any other. A raising judge parse becomes a 500.
   */
  method EvaluateBatch(req: BatchEvalRequest, run: nat -> Result<(string, Collected), string>,
                       judgeReply: nat -> Result<string, string>, lib: Lib)
    returns (r: Result<BatchEvalResult, HttpError>)
    ensures r.Ok? <==> forall k :: 0 <= k < |req.prompts| ==> Evaluate(judgeReply(k), lib).Ok?
    ensures r.Ok? ==> |r.value.results| == |req.prompts|
    ensures r.Ok? ==> forall k :: 0 <= k < |req.prompts| ==>
      r.value.results[k] == ResultOf(req.prompts[k], req.model, JudgeOf(req.judgeModel),
                                     Trial(BatchEntry(run(k)).0, BatchEntry(run(k)).1,
                                           Evaluate(judgeReply(k), lib).value))
    ensures r.Ok? ==>
      r.value.summary == AggregateMetrics(MetricsOf(r.value.results))
    ensures r.Err? ==> r.error.status == 500
    ensures r.Err? ==> exists k :: 0 <= k < |req.prompts| && Evaluate(judgeReply(k), lib) == Err(r.error.detail)
                                   && forall j :: 0 <= j < k ==> Evaluate(judgeReply(j), lib).Ok?
  {
    var n := |req.prompts|;
    var outcomes := seq(n, k requires 0 <= k < n => run(k));
    var entries := RunBatch(outcomes);
    var results := JudgeEntries(req.prompts, req.model, JudgeOf(req.judgeModel), entries, judgeReply, lib);
    match results
    case Err(e) =>
      r := Err(e);
    case Ok(rs) =>
      forall k | 0 <= k < n
        ensures rs[k] == ResultOf(req.prompts[k], req.model, JudgeOf(req.judgeModel),
                                  Trial(BatchEntry(run(k)).0, BatchEntry(run(k)).1,
                                        Evaluate(judgeReply(k), lib).value))
      {
        assert entries[k] == BatchEntry(outcomes[k]);
      }
      r := Ok(BatchEvalResult(rs, AggregateMetrics(MetricsOf(rs))));
  }

  /**
   * The loop of `evaluate_batch` over (prompt, entry) pairs: the judge is called
   * for each entry in order, and the first call or parse that raises ends the
   * request with a 500.
   */
  method JudgeEntries(prompts: seq<EvalPrompt>, model: MistralModel, judge: MistralModel,
                      entries: seq<(string, Collected)>, judgeReply: nat -> Result<string, string>, lib: Lib)
    returns (r: Result<seq<EvalResult>, HttpError>)
    requires |entries| == |prompts|
    ensures r.Ok? <==> forall k :: 0 <= k < |prompts| ==> Evaluate(judgeReply(k), lib).Ok?
    ensures r.Ok? ==> |r.value| == |prompts| && forall k :: 0 <= k < |prompts| ==>
      r.value[k] == ResultOf(prompts[k], model, judge,
                             Trial(entries[k].0, entries[k].1, Evaluate(judgeReply(k), lib).value))
    ensures r.Err? ==> r.error.status == 500
    ensures r.Err? ==> exists k :: 0 <= k < |prompts| && Evaluate(judgeReply(k), lib) == Err(r.error.detail)
                                   && forall j :: 0 <= j < k ==> Evaluate(judgeReply(j), lib).Ok?
  {
    var results: seq<EvalResult> := [];
    for k := 0 to |prompts|
      invariant |results| == k
      invariant forall j :: 0 <= j < k ==> Evaluate(judgeReply(j), lib).Ok?
      invariant forall j :: 0 <= j < k ==>
        results[j] == ResultOf(prompts[j], model, judge,
                               Trial(entries[j].0, entries[j].1, Evaluate(judgeReply(j), lib).value))
    {
      var (text, c) := entries[k];
      match Evaluate(judgeReply(k), lib)
      case Err(message) =>
        return Err(HttpError(500, message));
      case Ok(q) =>
        results := results + [ResultOf(prompts[k], model, judge, Trial(text, c, q))];
    }
    r := Ok(results);
  }

  /** `[r.metrics for r in results]`. */
  function MetricsOf(results: seq<EvalResult>): (ms: seq<EvalMetrics>)
    ensures |ms| == |results| && forall i :: 0 <= i < |results| ==> ms[i] == results[i].metrics
  {
    seq(|results|, i requires 0 <= i < |results| => results[i].metrics)
  }

  /** The (response, collector) a batch keeps for one run: the run's own, or the "Error: " entry. */
  function BatchEntry(o: Result<(string, Collected), string>): (string, Collected)
  {
    match o
    case Ok(entry) => entry
    case Err(message) => FailedEntry(message)
  }

  /** A batch prompt whose run raised still gets a result: an "Error: " response with no tokens, scored by the judge. */
  lemma FailedRunStaysInBatch(prompt: EvalPrompt, model: MistralModel, judge: MistralModel, message: string, q: QualityScore)
    ensures var e := BatchEntry(Err(message));
      var res := ResultOf(prompt, model, judge, Trial(e.0, e.1, q));
      res.response == "Error: " + message && res.metrics.tokens == TokenMetrics(0, 0, 0)
      && res.metrics.quality == q && res.metrics.latency.totalMs == 0.0
  {
    assert BatchEntry(Err(message)).1 == Unmeasured;
    assert Unmeasured.TotalLatencyMs() == 0.0;
    assert Round(0.0, 2) == 0.0;
  }

  // ============ /compare ============

  /** The winner's id: model A's when the comparison's overall winner is "a", model B's otherwise. */
  function WinnerId(req: CompareRequest, overall: Side): (id: string)
    ensures id == req.modelA.Value() || id == req.modelB.Value()
    ensures overall == B ==> id == req.modelB.Value()
    ensures overall == A ==> id == req.modelA.Value()
  {
    if overall == A then req.modelA.Value() else req.modelB.Value()
  }

  /**
   * `compare_models`: both models run, then both replies are judged, in that order;
   * the first exception becomes a 500.
   */
  function CompareModels(req: CompareRequest, runA: Result<(string, Collected), string>,
                         runB: Result<(string, Collected), string>,
                         replyA: Result<string, string>, replyB: Result<string, string>, lib: Lib)
    : (r: Result<CompareResult, HttpError>)
    ensures runA.Err? ==> r == Err(HttpError(500, runA.error))
    ensures runA.Ok? && runB.Err? ==> r == Err(HttpError(500, runB.error))
    ensures runA.Ok? && runB.Ok? && Evaluate(replyA, lib).Err? ==> r == Err(HttpError(500, Evaluate(replyA, lib).error))
    ensures runA.Ok? && runB.Ok? && Evaluate(replyA, lib).Ok? && Evaluate(replyB, lib).Err? ==>
      r == Err(HttpError(500, Evaluate(replyB, lib).error))
    ensures r.Ok? <==>
      (runA.Ok? && runB.Ok? && Evaluate(replyA, lib).Ok? && Evaluate(replyB, lib).Ok?)
    ensures r.Ok? ==>
      r.value.prompt == req.prompt.prompt
      && r.value.modelA == ResultOf(req.prompt, req.modelA, JudgeOf(req.judgeModel),
                                    Trial(runA.value.0, runA.value.1, Evaluate(replyA, lib).value))
      && r.value.modelB == ResultOf(req.prompt, req.modelB, JudgeOf(req.judgeModel),
                                    Trial(runB.value.0, runB.value.1, Evaluate(replyB, lib).value))
    ensures r.Ok? ==>
      (r.value.winner.Some?
       && (r.value.winner.value == req.modelA.Value() || r.value.winner.value == req.modelB.Value()))
    ensures r.Ok? && WeightedScore(r.value.modelA.metrics) > WeightedScore(r.value.modelB.metrics) ==>
      r.value.winner == Some(req.modelA.Value())
    ensures r.Ok? && WeightedScore(r.value.modelA.metrics) <= WeightedScore(r.value.modelB.metrics) ==>
      r.value.winner == Some(req.modelB.Value())
    ensures r.Ok? ==>
      (r.value.modelA.metrics.quality.score == r.value.comparisonSummary.aScore
       && r.value.modelB.metrics.quality.score == r.value.comparisonSummary.bScore
       && r.value.comparisonSummary.winner == r.value.winner.value)
    ensures r.Ok? ==>
      r.value.comparisonSummary == CompareSummary(
        r.value.winner.value,
        CompareMetrics(r.value.modelA.metrics, r.value.modelB.metrics).confidence,
        r.value.modelA.metrics.quality.score, r.value.modelB.metrics.quality.score,
        r.value.modelA.metrics.latency.totalMs, r.value.modelB.metrics.latency.totalMs)
  {
    match runA
    case Err(m) => Err(HttpError(500, m))
    case Ok((textA, cA)) =>
      match runB
      case Err(m) => Err(HttpError(500, m))
      case Ok((textB, cB)) =>
        match Evaluate(replyA, lib)
        case Err(message) => Err(HttpError(500, message))
        case Ok(qA) =>
          match Evaluate(replyB, lib)
          case Err(message) => Err(HttpError(500, message))
          case Ok(qB) =>
            var judge := JudgeOf(req.judgeModel);
            var resA := ResultOf(req.prompt, req.modelA, judge, Trial(textA, cA, qA));
            var resB := ResultOf(req.prompt, req.modelB, judge, Trial(textB, cB, qB));
            var cmp := CompareMetrics(resA.metrics, resB.metrics);
            var winner := WinnerId(req, cmp.overallWinner);
            Ok(CompareResult(req.prompt.prompt, resA, resB, Some(winner),
                             CompareSummary(winner, cmp.confidence, cmp.aScore, cmp.bScore, cmp.aMs, cmp.bMs)))
  }

  /** Comparing a model with itself on identical runs and verdicts names model B: a tie goes to B. */
  lemma CompareTieGoesToB(req: CompareRequest, run: Result<(string, Collected), string>,
                            reply: Result<string, string>, lib: Lib)
    requires CompareModels(req, run, run, reply, reply, lib).Ok?
    ensures CompareModels(req, run, run, reply, reply, lib).value.winner == Some(req.modelB.Value())
  {
  }

  // ============ Human-in-the-loop ratings ============

  /** One stored human rating, as the rating endpoint builds it. */
  datatype StoredRating = StoredRating(evaluationId: string, rating: int, comment: Option<string>, raterId: Option<string>)

  /** The rating values of a list of stored ratings, in order. */
  function RatingValues(rs: seq<StoredRating>): (vs: seq<int>)
    ensures |vs| == |rs| && forall i :: 0 <= i < |rs| ==> vs[i] == rs[i].rating
  {
    seq(|rs|, i requires 0 <= i < |rs| => rs[i].rating)
  }

  /** All rating values of the lists under `ids`, list after list. */
  function Flatten(ids: seq<string>, store: map<string, seq<StoredRating>>): seq<int>
    requires forall id :: id in ids ==> id in store
  {
    if ids == [] then []
    else Flatten(ids[..|ids| - 1], store) + RatingValues(store[ids[|ids| - 1]])
  }

  /** The summed lengths of the lists under `ids`. */
  function ListLengths(ids: seq<string>, store: map<string, seq<StoredRating>>): nat
    requires forall id :: id in ids ==> id in store
  {
    if ids == [] then 0
    else ListLengths(ids[..|ids| - 1], store) + |store[ids[|ids| - 1]]|
  }

  /** Collecting the lists loses and adds nothing: there are as many values as the lists hold ratings. */
  lemma {:induction false} FlattenLength(ids: seq<string>, store: map<string, seq<StoredRating>>)
    requires forall id :: id in ids ==> id in store
    ensures |Flatten(ids, store)| == ListLengths(ids, store)
    decreases |ids|
  {
    if ids != [] {
      FlattenLength(ids[..|ids| - 1], store);
    }
  }

  /** How often `k` occurs in `xs`. */
  function Count(xs: seq<int>, k: int): (n: nat)
    ensures n <= |xs|
    ensures n > 0 <==> k in xs
  {
    if xs == [] then 0 else Count(xs[..|xs| - 1], k) + (if xs[|xs| - 1] == k then 1 else 0)
  }

  /**
   * `sorted(Counter(all).items())` for ratings between 1 and 5: each rating value
   * that occurs, with its number of occurrences, in ascending order of value.
   */
  function Distribution(xs: seq<int>, from: int): (d: seq<(int, nat)>)
    requires 1 <= from <= 6
    ensures forall i :: 0 <= i < |d| ==> from <= d[i].0 <= 5 && d[i].1 == Count(xs, d[i].0) && d[i].1 > 0
    ensures forall i, j :: 0 <= i < j < |d| ==> d[i].0 < d[j].0
    decreases 6 - from
  {
    if from == 6 then []
    else
      var rest := Distribution(xs, from + 1);
      if Count(xs, from) > 0 then [(from, Count(xs, from))] + rest else rest
  }

  /** Every rating value from `from` to 5 that occurs is listed. */
  lemma {:induction false} DistributionCovers(xs: seq<int>, from: int, k: int)
    requires 1 <= from <= k <= 5 && k in xs
    ensures exists i :: 0 <= i < |Distribution(xs, from)| && Distribution(xs, from)[i].0 == k
    decreases 6 - from
  {
    var d := Distribution(xs, from);
    if k == from {
      assert d[0].0 == k;
    } else {
      DistributionCovers(xs, from + 1, k);
      var rest := Distribution(xs, from + 1);
      var i :| 0 <= i < |rest| && rest[i].0 == k;
      if Count(xs, from) > 0 {
        assert d[i + 1].0 == k;
      } else {
        assert d[i].0 == k;
      }
    }
  }

  function CountTotal(d: seq<(int, nat)>): nat
  {
    if d == [] then 0 else d[0].1 + CountTotal(d[1..])
  }

  /** The number of values of `xs` from `from` up to 5. */
  function CountFrom(xs: seq<int>, from: int): nat
    requires 1 <= from <= 6
    decreases 6 - from
  {
    if from == 6 then 0 else Count(xs, from) + CountFrom(xs, from + 1)
  }

  lemma {:induction false} DistributionTotal(xs: seq<int>, from: int)
    requires 1 <= from <= 6
    ensures CountTotal(Distribution(xs, from)) == CountFrom(xs, from)
    decreases 6 - from
  {
    if from < 6 {
      DistributionTotal(xs, from + 1);
      var rest := Distribution(xs, from + 1);
      if Count(xs, from) > 0 {
        assert ([(from, Count(xs, from))] + rest)[1..] == rest;
      }
    }
  }

  lemma {:induction false} CountFromSnoc(xs: seq<int>, x: int, from: int)
    requires 1 <= from <= 6
    ensures CountFrom(xs + [x], from) == CountFrom(xs, from) + (if from <= x <= 5 then 1 else 0)
    decreases 6 - from
  {
    if from < 6 {
      assert (xs + [x])[..|xs + [x]| - 1] == xs;
      CountFromSnoc(xs, x, from + 1);
    }
  }

  lemma {:induction false} CountFromAll(xs: seq<int>)
    requires forall i :: 0 <= i < |xs| ==> 1 <= xs[i] <= 5
    ensures CountFrom(xs, 1) == |xs|
    decreases |xs|
  {
    if xs != [] {
      var init := xs[..|xs| - 1];
      assert xs == init + [xs[|xs| - 1]];
      CountFromAll(init);
      CountFromSnoc(init, xs[|xs| - 1], 1);
    } else {
      assert CountFrom(xs, 6) == 0;
      assert CountFrom(xs, 1) == 0;
    }
  }

  /** The statistics `get_rating_statistics` reports. */
  datatype RatingStats = RatingStats(
    totalEvaluations: nat,
    totalRatings: nat,
    averageRating: Option<real>,
    distribution: seq<(int, nat)>)

  /** The mean rating: multiplied by the number of ratings it gives back their sum. */
  function AverageOf(all: seq<int>): (avg: real)
    requires all != []
    ensures avg * |all| as real == SumInt(all) as real
  {
    AverageTimesCount(SumInt(all), |all|);
    SumInt(all) as real / |all| as real
  }

  /** The statistics over the collected rating values of `evaluations` rated evaluations. */
  function StatsOf(all: seq<int>, evaluations: nat): (stats: RatingStats)
    ensures all == [] ==> stats == RatingStats(0, 0, None, [])
    ensures all != [] ==>
      stats.totalEvaluations == evaluations && stats.totalRatings == |all|
      && stats.averageRating == Some(AverageOf(all)) && stats.distribution == Distribution(all, 1)
  {
    if all == [] then RatingStats(0, 0, None, [])
    else
      RatingStats(evaluations, |all|, Some(AverageOf(all)), Distribution(all, 1))
  }

  /**
   * Ratings between 1 and 5: the distribution's counts add up to the number of
   * ratings, and the average lies between 1 and 5.
   */
  lemma StatsConsistent(all: seq<int>, evaluations: nat)
    requires all != []
    requires forall i :: 0 <= i < |all| ==> 1 <= all[i] <= 5
    ensures CountTotal(StatsOf(all, evaluations).distribution) == StatsOf(all, evaluations).totalRatings
    ensures 1.0 <= StatsOf(all, evaluations).averageRating.value <= 5.0
  {
    DistributionTotal(all, 1);
    CountFromAll(all);
    AverageBetween(all);
  }

  lemma AverageTimesCount(total: int, n: nat)
    requires n > 0
    ensures total as real / n as real * n as real == total as real
  {
    DivMul(total as real, n as real);
  }

  lemma AverageBetween(all: seq<int>)
    requires all != []
    requires forall i :: 0 <= i < |all| ==> 1 <= all[i] <= 5
    ensures 1.0 <= SumInt(all) as real / |all| as real <= 5.0
  {
    SumIntBetween(all);
    var n, t := |all|, SumInt(all);
    assert n as real * 5.0 == (5 * n) as real;
    DivBounds(t as real, n as real, 1.0, 5.0);
  }

  lemma {:induction false} SumIntBetween(xs: seq<int>)
    requires forall i :: 0 <= i < |xs| ==> 1 <= xs[i] <= 5
    ensures |xs| <= SumInt(xs) <= 5 * |xs|
    decreases |xs|
  {
    if xs != [] {
      SumIntBetween(xs[1..]);
    }
  }

  /** Ids are listed once each, exactly the keys; every list is non-empty and holds ratings 1-5 for its own id. */
  ghost predicate StoreValid(ids: seq<string>, ratings: map<string, seq<StoredRating>>)
  {
    (forall i, j :: 0 <= i < j < |ids| ==> ids[i] != ids[j])
    && (forall id :: id in ratings <==> id in ids)
    && (forall id :: id in ratings ==> ratings[id] != [])
    && (forall id, r :: id in ratings && r in ratings[id] ==> 1 <= r.rating <= 5 && r.evaluationId == id)
  }

  /** Appending a rating 1-5 for its own id to that id's list, new ids listed last, keeps the store valid. */
  lemma StoreAdd(ids: seq<string>, ratings: map<string, seq<StoredRating>>, entry: StoredRating)
    requires StoreValid(ids, ratings)
    requires 1 <= entry.rating <= 5
    ensures var id := entry.evaluationId;
      StoreValid(if id in ratings then ids else ids + [id],
                 ratings[id := (if id in ratings then ratings[id] else []) + [entry]])
  {
    var id := entry.evaluationId;
    var ids' := if id in ratings then ids else ids + [id];
    var old' := if id in ratings then ratings[id] else [];
    if id !in ratings {
      UniqueSnoc(ids, id);
    }
    assert forall k :: k in ratings[id := old' + [entry]] <==> k in ids';
    RatingsAppend(ratings, ratings[id := old' + [entry]], id, old', entry);
  }

  lemma UniqueSnoc(ids: seq<string>, id: string)
    requires forall i, j :: 0 <= i < j < |ids| ==> ids[i] != ids[j]
    requires id !in ids
    ensures forall i, j :: 0 <= i < j < |ids + [id]| ==> (ids + [id])[i] != (ids + [id])[j]
  {
  }

  /** Appending a rating 1-5 for its own id keeps every listed rating in 1..5 and under its own id. */
  lemma RatingsAppend(ratings: map<string, seq<StoredRating>>, updated: map<string, seq<StoredRating>>,
                      id: string, current: seq<StoredRating>, entry: StoredRating)
    requires forall k, r :: k in ratings && r in ratings[k] ==> 1 <= r.rating <= 5 && r.evaluationId == k
    requires current == (if id in ratings then ratings[id] else []) && updated == ratings[id := current + [entry]]
    requires 1 <= entry.rating <= 5 && entry.evaluationId == id
    ensures forall k, r :: k in updated && r in updated[k] ==> 1 <= r.rating <= 5 && r.evaluationId == k
  {
    forall k: string, r: StoredRating | k in updated && r in updated[k]
      ensures 1 <= r.rating <= 5 && r.evaluationId == k
    {
      if k == id && r !in current {
        assert r == entry;
      }
    }
  }



  /**
   * `human_ratings_store`: a dictionary from evaluation id to the ratings submitted
   * for it. `ids` keeps the dictionary's insertion order, which is the order its
   * lists are visited.
   */
  class RatingStore {
    var ids: seq<string>
    var ratings: map<string, seq<StoredRating>>

    ghost predicate Valid()
      reads this
    {
      StoreValid(ids, ratings)
    }

    constructor()
      ensures Valid() && ids == [] && ratings == map[]
    {
      ids := [];
      ratings := map[];
    }

    /** `get_human_ratings`: the ratings stored for an id, oldest first; none for an unknown id. */
    function Get(id: string): (rs: seq<StoredRating>)
      reads this
      ensures id !in ratings ==> rs == []
      ensures id in ratings ==> rs == ratings[id]
    {
      if id in ratings then ratings[id] else []
    }

    /**
     * `submit_human_rating` with the rating the endpoint accepts: a value outside
     * 1..5 is refused (422) before anything is stored; otherwise the rating is
     * appended to its id's list, which is created when absent.
     */
    method Submit(id: string, rating: int, comment: Option<string>, raterId: Option<string>)
      returns (r: Result<StoredRating, HttpError>)
      requires Valid()
      modifies this
      ensures Valid()
      ensures !(1 <= rating <= 5) ==> r.Err? && r.error.status == 422 && ids == old(ids) && ratings == old(ratings)
      ensures 1 <= rating <= 5 ==>
        (r == Ok(StoredRating(id, rating, comment, raterId))
         && ratings == old(ratings)[id := old(Get(id)) + [r.value]]
         && ids == (if id in old(ratings) then old(ids) else old(ids) + [id]))
    {
      if !(1 <= rating <= 5) {
        return Err(HttpError(422, "rating must be between 1 and 5"));
      }
      var entry := StoredRating(id, rating, comment, raterId);
      StoreAdd(ids, ratings, entry);
      // A new id gets an empty list first; the rating is then appended to the id's list.
      var current := if id in ratings then ratings[id] else [];
      if id !in ratings {
        ids := ids + [id];
      }
      ratings := ratings[id := current + [entry]];
      r := Ok(entry);
    }

    /** Every stored rating value, list after list in insertion order. */
    function AllRatings(): seq<int>
      reads this
      requires Valid()
    {
      Flatten(ids, ratings)
    }

    /** `get_rating_statistics`: the ratings are collected list by list, then summarised. */
    method Statistics() returns (s: RatingStats)
      requires Valid()
      ensures s == StatsOf(AllRatings(), |ids|)
    {
      var all: seq<int> := [];
      for i := 0 to |ids|
        invariant all == Flatten(ids[..i], ratings)
      {
        assert ids[..i + 1][..i] == ids[..i];
        all := all + RatingValues(ratings[ids[i]]);
      }
      assert ids[..|ids|] == ids;
      if all == [] {
        return RatingStats(0, 0, None, []);
      }
      s := RatingStats(|ids|, |all|, Some(SumInt(all) as real / |all| as real), Distribution(all, 1));
    }
  }

  lemma {:induction false} FlattenInRange(ids: seq<string>, store: map<string, seq<StoredRating>>)
    requires forall id :: id in ids ==> id in store && store[id] != []
    requires forall id, r :: id in store && r in store[id] ==> 1 <= r.rating <= 5
    ensures var all := Flatten(ids, store);
      (forall i :: 0 <= i < |all| ==> 1 <= all[i] <= 5) && (all == [] <==> ids == [])
    decreases |ids|
  {
    if ids != [] {
      var last := ids[|ids| - 1];
      FlattenInRange(ids[..|ids| - 1], store);
      var vs := RatingValues(store[last]);
      assert forall i :: 0 <= i < |vs| ==> store[last][i] in store[last];
    }
  }

  /**
   * The store's statistics: nothing stored gives zero totals, no average and an
   * empty distribution; otherwise the distribution's counts add up to the number
   * of ratings and the average lies between 1 and 5.
   */
  lemma StoreStatistics(store: RatingStore)
    requires store.Valid()
    ensures store.ids == [] ==> StatsOf(store.AllRatings(), |store.ids|) == RatingStats(0, 0, None, [])
    ensures store.ids != [] ==>
      var s := StatsOf(store.AllRatings(), |store.ids|);
      s.totalEvaluations == |store.ratings| && CountTotal(s.distribution) == s.totalRatings
      && 1.0 <= s.averageRating.value <= 5.0
    ensures StatsOf(store.AllRatings(), |store.ids|).totalRatings == ListLengths(store.ids, store.ratings)
  {
    FlattenLength(store.ids, store.ratings);
    FlattenInRange(store.ids, store.ratings);
    if store.ids != [] {
      StatsConsistent(store.AllRatings(), |store.ids|);
      IdsCountKeys(store.ids, store.ratings.Keys);
    }
  }

  /** A duplicate-free listing of a set has the set's size. */
  lemma {:induction false} IdsCountKeys(ids: seq<string>, keys: set<string>)
    requires forall i, j :: 0 <= i < j < |ids| ==> ids[i] != ids[j]
    requires forall id :: id in keys <==> id in ids
    ensures |keys| == |ids|
    decreases |ids|
  {
    if ids != [] {
      var last := ids[|ids| - 1];
      var init := ids[..|ids| - 1];
      assert last !in init;
      assert forall id :: id in keys - {last} <==> id in init;
      IdsCountKeys(init, keys - {last});
    }
  }

  /**
   * The rating endpoint as written builds its HumanRating from `evaluation_id` and
   * `rating`, neither of which the record declares, and without the `score` it
   * requires: validation fails on every call, so nothing is ever stored. (A rating
   * outside 1..5 is refused with 422 by the query check before the body runs; the
   * body's outcome does not depend on the rating at all.)
   */
  function SubmitAsWritten(evaluationId: string, rating: int, comment: Option<string>, raterId: Option<string>)
    : (r: Result<HumanRating, Invalid>)
    ensures r.Err? ==> r.error.fields == ["score"]
  {
    NewHumanRating(None, comment, raterId)
  }

  lemma SubmitAsWrittenAlwaysFails(evaluationId: string, rating: int, comment: Option<string>, raterId: Option<string>)
    ensures SubmitAsWritten(evaluationId, rating, comment, raterId) == Err(Invalid(["score"]))
  {
  }

  // ============ Model descriptions ============

  const ModelDescriptions: map<MistralModel, string> := map[
    MistralTiny := "Fastest, most cost-effective",
    MistralSmall := "Good balance of speed and quality",
    MistralMedium := "Higher quality, moderate cost",
    MistralLarge := "Highest quality, highest cost",
    OpenMistral7b := "Open source 7B model",
    OpenMixtral8x7b := "Open source MoE model",
    OpenMixtral8x22b := "Large open source MoE model",
    Codestral := "Specialized for code generation"]

  /** `_get_model_description`: the table's entry, or "Mistral model" for a model outside it. */
  function ModelDescription(m: MistralModel): (d: string)
    ensures m in ModelDescriptions ==> d == ModelDescriptions[m]
    ensures m !in ModelDescriptions ==> d == "Mistral model"
  {
    if m in ModelDescriptions then ModelDescriptions[m] else "Mistral model"
  }

  /** Every declared model has its own entry, so the fallback text is never used. */
  lemma EveryModelDescribed(m: MistralModel)
    ensures m in ModelDescriptions && ModelDescription(m) != "Mistral model"
  {
    match m
    case MistralTiny =>
    case MistralSmall =>
    case MistralMedium =>
    case MistralLarge =>
    case OpenMistral7b =>
    case OpenMixtral8x7b =>
    case OpenMixtral8x22b =>
    case Codestral =>
  }
}
