/**
 * Metrics collection and statistics (mistral-eval-platform/app/metrics.py):
 * the per-call collector, batch aggregation, pairwise comparison, the
 * multi-run variance summary and the percentile helper.
 */
module Metrics {
  import opened Common
  import opened Numeric
  import opened Json
  import opened Schemas

  // ============ The collector ============

  /**
   * The fields of a MetricsCollector at one moment. Timestamps are the clock
   * readings (in seconds) the collector stored; None is "not yet measured".
   */
  datatype Collected = Collected(
    startTime: Option<real>,
    endTime: Option<real>,
    firstTokenTime: Option<real>,
    inputTokens: int,
    outputTokens: int,
    qualityScore: Option<QualityScore>)
  {
    /** `total_latency_ms`: 0.0 unless both ends of the measurement are known. */
    function TotalLatencyMs(): (ms: real)
      ensures startTime.None? || endTime.None? ==> ms == 0.0
      ensures startTime.Some? && endTime.Some? ==> (ms >= 0.0 <==> endTime.value >= startTime.value)
    {
      if startTime.None? || endTime.None? then 0.0
      else (endTime.value - startTime.value) * 1000.0
    }

    /** `time_to_first_token_ms`: None unless the start and the first token are known. */
    function TimeToFirstTokenMs(): (ms: Option<real>)
      ensures ms.Some? <==> startTime.Some? && firstTokenTime.Some?
      ensures ms.Some? ==> (ms.value >= 0.0 <==> firstTokenTime.value >= startTime.value)
    {
      if startTime.None? || firstTokenTime.None? then None
      else Some((firstTokenTime.value - startTime.value) * 1000.0)
    }

    /** `tokens_per_second`: None when a timestamp is missing or the duration is not positive. */
    function TokensPerSecond(): (tps: Option<real>)
      ensures tps.Some? <==> startTime.Some? && endTime.Some? && endTime.value > startTime.value
      ensures tps.Some? && outputTokens >= 0 ==> tps.value >= 0.0
    {
      if startTime.None? || endTime.None? then None
      else
        var duration := endTime.value - startTime.value;
        if duration <= 0.0 then None else Some(outputTokens as real / duration)
    }

    /** `total_tokens`. */
    function TotalTokens(): (n: int)
      ensures outputTokens >= 0 ==> n >= inputTokens
      ensures inputTokens >= 0 ==> n >= outputTokens
    {
      inputTokens + outputTokens
    }

    /**
     * `to_eval_metrics`: a zero (falsy) TTFT or speed is reported as None, and an
     * unevaluated collector reports quality 0.0 "Not evaluated".
     */
    function ToEvalMetrics(): (m: EvalMetrics)
      ensures m.tokens == TokenMetrics(inputTokens, outputTokens, inputTokens + outputTokens)
      ensures m.latency.totalMs == Round(TotalLatencyMs(), 2)
      ensures Truthy(TimeToFirstTokenMs()) ==>
        m.latency.timeToFirstTokenMs == Some(Round(TimeToFirstTokenMs().value, 2))
      ensures Truthy(TokensPerSecond()) ==> m.latency.tokensPerSecond == Some(Round(TokensPerSecond().value, 1))
      ensures m.latency.timeToFirstTokenMs.None? <==> !Truthy(TimeToFirstTokenMs())
      ensures m.latency.tokensPerSecond.None? <==> !Truthy(TokensPerSecond())
      ensures qualityScore.None? ==> m.quality == QualityScore(0.0, "Not evaluated", map[])
      ensures qualityScore.Some? ==> m.quality == qualityScore.value
    {
      var ttft := TimeToFirstTokenMs();
      var tps := TokensPerSecond();
      EvalMetrics(
        TokenMetrics(inputTokens, outputTokens, TotalTokens()),
        LatencyMetrics(
          Round(TotalLatencyMs(), 2),
          if Truthy(ttft) then Some(Round(ttft.value, 2)) else None,
          if Truthy(tps) then Some(Round(tps.value, 1)) else None),
        if qualityScore.Some? then qualityScore.value else QualityScore(0.0, "Not evaluated", map[]))
    }
  }

  /** A fresh `MetricsCollector()`: nothing measured, no tokens, no quality. */
  const Unmeasured := Collected(None, None, None, 0, 0, None)

  /** Python truthiness of an optional float: present and non-zero. */
  predicate Truthy(x: Option<real>)
  {
    x.Some? && x.value != 0.0
  }

  /**
   * The speed is defined exactly when the measured duration is positive, and then
   * it is the rate that turns the measured latency back into the output count.
   */
  lemma TokensPerSecondInvertsLatency(c: Collected)
    ensures c.TokensPerSecond().Some? <==>
      (c.startTime.Some? && c.endTime.Some? && c.endTime.value > c.startTime.value)
    ensures c.TokensPerSecond().Some? ==>
      (c.TotalLatencyMs() > 0.0 && c.TokensPerSecond().value * c.TotalLatencyMs() == c.outputTokens as real * 1000.0)
  {
    if c.TokensPerSecond().Some? {
      var d := c.endTime.value - c.startTime.value;
      DivMul(c.outputTokens as real, d);
      assert c.TokensPerSecond().value * c.TotalLatencyMs() == (c.outputTokens as real / d * d) * 1000.0;
    }
  }

  /** When the first token arrives between start and end, TTFT is between 0 and the total latency. */
  lemma FirstTokenWithinLatency(c: Collected)
    requires c.startTime.Some? && c.firstTokenTime.Some? && c.endTime.Some?
    requires c.startTime.value <= c.firstTokenTime.value <= c.endTime.value
    ensures c.TimeToFirstTokenMs().Some?
    ensures 0.0 <= c.TimeToFirstTokenMs().value <= c.TotalLatencyMs()
  {
  }

  /** The collector object: its methods overwrite the fields that `Snapshot` reports. */
  class MetricsCollector {
    var startTime: Option<real>
    var endTime: Option<real>
    var firstTokenTime: Option<real>
    var inputTokens: int
    var outputTokens: int
    var qualityScore: Option<QualityScore>

    function Snapshot(): Collected
      reads this
    {
      Collected(startTime, endTime, firstTokenTime, inputTokens, outputTokens, qualityScore)
    }

    /** `MetricsCollector()`: every field at its default. */
    constructor ()
      ensures Snapshot() == Unmeasured
    {
      startTime := None;
      endTime := None;
      firstTokenTime := None;
      inputTokens := 0;
      outputTokens := 0;
      qualityScore := None;
    }

    /** Entering `measure_latency`: the start time is (re)set to the clock reading `now`. */
    method BeginMeasure(now: real)
      modifies this
      ensures Snapshot() == old(Snapshot()).(startTime := Some(now))
    {
      startTime := Some(now);
    }

    /** Leaving `measure_latency`, normally or by an exception: the end time is set. */
    method EndMeasure(now: real)
      modifies this
      ensures Snapshot() == old(Snapshot()).(endTime := Some(now))
    {
      endTime := Some(now);
    }

    /** `mark_first_token`: only the first call records a time; later calls change nothing. */
    method MarkFirstToken(now: real)
      modifies this
      ensures old(firstTokenTime).None? ==> Snapshot() == old(Snapshot()).(firstTokenTime := Some(now))
      ensures old(firstTokenTime).Some? ==> Snapshot() == old(Snapshot())
      ensures firstTokenTime.Some?
    {
      if firstTokenTime.None? {
        firstTokenTime := Some(now);
      }
    }

    /** `record_tokens`: both counts are overwritten. */
    method RecordTokens(input: int, output: int)
      modifies this
      ensures Snapshot() == old(Snapshot()).(inputTokens := input, outputTokens := output)
      ensures Snapshot().TotalTokens() == input + output
    {
      inputTokens := input;
      outputTokens := output;
    }

    /** `set_quality`. */
    method SetQuality(score: QualityScore)
      modifies this
      ensures Snapshot() == old(Snapshot()).(qualityScore := Some(score))
      ensures Snapshot().ToEvalMetrics().quality == score
    {
      qualityScore := Some(score);
    }
  }

  // ============ Projections of a list of metrics ============

  function Latencies(ms: seq<EvalMetrics>): (r: seq<real>)
    ensures |r| == |ms| && forall i :: 0 <= i < |ms| ==> r[i] == ms[i].latency.totalMs
  {
    seq(|ms|, i requires 0 <= i < |ms| => ms[i].latency.totalMs)
  }

  function Scores(ms: seq<EvalMetrics>): (r: seq<real>)
    ensures |r| == |ms| && forall i :: 0 <= i < |ms| ==> r[i] == ms[i].quality.score
  {
    seq(|ms|, i requires 0 <= i < |ms| => ms[i].quality.score)
  }

  function InputCounts(ms: seq<EvalMetrics>): (r: seq<int>)
    ensures |r| == |ms| && forall i :: 0 <= i < |ms| ==> r[i] == ms[i].tokens.inputTokens
  {
    seq(|ms|, i requires 0 <= i < |ms| => ms[i].tokens.inputTokens)
  }

  function OutputCounts(ms: seq<EvalMetrics>): (r: seq<int>)
    ensures |r| == |ms| && forall i :: 0 <= i < |ms| ==> r[i] == ms[i].tokens.outputTokens
  {
    seq(|ms|, i requires 0 <= i < |ms| => ms[i].tokens.outputTokens)
  }

  function TotalCounts(ms: seq<EvalMetrics>): (r: seq<int>)
    ensures |r| == |ms| && forall i :: 0 <= i < |ms| ==> r[i] == ms[i].tokens.totalTokens
  {
    seq(|ms|, i requires 0 <= i < |ms| => ms[i].tokens.totalTokens)
  }

  /** Token records whose total is the sum of their two counts, as `to_eval_metrics` builds them. */
  predicate TokensConsistent(ms: seq<EvalMetrics>)
  {
    forall i :: 0 <= i < |ms| ==> ms[i].tokens.totalTokens == ms[i].tokens.inputTokens + ms[i].tokens.outputTokens
  }

  // ============ aggregate_metrics ============

  /** `round(total_output / total_seconds, 1)`, or 0 when no time was measured. */
  function Throughput(totalOutput: int, totalSeconds: real): (t: real)
    ensures totalSeconds <= 0.0 ==> t == 0.0
    ensures totalOutput >= 0 ==> t >= 0.0
  {
    var rate := if totalSeconds > 0.0 then totalOutput as real / totalSeconds else 0.0;
    RateRounding(totalOutput as real, totalSeconds, rate);
    Round(rate, 1)
  }

  lemma RateRounding(out: real, secs: real, rate: real)
    requires rate == if secs > 0.0 then out / secs else 0.0
    ensures secs <= 0.0 ==> Round(rate, 1) == 0.0
    ensures out >= 0.0 ==> Round(rate, 1) >= 0.0
  {
    assert Round(0.0, 1) == 0.0;
    if out >= 0.0 && secs > 0.0 {
      DivBounds(out, secs, 0.0, out / secs + 1.0);
      RoundMonotone(0.0, rate, 1);
    }
  }

  /** `aggregate_metrics`: None stands for the empty dictionary returned on an empty batch. */
  function AggregateMetrics(ms: seq<EvalMetrics>): (r: Option<BatchSummary>)
    ensures r.None? <==> ms == []
    ensures r.Some? ==> r.value.count == |ms|
  {
    if ms == [] then None
    else
      var n := |ms|;
      var lat := Latencies(ms);
      var scores := Scores(ms);
      var totalInput := SumInt(InputCounts(ms));
      var totalOutput := SumInt(OutputCounts(ms));
      var totalSeconds := Sum(lat) / 1000.0;
      Some(BatchSummary(
        n,
        Round(Mean(lat), 2), Round(Min(lat), 2), Round(Max(lat), 2), Round(Sort(lat)[n / 2], 2),
        totalInput, totalOutput, SumInt(TotalCounts(ms)), Round(totalOutput as real / n as real, 1),
        Round(Mean(scores), 2), Round(Min(scores), 2), Round(Max(scores), 2),
        Throughput(totalOutput, totalSeconds),
        Round(totalInput as real * 0.000002 + totalOutput as real * 0.000006, 6)))
  }

  /** The summary's averages and median lie between its minima and maxima. */
  lemma AggregateOrdered(ms: seq<EvalMetrics>)
    requires ms != []
    ensures var s := AggregateMetrics(ms).value;
      s.minLatencyMs <= s.avgLatencyMs <= s.maxLatencyMs
      && s.minLatencyMs <= s.p50LatencyMs <= s.maxLatencyMs
      && s.minScore <= s.avgScore <= s.maxScore
  {
    var lat, scores := Latencies(ms), Scores(ms);
    MeanBetween(lat);
    RoundMonotone(Min(lat), Mean(lat), 2);
    RoundMonotone(Mean(lat), Max(lat), 2);
    SortedAt(lat, |ms| / 2);
    RoundMonotone(Min(lat), Sort(lat)[|ms| / 2], 2);
    RoundMonotone(Sort(lat)[|ms| / 2], Max(lat), 2);
    MeanBetween(scores);
    RoundMonotone(Min(scores), Mean(scores), 2);
    RoundMonotone(Mean(scores), Max(scores), 2);
  }

  /** The median is an observed latency, the one `calculate_percentile(latencies, 50)` picks. */
  lemma AggregateMedianIsPercentile(ms: seq<EvalMetrics>)
    requires ms != []
    ensures CalculatePercentile(Latencies(ms), 50.0).Ok?
    ensures AggregateMetrics(ms).value.p50LatencyMs == Round(CalculatePercentile(Latencies(ms), 50.0).value, 2)
  {
    HalfIndex(|ms|);
  }

  /** Token totals are plain sums; with consistent records the grand total is input plus output. */
  lemma AggregateTokenTotals(ms: seq<EvalMetrics>)
    requires ms != [] && TokensConsistent(ms)
    ensures var s := AggregateMetrics(ms).value;
      s.total == s.totalInput + s.totalOutput
  {
    TotalsAdd(ms);
  }

  lemma {:induction false} TotalsAdd(ms: seq<EvalMetrics>)
    requires TokensConsistent(ms)
    ensures SumInt(TotalCounts(ms)) == SumInt(InputCounts(ms)) + SumInt(OutputCounts(ms))
  {
    if ms != [] {
      assert TotalCounts(ms)[1..] == TotalCounts(ms[1..]);
      assert InputCounts(ms)[1..] == InputCounts(ms[1..]);
      assert OutputCounts(ms)[1..] == OutputCounts(ms[1..]);
      assert TokensConsistent(ms[1..]) by {
        forall i | 0 <= i < |ms| - 1
          ensures ms[1..][i].tokens.totalTokens == ms[1..][i].tokens.inputTokens + ms[1..][i].tokens.outputTokens
        {
          assert ms[1..][i] == ms[i + 1];
        }
      }
      TotalsAdd(ms[1..]);
    }
  }

  /** The batch cost is the per-record cost rule applied to the token sums: 2 and 6 micro-dollars. */
  lemma AggregateCost(ms: seq<EvalMetrics>)
    requires ms != []
    ensures var s := AggregateMetrics(ms).value;
      s.estimatedCostUsd == TokenMetrics(s.totalInput, s.totalOutput, s.total).EstimatedCostUsd()
      && s.estimatedCostUsd == (2 * s.totalInput + 6 * s.totalOutput) as real / 1000000.0
  {
    var s := AggregateMetrics(ms).value;
    CostIsMicroDollars(s.totalInput, s.totalOutput);
  }

  /** Throughput is 0 when no time was measured, and never negative for non-negative inputs. */
  lemma AggregateThroughput(ms: seq<EvalMetrics>)
    requires ms != []
    ensures Sum(Latencies(ms)) <= 0.0 ==> AggregateMetrics(ms).value.tokensPerSecond == 0.0
    ensures (forall i :: 0 <= i < |ms| ==> ms[i].tokens.outputTokens >= 0)
      ==> AggregateMetrics(ms).value.tokensPerSecond >= 0.0
  {
    if forall i :: 0 <= i < |ms| ==> ms[i].tokens.outputTokens >= 0 {
      SumIntNonNegative(OutputCounts(ms));
    }
  }


  lemma {:induction false} SumIntNonNegative(xs: seq<int>)
    requires forall i :: 0 <= i < |xs| ==> xs[i] >= 0
    ensures SumInt(xs) >= 0
  {
    if xs != [] {
      SumIntNonNegative(xs[1..]);
    }
  }

  // ============ compare_metrics ============

  datatype Side = A | B

  /** The dictionary `compare_metrics` returns. */
  datatype Comparison = Comparison(
    aMs: real, bMs: real, diffMs: real, faster: Side,
    aOutput: int, bOutput: int, outputDiff: int,
    aScore: real, bScore: real, scoreDiff: real, better: Side,
    overallWinner: Side,
    confidence: real)

  /** The overall score: speed normalised as 10 - ms/100 weighs 0.2, quality weighs 0.8. */
  function WeightedScore(m: EvalMetrics): real
  {
    (10.0 - m.latency.totalMs / 100.0) * 0.2 + m.quality.score * 0.8
  }

  /** Python's `abs` on a float. */
  function Abs(x: real): (r: real)
    ensures r >= 0.0 && (r == x || r == -x)
  {
    if x < 0.0 then -x else x
  }

  /** `compare_metrics`: every verdict is "a" only on a strict win, so ties go to "b". */
  function CompareMetrics(a: EvalMetrics, b: EvalMetrics): (c: Comparison)
    ensures c.faster == A <==> a.latency.totalMs < b.latency.totalMs
    ensures c.better == A <==> a.quality.score > b.quality.score
    ensures c.overallWinner == A <==> WeightedScore(a) > WeightedScore(b)
    ensures c.confidence == Round(Abs(WeightedScore(a) - WeightedScore(b)) / 10.0 * 100.0, 1)
    ensures c.confidence >= 0.0
    ensures c.aMs == a.latency.totalMs && c.bMs == b.latency.totalMs
    ensures c.diffMs == Round(b.latency.totalMs - a.latency.totalMs, 2)
    ensures c.aOutput == a.tokens.outputTokens && c.bOutput == b.tokens.outputTokens
    ensures c.outputDiff == b.tokens.outputTokens - a.tokens.outputTokens
    ensures c.aScore == a.quality.score && c.bScore == b.quality.score
    ensures c.scoreDiff == Round(b.quality.score - a.quality.score, 2)
  {
    var aScore, bScore := WeightedScore(a), WeightedScore(b);
    var confidence := Round(Abs(aScore - bScore) / 10.0 * 100.0, 1);
    RoundMonotone(0.0, Abs(aScore - bScore) / 10.0 * 100.0, 1);
    assert Round(0.0, 1) == 0.0;
    Comparison(
      a.latency.totalMs, b.latency.totalMs, Round(b.latency.totalMs - a.latency.totalMs, 2),
      if a.latency.totalMs < b.latency.totalMs then A else B,
      a.tokens.outputTokens, b.tokens.outputTokens, b.tokens.outputTokens - a.tokens.outputTokens,
      a.quality.score, b.quality.score, Round(b.quality.score - a.quality.score, 2),
      if a.quality.score > b.quality.score then A else B,
      if aScore > bScore then A else B,
      confidence)
  }

  /**
   * Swapping the two runs swaps the overall winner unless their weighted scores tie,
   * in which case both orders name "b"; the confidence does not depend on the order.
   */
  lemma CompareSwap(a: EvalMetrics, b: EvalMetrics)
    ensures WeightedScore(a) != WeightedScore(b) ==>
      CompareMetrics(a, b).overallWinner != CompareMetrics(b, a).overallWinner
    ensures WeightedScore(a) == WeightedScore(b) ==>
      CompareMetrics(a, b).overallWinner == B && CompareMetrics(b, a).overallWinner == B
    ensures CompareMetrics(a, b).confidence == CompareMetrics(b, a).confidence
  {
    assert Abs(WeightedScore(a) - WeightedScore(b)) == Abs(WeightedScore(b) - WeightedScore(a));
  }

  /** A run that is at least as fast and strictly better judged wins overall. */
  lemma BetterAndNotSlowerWins(a: EvalMetrics, b: EvalMetrics)
    requires a.quality.score > b.quality.score
    requires a.latency.totalMs <= b.latency.totalMs
    ensures CompareMetrics(a, b).overallWinner == A
    ensures CompareMetrics(a, b).better == A
  {
  }

  /** A run compared with itself loses to itself: the winner is "b" with zero confidence. */
  lemma CompareWithItself(m: EvalMetrics)
    ensures CompareMetrics(m, m).overallWinner == B && CompareMetrics(m, m).faster == B
    ensures CompareMetrics(m, m).better == B && CompareMetrics(m, m).confidence == 0.0
  {
    assert Round(0.0, 1) == 0.0;
  }

  // ============ calculate_percentile ============

  /** Python's `xs[k]`: a negative index counts from the end; outside [-len, len) it raises. */
  function PyIndex(xs: seq<real>, k: int): (r: Result<real, PyError>)
    ensures r.Ok? <==> -|xs| <= k < |xs|
    ensures r.Ok? ==> r.value == xs[if k >= 0 then k else |xs| + k]
    ensures r.Err? ==> r.error == IndexError
  {
    if 0 <= k < |xs| then Ok(xs[k])
    else if -|xs| <= k < 0 then Ok(xs[|xs| + k])
    else Err(IndexError)
  }

  /** `int(len * percentile / 100)`. */
  function RawPercentileIndex(n: nat, percentile: real): int
  {
    Trunc(n as real * percentile / 100.0)
  }

  /**
   * `calculate_percentile`: 0.0 for no values, otherwise the sorted value at
   * `min(int(len * p / 100), len - 1)`; a negative index counts from the end as in
   * Python and one below `-len` raises IndexError.
   */
  function CalculatePercentile(values: seq<real>, percentile: real): (r: Result<real, PyError>)
    ensures values == [] ==> r == Ok(0.0)
    ensures r.Err? <==> values != [] && RawPercentileIndex(|values|, percentile) < -|values|
    ensures r.Err? ==> r.error == IndexError
    ensures r.Ok? && values != [] ==> r.value in values && Min(values) <= r.value <= Max(values)
  {
    if values == [] then Ok(0.0)
    else
      var n := |values|;
      var index := RawPercentileIndex(n, percentile);
      var k := if index < n - 1 then index else n - 1;
      if -n <= k then
        var j := if k >= 0 then k else n + k;
        SortedAt(values, j);
        assert PyIndex(Sort(values), k) == Ok(Sort(values)[j]);
        PyIndex(Sort(values), k)
      else PyIndex(Sort(values), k)
  }

  /** For non-negative percentiles the result never errs and is the sorted value at the clamped index. */
  lemma PercentileIndex(values: seq<real>, percentile: real)
    requires values != [] && percentile >= 0.0
    ensures RawPercentileIndex(|values|, percentile) >= 0
    ensures CalculatePercentile(values, percentile).Ok?
    ensures var index := RawPercentileIndex(|values|, percentile);
      CalculatePercentile(values, percentile).value
        == Sort(values)[if index < |values| - 1 then index else |values| - 1]
  {
    PercentileIndexNonNegative(|values|, percentile);
  }

  lemma PercentileIndexNonNegative(n: nat, percentile: real)
    requires percentile >= 0.0
    ensures RawPercentileIndex(n, percentile) >= 0
  {
    if n > 0 {
      MulMonotone(0.0, percentile, n as real);
      DivMonotone(0.0, percentile * n as real, 100.0);
      assert n as real * percentile == percentile * n as real;
    }
  }

  /** A higher percentile never gives a smaller value. */
  lemma PercentileMonotone(values: seq<real>, p: real, q: real)
    requires values != [] && 0.0 <= p <= q
    ensures CalculatePercentile(values, p).Ok? && CalculatePercentile(values, q).Ok?
    ensures CalculatePercentile(values, p).value <= CalculatePercentile(values, q).value
  {
    var n := |values|;
    PercentileIndex(values, p);
    PercentileIndex(values, q);
    RawIndexMonotone(n, p, q);
    var i, j := RawPercentileIndex(n, p), RawPercentileIndex(n, q);
    SortedMonotone(values, if i < n - 1 then i else n - 1, if j < n - 1 then j else n - 1);
  }

  lemma RawIndexMonotone(n: nat, p: real, q: real)
    requires 0.0 <= p <= q
    ensures 0 <= RawPercentileIndex(n, p) <= RawPercentileIndex(n, q)
  {
    PercentileIndexNonNegative(n, p);
    if n > 0 {
      MulMonotone(p, q, n as real);
      DivMonotone(p * n as real, q * n as real, 100.0);
      assert n as real * p == p * n as real && n as real * q == q * n as real;
    }
  }

  /** int(n * 50 / 100) is n // 2. */
  lemma HalfIndex(n: nat)
    ensures RawPercentileIndex(n, 50.0) == n / 2
  {
    var q, r := n / 2, n % 2;
    assert n as real == 2.0 * q as real + r as real;
    assert n as real * 50.0 / 100.0 == q as real + r as real / 2.0;
  }

  /** int(n * 95 / 100) is n * 95 // 100, and is a valid index for n >= 1. */
  lemma P95Index(n: nat)
    ensures RawPercentileIndex(n, 95.0) == n * 95 / 100
    ensures n >= 1 ==> n * 95 / 100 < n
  {
    var q, r := n * 95 / 100, n * 95 % 100;
    assert (n * 95) as real == 100.0 * q as real + r as real;
    assert n as real * 95.0 / 100.0 == q as real + r as real / 100.0;
  }

  // ============ compute_variance_metrics ============

  /** The truthy values of a list of optional floats, in order. */
  function TruthyValues(xs: seq<Option<real>>): (r: seq<real>)
    ensures |r| <= |xs|
    ensures r == [] <==> forall i :: 0 <= i < |xs| ==> !Truthy(xs[i])
    ensures forall x :: x in r ==> x != 0.0
    ensures forall x :: x in r ==> exists i :: 0 <= i < |xs| && xs[i] == Some(x)
  {
    if xs == [] then []
    else
      var rest := TruthyValues(xs[..|xs| - 1]);
      assert forall i :: 0 <= i < |xs| - 1 ==> xs[..|xs| - 1][i] == xs[i];
      rest + (if Truthy(xs[|xs| - 1]) then [xs[|xs| - 1].value] else [])
  }

  function RunLatencies(cs: seq<Collected>): (r: seq<real>)
    ensures |r| == |cs| && forall i :: 0 <= i < |cs| ==> r[i] == cs[i].TotalLatencyMs()
  {
    seq(|cs|, i requires 0 <= i < |cs| => cs[i].TotalLatencyMs())
  }

  function RunTtfts(cs: seq<Collected>): (r: seq<Option<real>>)
    ensures |r| == |cs| && forall i :: 0 <= i < |cs| ==> r[i] == cs[i].TimeToFirstTokenMs()
  {
    seq(|cs|, i requires 0 <= i < |cs| => cs[i].TimeToFirstTokenMs())
  }

  function RunSpeeds(cs: seq<Collected>): (r: seq<Option<real>>)
    ensures |r| == |cs| && forall i :: 0 <= i < |cs| ==> r[i] == cs[i].TokensPerSecond()
  {
    seq(|cs|, i requires 0 <= i < |cs| => cs[i].TokensPerSecond())
  }

  function RunOutputs(cs: seq<Collected>): (r: seq<real>)
    ensures |r| == |cs| && forall i :: 0 <= i < |cs| ==> r[i] == cs[i].outputTokens as real
  {
    seq(|cs|, i requires 0 <= i < |cs| => cs[i].outputTokens as real)
  }

  function RunTotals(cs: seq<Collected>): (r: seq<real>)
    ensures |r| == |cs| && forall i :: 0 <= i < |cs| ==> r[i] == cs[i].TotalTokens() as real
  {
    seq(|cs|, i requires 0 <= i < |cs| => cs[i].TotalTokens() as real)
  }

  function QualityValues(qs: seq<QualityScore>): (r: seq<real>)
    ensures |r| == |qs| && forall i :: 0 <= i < |qs| ==> r[i] == qs[i].score
  {
    seq(|qs|, i requires 0 <= i < |qs| => qs[i].score)
  }

  function Feedbacks(qs: seq<QualityScore>): (r: seq<string>)
    ensures |r| == |qs| && forall i :: 0 <= i < |qs| ==> r[i] == qs[i].feedback
  {
    seq(|qs|, i requires 0 <= i < |qs| => qs[i].feedback)
  }

  /** Every criterion name some run reports. */
  function CriteriaNames(qs: seq<QualityScore>): set<string>
  {
    if qs == [] then {} else CriteriaNames(qs[..|qs| - 1]) + qs[|qs| - 1].criteriaScores.Keys
  }

  /** The scores for criterion `c`, in run order, from the runs that report it. */
  function CriterionSamples(qs: seq<QualityScore>, c: string): (r: seq<real>)
    ensures |r| > 0 <==> c in CriteriaNames(qs)
    ensures |r| <= |qs|
    ensures forall x :: x in r ==>
      exists i :: 0 <= i < |qs| && c in qs[i].criteriaScores && qs[i].criteriaScores[c] == x
  {
    if qs == [] then []
    else
      var last := qs[|qs| - 1];
      assert forall i :: 0 <= i < |qs| - 1 ==> qs[..|qs| - 1][i] == qs[i];
      CriterionSamples(qs[..|qs| - 1], c) + (if c in last.criteriaScores then [last.criteriaScores[c]] else [])
  }

  /** `criteria_means`: each reported criterion's mean over the runs that report it. */
  function CriteriaMeans(qs: seq<QualityScore>): (r: map<string, real>)
    ensures r.Keys == CriteriaNames(qs)
  {
    map c | c in CriteriaNames(qs) :: Round(Mean(CriterionSamples(qs, c)), 2)
  }

  /** Each criterion's mean lies within the range of the scores the runs reported for it, rounded. */
  lemma CriteriaMeanBetween(qs: seq<QualityScore>, c: string, lo: real, hi: real)
    requires c in CriteriaNames(qs)
    requires forall i :: 0 <= i < |qs| && c in qs[i].criteriaScores ==> lo <= qs[i].criteriaScores[c] <= hi
    ensures Round(lo, 2) <= CriteriaMeans(qs)[c] <= Round(hi, 2)
  {
    var samples := CriterionSamples(qs, c);
    MeanBounds(samples, lo, hi);
    RoundMonotone(lo, Mean(samples), 2);
    RoundMonotone(Mean(samples), hi, 2);
  }

  /** The token record of a multi-run summary: the first run's input, the rounded mean output and total. */
  function TokenAverages(cs: seq<Collected>): (t: TokenMetrics)
    requires |cs| > 0
    ensures t.inputTokens == cs[0].inputTokens
  {
    TokenMetrics(cs[0].inputTokens, RoundHalfEven(Mean(RunOutputs(cs))), RoundHalfEven(Mean(RunTotals(cs))))
  }

  /**
   * Each averaged count lies between the smallest and the largest per-run count, so
   * runs that all produced the same counts report exactly those counts.
   */
  lemma TokenAveragesBetween(cs: seq<Collected>, outLo: int, outHi: int, totLo: int, totHi: int)
    requires |cs| > 0
    requires forall i :: 0 <= i < |cs| ==> outLo <= cs[i].outputTokens <= outHi
    requires forall i :: 0 <= i < |cs| ==> totLo <= cs[i].TotalTokens() <= totHi
    ensures outLo <= TokenAverages(cs).outputTokens <= outHi
    ensures totLo <= TokenAverages(cs).totalTokens <= totHi
  {
    RoundedMeanBetween(RunOutputs(cs), outLo, outHi);
    RoundedMeanBetween(RunTotals(cs), totLo, totHi);
  }

  lemma RoundedMeanBetween(xs: seq<real>, lo: int, hi: int)
    requires |xs| > 0
    requires forall i :: 0 <= i < |xs| ==> lo as real <= xs[i] <= hi as real
    ensures lo <= RoundHalfEven(Mean(xs)) <= hi
  {
    forall x | x in xs
      ensures lo as real <= x <= hi as real
    {
      var i :| 0 <= i < |xs| && xs[i] == x;
    }
    MeanBounds(xs, lo as real, hi as real);
    RoundHalfEvenMonotone(lo as real, Mean(xs));
    RoundHalfEvenMonotone(Mean(xs), hi as real);
    RoundHalfEvenOfInt(lo);
    RoundHalfEvenOfInt(hi);
  }

  /**
   * The latency part of a multi-run summary. `stdev` is `statistics.stdev`, only
   * consulted with two or more runs; p95 needs five runs.
   */
  function LatencyVariance(cs: seq<Collected>, stdev: seq<real> -> real): (l: LatencyMetricsWithVariance)
    requires |cs| > 0
    ensures l.runs == |cs|
  {
    var n := |cs|;
    var lat := RunLatencies(cs);
    var sorted := Sort(lat);
    var ttfts := TruthyValues(RunTtfts(cs));
    var speeds := TruthyValues(RunSpeeds(cs));
    P95Index(n);
    LatencyMetricsWithVariance(
      Round(Mean(lat), 2),
      if n > 1 then Round(stdev(lat), 2) else 0.0,
      Round(Min(lat), 2),
      Round(Max(lat), 2),
      Round(sorted[n / 2], 2),
      if n >= 5 then Some(Round(sorted[n * 95 / 100], 2)) else None,
      if ttfts != [] then Some(Round(Mean(ttfts), 2)) else None,
      if speeds != [] then Some(Round(Mean(speeds), 1)) else None,
      n)
  }

  /** The quality part of a multi-run summary over `runs` runs, given the per-criterion means. */
  function QualityVariance(qs: seq<QualityScore>, runs: nat, stdev: seq<real> -> real, criteriaMeans: map<string, real>)
    : (q: QualityScoreWithVariance)
    requires |qs| > 0
    ensures q.runs == runs && q.criteriaMeans == criteriaMeans && q.feedbacks == Feedbacks(qs)
  {
    var scores := QualityValues(qs);
    QualityScoreWithVariance(
      Round(Mean(scores), 2),
      if runs > 1 then Round(stdev(scores), 2) else 0.0,
      Round(Min(scores), 2),
      Round(Max(scores), 2),
      runs,
      criteriaMeans,
      Feedbacks(qs))
  }

  /**
   * What `compute_variance_metrics` returns. Every failure is a ValueError: zero
   * runs, and `statistics` refusing too few quality scores.
   */
  function VarianceMetrics(cs: seq<Collected>, qs: seq<QualityScore>, stdev: seq<real> -> real)
    : (r: Result<EvalMetricsWithVariance, PyError>)
    ensures r.Err? <==> |cs| == 0 || |qs| == 0 || (|cs| > 1 && |qs| < 2)
    ensures r.Err? ==> r.error == ValueError
    ensures r.Ok? ==>
      (r.value.tokens == TokenAverages(cs) && r.value.latency == LatencyVariance(cs, stdev)
       && r.value.quality == QualityVariance(qs, |cs|, stdev, CriteriaMeans(qs)))
  {
    if |cs| == 0 || |qs| == 0 || (|cs| > 1 && |qs| < 2) then Err(ValueError)
    else
      Ok(EvalMetricsWithVariance(
        TokenAverages(cs), LatencyVariance(cs, stdev), QualityVariance(qs, |cs|, stdev, CriteriaMeans(qs))))
  }

  /** `all_criteria`: the outer loop over runs that groups criterion scores by name. */
  method CollectCriteria(qs: seq<QualityScore>) returns (all: map<string, seq<real>>)
    ensures all.Keys == CriteriaNames(qs)
    ensures forall c :: c in all ==> all[c] == CriterionSamples(qs, c)
  {
    all := map[];
    for i := 0 to |qs|
      invariant all.Keys == CriteriaNames(qs[..i])
      invariant forall c :: c in all ==> all[c] == CriterionSamples(qs[..i], c)
    {
      var before := all;
      all := AppendScores(all, qs[i]);
      SamplesSnoc(qs, i, "");
      forall c | c in all
        ensures all[c] == CriterionSamples(qs[..i + 1], c)
      {
        SamplesSnoc(qs, i, c);
        if c !in before {
          assert c !in CriteriaNames(qs[..i]);
        }
      }
    }
    assert qs[..|qs|] == qs;
  }

  /** The inner loop over one run's `criteria_scores`: each score is appended to its name's list. */
  method AppendScores(all: map<string, seq<real>>, q: QualityScore) returns (next: map<string, seq<real>>)
    ensures next.Keys == all.Keys + q.criteriaScores.Keys
    ensures forall c :: c in next ==>
      next[c] == (if c in all then all[c] else []) + (if c in q.criteriaScores then [q.criteriaScores[c]] else [])
  {
    next := all;
    var todo := q.criteriaScores.Keys;
    assert all.Keys + {} == all.Keys;
    assert forall c :: c in all ==> all[c] + [] == all[c];
    assert next == Merged(all, q.criteriaScores, {});
    while todo != {}
      invariant todo <= q.criteriaScores.Keys
      invariant next == Merged(all, q.criteriaScores, q.criteriaScores.Keys - todo)
      decreases todo
    {
      var c :| c in todo;
      var done := q.criteriaScores.Keys - todo;
      var prev := if c in next then next[c] else [];
      assert prev == if c in all then all[c] else [];
      MergedStep(all, q.criteriaScores, done, c);
      next := next[c := prev + [q.criteriaScores[c]]];
      todo := todo - {c};
      assert q.criteriaScores.Keys - todo == done + {c};
    }
    assert q.criteriaScores.Keys - todo == q.criteriaScores.Keys;
  }

  /** The lists after appending the scores of the criteria in `done`. */
  function Merged(all: map<string, seq<real>>, scores: map<string, real>, done: set<string>): map<string, seq<real>>
    requires done <= scores.Keys
  {
    map c | c in all.Keys + done :: (if c in all then all[c] else []) + (if c in done then [scores[c]] else [])
  }

  lemma MergedStep(all: map<string, seq<real>>, scores: map<string, real>, done: set<string>, c: string)
    requires done <= scores.Keys && c in scores && c !in done
    ensures Merged(all, scores, done + {c})
      == Merged(all, scores, done)[c := (if c in all then all[c] else []) + [scores[c]]]
  {
  }

  /** Extending the runs by run i adds its criteria and appends its score for `c`, if any. */
  lemma SamplesSnoc(qs: seq<QualityScore>, i: nat, c: string)
    requires i < |qs|
    ensures CriteriaNames(qs[..i + 1]) == CriteriaNames(qs[..i]) + qs[i].criteriaScores.Keys
    ensures CriterionSamples(qs[..i + 1], c) == CriterionSamples(qs[..i], c)
      + (if c in qs[i].criteriaScores then [qs[i].criteriaScores[c]] else [])
  {
    assert qs[..i + 1][..i] == qs[..i];
  }

  /** `compute_variance_metrics`, with the criteria grouped by the loop above. */
  method ComputeVarianceMetrics(cs: seq<Collected>, qs: seq<QualityScore>, stdev: seq<real> -> real)
    returns (r: Result<EvalMetricsWithVariance, PyError>)
    ensures r == VarianceMetrics(cs, qs, stdev)
  {
    var n := |cs|;
    if n == 0 || |qs| == 0 || (n > 1 && |qs| < 2) {
      return Err(ValueError);
    }
    var all := CollectCriteria(qs);
    var means := map c | c in all :: Round(Mean(all[c]), 2);
    assert means == CriteriaMeans(qs);
    r := Ok(EvalMetricsWithVariance(TokenAverages(cs), LatencyVariance(cs, stdev), QualityVariance(qs, n, stdev, means)));
  }

  /** One run: no spread, and the mean, extremes and median all equal that run's value. */
  lemma VarianceSingleRun(c: Collected, q: QualityScore, stdev: seq<real> -> real)
    ensures var l := LatencyVariance([c], stdev);
      l.stdDevMs == 0.0 && l.p95Ms.None?
      && l.meanMs == l.minMs == l.maxMs == l.p50Ms == Round(c.TotalLatencyMs(), 2)
    ensures var v := QualityVariance([q], 1, stdev, map[]);
      v.stdDev == 0.0 && v.meanScore == v.minScore == v.maxScore == Round(q.score, 2)
  {
    LatencySingleRun(c, stdev);
    QualitySingleRun(q, stdev);
  }

  /** One run's latency statistics all equal its latency; no spread and no p95. */
  lemma LatencySingleRun(c: Collected, stdev: seq<real> -> real)
    ensures var l := LatencyVariance([c], stdev);
      l.stdDevMs == 0.0 && l.p95Ms.None?
      && l.meanMs == l.minMs == l.maxMs == l.p50Ms == Round(c.TotalLatencyMs(), 2)
  {
    var lat := RunLatencies([c]);
    assert lat == [c.TotalLatencyMs()];
    assert Sum(lat) == c.TotalLatencyMs();
    assert Sort(lat) == lat;
  }

  /** One run's score statistics all equal its score; no spread. */
  lemma QualitySingleRun(q: QualityScore, stdev: seq<real> -> real)
    ensures var v := QualityVariance([q], 1, stdev, map[]);
      v.stdDev == 0.0 && v.meanScore == v.minScore == v.maxScore == Round(q.score, 2)
  {
    var scores := QualityValues([q]);
    assert scores == [q.score];
    assert Sum(scores) == q.score;
  }

  /** Latency statistics keep their order: min <= mean <= max and min <= p50 <= p95 <= max. */
  lemma VarianceLatencyOrdered(cs: seq<Collected>, stdev: seq<real> -> real)
    requires |cs| > 0
    ensures var l := LatencyVariance(cs, stdev);
      l.minMs <= l.meanMs <= l.maxMs && l.minMs <= l.p50Ms <= l.maxMs
      && (l.p95Ms.Some? <==> |cs| >= 5)
      && (l.p95Ms.Some? ==> l.p50Ms <= l.p95Ms.value <= l.maxMs)
  {
    var n := |cs|;
    var lat := RunLatencies(cs);
    MeanBetween(lat);
    RoundMonotone(Min(lat), Mean(lat), 2);
    RoundMonotone(Mean(lat), Max(lat), 2);
    SortedAt(lat, n / 2);
    RoundMonotone(Min(lat), Sort(lat)[n / 2], 2);
    RoundMonotone(Sort(lat)[n / 2], Max(lat), 2);
    P95Index(n);
    if n >= 5 {
      var k := n * 95 / 100;
      SortedAt(lat, k);
      SortedMonotone(lat, n / 2, k);
      RoundMonotone(Sort(lat)[n / 2], Sort(lat)[k], 2);
      RoundMonotone(Sort(lat)[k], Max(lat), 2);
    }
  }

  /** p50 and p95 are what `calculate_percentile` gives for 50 and 95, rounded to 2 places. */
  lemma VariancePercentilesAgree(cs: seq<Collected>, stdev: seq<real> -> real)
    requires |cs| > 0
    ensures CalculatePercentile(RunLatencies(cs), 50.0).Ok?
    ensures LatencyVariance(cs, stdev).p50Ms == Round(CalculatePercentile(RunLatencies(cs), 50.0).value, 2)
    ensures LatencyVariance(cs, stdev).p95Ms.Some? ==>
      (CalculatePercentile(RunLatencies(cs), 95.0).Ok?
       && LatencyVariance(cs, stdev).p95Ms.value == Round(CalculatePercentile(RunLatencies(cs), 95.0).value, 2))
  {
    var n := |cs|;
    var lat := RunLatencies(cs);
    HalfIndex(n);
    P95Index(n);
    PercentileAt(lat, 50.0, n / 2);
    PercentileAt(lat, 95.0, n * 95 / 100);
  }

  /** When `int(len * p / 100)` is a valid index, the percentile is the sorted value there. */
  lemma PercentileAt(values: seq<real>, percentile: real, k: nat)
    requires k < |values| && RawPercentileIndex(|values|, percentile) == k
    ensures CalculatePercentile(values, percentile) == Ok(Sort(values)[k])
  {
    var sorted := Sort(values);
    assert |sorted| == |values|;
    assert PyIndex(sorted, k) == Ok(sorted[k]);
  }

  /** The TTFT and speed means exist exactly when some run has a truthy value. */
  lemma VarianceOptionalMeans(cs: seq<Collected>, stdev: seq<real> -> real)
    requires |cs| > 0
    ensures var l := LatencyVariance(cs, stdev);
      (l.meanTtftMs.Some? <==> exists i :: 0 <= i < |cs| && Truthy(cs[i].TimeToFirstTokenMs()))
      && (l.meanTokensPerSecond.Some? <==> exists i :: 0 <= i < |cs| && Truthy(cs[i].TokensPerSecond()))
  {
    var l := LatencyVariance(cs, stdev);
    assert l.meanTtftMs.Some? <==> TruthyValues(RunTtfts(cs)) != [];
    assert l.meanTokensPerSecond.Some? <==> TruthyValues(RunSpeeds(cs)) != [];
    TtftsTruthy(cs);
    SpeedsTruthy(cs);
  }

  lemma TtftsTruthy(cs: seq<Collected>)
    ensures TruthyValues(RunTtfts(cs)) != [] <==> exists i :: 0 <= i < |cs| && Truthy(cs[i].TimeToFirstTokenMs())
  {
    var t := RunTtfts(cs);
    assert forall i :: 0 <= i < |cs| ==> t[i] == cs[i].TimeToFirstTokenMs();
  }

  lemma SpeedsTruthy(cs: seq<Collected>)
    ensures TruthyValues(RunSpeeds(cs)) != [] <==> exists i :: 0 <= i < |cs| && Truthy(cs[i].TokensPerSecond())
  {
    var s := RunSpeeds(cs);
    assert forall i :: 0 <= i < |cs| ==> s[i] == cs[i].TokensPerSecond();
  }

  /** With every run's score in [0, 10] (the QualityScore bound), the summary scores stay in [0, 10]. */
  lemma VarianceScoresInRange(qs: seq<QualityScore>, runs: nat, stdev: seq<real> -> real, means: map<string, real>)
    requires |qs| > 0
    requires forall i :: 0 <= i < |qs| ==> 0.0 <= qs[i].score <= 10.0
    ensures var q := QualityVariance(qs, runs, stdev, means);
      0.0 <= q.minScore <= q.meanScore <= q.maxScore <= 10.0
  {
    var scores := QualityValues(qs);
    assert forall x :: x in scores ==> 0.0 <= x <= 10.0;
    MeanBetween(scores);
    RoundScoreBetween(Min(scores));
    RoundScoreBetween(Max(scores));
    RoundMonotone(Min(scores), Mean(scores), 2);
    RoundMonotone(Mean(scores), Max(scores), 2);
  }

  lemma RoundScoreBetween(x: real)
    requires 0.0 <= x <= 10.0
    ensures 0.0 <= Round(x, 2) <= 10.0
  {
    RoundMonotone(0.0, x, 2);
    RoundMonotone(x, 10.0, 2);
    assert Round(10.0, 2) == 10.0;
    assert Round(0.0, 2) == 0.0;
  }
}
