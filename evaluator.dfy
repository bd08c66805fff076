/**
 * The deterministic part of the LLM-as-judge evaluator (app/evaluator.py): the
 * reference section of the judge prompt, the extraction and parsing of the
 * judge's JSON reply, the comparison fallback and rubric scoring. The judge's
 * reply text is an input; the model calls that produce it are not modelled.
 */
module Evaluator {
  import opened Common
  import opened Numeric
  import opened Json
  import opened Schemas

  // ============ The first brace-free {...} object ============

  predicate IsBrace(c: char)
  {
    c == '{' || c == '}'
  }

  /**
   * The regular expression `\{[^{}]*\}` matches s[i..j+1]: an opening brace at i,
   * a closing brace at j and no brace of either kind in between.
   */
  predicate MatchesAt(s: string, i: int, j: int)
  {
    0 <= i < j < |s| && s[i] == '{' && s[j] == '}'
    && forall k :: i < k < j ==> !IsBrace(s[k])
  }

  /** The first brace at or after `from`, or |s| when there is none. */
  function NextBrace(s: string, from: nat): (k: nat)
    requires from <= |s|
    ensures from <= k <= |s|
    ensures k < |s| ==> IsBrace(s[k])
    ensures forall m :: from <= m < k ==> !IsBrace(s[m])
    decreases |s| - from
  {
    if from == |s| || IsBrace(s[from]) then from else NextBrace(s, from + 1)
  }

  /** The leftmost match starting at or after `from`: `re.search` resumed at `from`. */
  function FindObjectFrom(s: string, from: nat): (r: Option<(nat, nat)>)
    requires from <= |s|
    ensures r.Some? ==> MatchesAt(s, r.value.0, r.value.1) && from <= r.value.0
    ensures r.Some? ==> forall i, j :: from <= i && MatchesAt(s, i, j) ==> r.value.0 <= i
    ensures r.None? ==> forall i, j :: from <= i ==> !MatchesAt(s, i, j)
    decreases |s| - from
  {
    if from == |s| then None
    else if s[from] == '{' && NextBrace(s, from + 1) < |s| && s[NextBrace(s, from + 1)] == '}' then
      Some((from, NextBrace(s, from + 1)))
    else
      NoMatchAt(s, from);
      FindObjectFrom(s, from + 1)
  }

  /** When the brace after an opening one is not a closing one (or there is none), no match starts there. */
  lemma NoMatchAt(s: string, from: nat)
    requires from < |s|
    requires !(s[from] == '{' && NextBrace(s, from + 1) < |s| && s[NextBrace(s, from + 1)] == '}')
    ensures forall j :: !MatchesAt(s, from, j)
  {
    var k := NextBrace(s, from + 1);
    forall j | from < j < |s| && s[from] == '{' && s[j] == '}'
      ensures exists m :: from < m < j && IsBrace(s[m])
    {
      assert IsBrace(s[j]);
      assert k <= j;
      assert k != j;
      assert from < k < j && IsBrace(s[k]);
    }
  }

  /** `re.search(r'\{[^{}]*\}', text, re.DOTALL)`: the leftmost match, if any. */
  function FindObject(s: string): (r: Option<(nat, nat)>)
    ensures r.Some? ==> MatchesAt(s, r.value.0, r.value.1)
    ensures r.Some? ==> forall i, j :: MatchesAt(s, i, j) ==> r.value.0 <= i
    ensures r.None? <==> forall i, j :: !MatchesAt(s, i, j)
  {
    FindObjectFrom(s, 0)
  }

  /** A match's end is fixed by its start: the first brace after the opening one. */
  lemma MatchEndUnique(s: string, i: int, j: int, j': int)
    requires MatchesAt(s, i, j) && MatchesAt(s, i, j')
    ensures j == j'
  {
    if j < j' {
      assert IsBrace(s[j]);
    } else if j' < j {
      assert IsBrace(s[j']);
    }
  }

  /** What `_parse_evaluation` hands to `json.loads`: the matched object, or the whole text. */
  function ExtractObject(text: string): (sub: string)
    ensures FindObject(text).None? ==> sub == text
    ensures FindObject(text).Some? ==>
      (|sub| >= 2 && sub[0] == '{' && sub[|sub| - 1] == '}' && forall k :: 0 < k < |sub| - 1 ==> !IsBrace(sub[k]))
    ensures FindObject(text).Some? ==>
      FindObject(text).value.1 < |text| && sub == text[FindObject(text).value.0..FindObject(text).value.1 + 1]
  {
    match FindObject(text)
    case Some((i, j)) => text[i..j + 1]
    case None => text
  }

  // ============ Reference section ============

  const ReferenceHeader := "\n**Reference Answer (for comparison):**\n"
  const ReferenceFooter := "\n\nConsider the reference when evaluating accuracy and completeness.\n"

  /** The reference section of the judge prompt: empty unless a non-empty reference is given. */
  function ReferenceSection(reference: Option<string>): (section: string)
    ensures reference.None? || reference.value == [] ==> section == []
    ensures reference.Some? && reference.value != [] ==>
      |section| == |ReferenceHeader| + |reference.value| + |ReferenceFooter|
      && section[|ReferenceHeader|..|ReferenceHeader| + |reference.value|] == reference.value
  {
    if reference.Some? && reference.value != [] then
      var section := ReferenceHeader + reference.value + ReferenceFooter;
      assert section[|ReferenceHeader|..|ReferenceHeader| + |reference.value|] == reference.value;
      section
    else []
  }

  // ============ Weighted scores ============

  /** `sum(score * weight for score, weight in zip(scores, weights))`. */
  function WeightedSum(xs: seq<real>, ws: seq<real>): real
    requires |xs| == |ws|
  {
    if xs == [] then 0.0 else xs[0] * ws[0] + WeightedSum(xs[1..], ws[1..])
  }

  /** Non-negative weights summing to 1 average scores in [lo, hi] to a value in [lo, hi]. */
  lemma WeightedSumBetween(xs: seq<real>, ws: seq<real>, lo: real, hi: real)
    requires |xs| == |ws| && Sum(ws) == 1.0
    requires forall i :: 0 <= i < |ws| ==> ws[i] >= 0.0 && lo <= xs[i] <= hi
    ensures lo <= WeightedSum(xs, ws) <= hi
  {
    AllAtLeastOf(ws, 0.0);
    AllAtLeastOf(xs, lo);
    AllAtMostOf(xs, hi);
    WeightedSumAbove(xs, ws, lo);
    WeightedSumBelow(xs, ws, hi);
  }

  /** A weighted average of scores in [0, 10], rounded to one decimal, is a valid score. */
  lemma WeightedScoreInRange(values: seq<real>, weights: seq<real>)
    requires |values| == |weights| && Sum(weights) == 1.0
    requires forall i :: 0 <= i < |weights| ==> weights[i] >= 0.0
    requires forall i :: 0 <= i < |values| ==> 0.0 <= values[i] <= 10.0
    ensures 0.0 <= Round(WeightedSum(values, weights), 1) <= 10.0
  {
    WeightedSumBetween(values, weights, 0.0, 10.0);
    RoundScoreInRange(WeightedSum(values, weights));
  }

  /** Every element is at least `lo`. */
  predicate AllAtLeast(xs: seq<real>, lo: real)
  {
    xs == [] || (lo <= xs[0] && AllAtLeast(xs[1..], lo))
  }

  /** Every element is at most `hi`. */
  predicate AllAtMost(xs: seq<real>, hi: real)
  {
    xs == [] || (xs[0] <= hi && AllAtMost(xs[1..], hi))
  }

  lemma {:induction false} AllAtLeastOf(xs: seq<real>, lo: real)
    requires forall i :: 0 <= i < |xs| ==> lo <= xs[i]
    ensures AllAtLeast(xs, lo)
  {
    if xs != [] {
      assert forall i :: 0 <= i < |xs| - 1 ==> xs[1..][i] == xs[i + 1];
      AllAtLeastOf(xs[1..], lo);
    }
  }

  lemma {:induction false} AllAtMostOf(xs: seq<real>, hi: real)
    requires forall i :: 0 <= i < |xs| ==> xs[i] <= hi
    ensures AllAtMost(xs, hi)
  {
    if xs != [] {
      assert forall i :: 0 <= i < |xs| - 1 ==> xs[1..][i] == xs[i + 1];
      AllAtMostOf(xs[1..], hi);
    }
  }

  /** Scores of at least `lo` with non-negative weights give at least `lo` times the total weight. */
  lemma {:induction false} WeightedSumAbove(xs: seq<real>, ws: seq<real>, lo: real)
    requires |xs| == |ws| && AllAtLeast(ws, 0.0) && AllAtLeast(xs, lo)
    ensures lo * Sum(ws) <= WeightedSum(xs, ws)
  {
    if xs != [] {
      WeightedSumAbove(xs[1..], ws[1..], lo);
      StepAbove(xs[0], ws[0], WeightedSum(xs[1..], ws[1..]), Sum(ws[1..]), WeightedSum(xs, ws), Sum(ws), lo);
    } else {
      assert ws == [];
    }
  }

  /** Scores of at most `hi` with non-negative weights give at most `hi` times the total weight. */
  lemma {:induction false} WeightedSumBelow(xs: seq<real>, ws: seq<real>, hi: real)
    requires |xs| == |ws| && AllAtLeast(ws, 0.0) && AllAtMost(xs, hi)
    ensures WeightedSum(xs, ws) <= hi * Sum(ws)
  {
    if xs != [] {
      WeightedSumBelow(xs[1..], ws[1..], hi);
      StepBelow(xs[0], ws[0], WeightedSum(xs[1..], ws[1..]), Sum(ws[1..]), WeightedSum(xs, ws), Sum(ws), hi);
    } else {
      assert ws == [];
    }
  }

  /** One step of the induction: adding a term `x * w` with `lo <= x` keeps the lower bound. */
  lemma StepAbove(x: real, w: real, rest: real, restWeight: real, total: real, totalWeight: real, lo: real)
    requires w >= 0.0 && lo <= x && lo * restWeight <= rest
    requires total == x * w + rest && totalWeight == w + restWeight
    ensures lo * totalWeight <= total
  {
    MulNonNegMonotone(lo, x, w);
    assert lo * totalWeight == lo * w + lo * restWeight;
  }

  /** One step of the induction: adding a term `x * w` with `x <= hi` keeps the upper bound. */
  lemma StepBelow(x: real, w: real, rest: real, restWeight: real, total: real, totalWeight: real, hi: real)
    requires w >= 0.0 && x <= hi && rest <= hi * restWeight
    requires total == x * w + rest && totalWeight == w + restWeight
    ensures total <= hi * totalWeight
  {
    MulNonNegMonotone(x, hi, w);
    assert hi * totalWeight == hi * w + hi * restWeight;
  }

  /** Equal scores average to that score. */
  lemma {:induction false} WeightedSumConstant(xs: seq<real>, ws: seq<real>, v: real)
    requires |xs| == |ws|
    requires forall i :: 0 <= i < |xs| ==> xs[i] == v
    ensures WeightedSum(xs, ws) == v * Sum(ws)
  {
    if xs != [] {
      assert forall i :: 0 <= i < |xs| - 1 ==> xs[1..][i] == xs[i + 1];
      WeightedSumConstant(xs[1..], ws[1..], v);
      assert WeightedSum(xs, ws) == v * ws[0] + v * Sum(ws[1..]);
      assert v * Sum(ws) == v * ws[0] + v * Sum(ws[1..]);
    }
  }

  // ============ _parse_evaluation ============

  /** The five judge criteria, in the order the source converts them. */
  const JudgeCriteria: seq<string> := ["clarity", "accuracy", "completeness", "relevance", "style_match"]

  /** Their weights when the judge gives no `overall_score`: accuracy and completeness weigh more. */
  const JudgeWeights: seq<real> := [0.15, 0.30, 0.25, 0.15, 0.15]

  lemma JudgeWeightsSumToOne()
    ensures |JudgeWeights| == |JudgeCriteria|
    ensures Sum(JudgeWeights) == 1.0
    ensures forall i :: 0 <= i < |JudgeWeights| ==> JudgeWeights[i] > 0.0
  {
    assert JudgeWeights[4..] == [0.15];
    assert JudgeWeights[3..] == [0.15, 0.15];
    assert JudgeWeights[2..] == [0.25, 0.15, 0.15];
    assert JudgeWeights[1..] == [0.30, 0.25, 0.15, 0.15];
  }

  /** `float(data.get(name, 5))` for each name in order; the first failure is raised. */
  function ConvertScores(fields: map<string, Json>, names: seq<string>, lib: Lib): (r: Result<seq<real>, PyError>)
    ensures r.Ok? <==> forall i :: 0 <= i < |names| ==> ToFloat(Get(fields, names[i], JNumber(5.0)), lib).Ok?
    ensures r.Ok? ==>
      (|r.value| == |names|
       && forall i :: 0 <= i < |names| ==> r.value[i] == ToFloat(Get(fields, names[i], JNumber(5.0)), lib).value)
    ensures r.Err? ==> r.error == ValueError || r.error == TypeError
  {
    if names == [] then Ok([])
    else
      match ToFloat(Get(fields, names[0], JNumber(5.0)), lib)
      case Err(e) => Err(e)
      case Ok(x) =>
        match ConvertScores(fields, names[1..], lib)
        case Err(e) =>
          assert forall i :: 1 <= i < |names| ==> names[1..][i - 1] == names[i];
          Err(e)
        case Ok(rest) =>
          assert forall i :: 1 <= i < |names| ==> names[1..][i - 1] == names[i];
          Ok([x] + rest)
  }

  /** Criteria that are absent or numbers in [0, 10] convert without error to values in [0, 10]. */
  lemma ConvertValid(fields: map<string, Json>, names: seq<string>, lib: Lib)
    requires forall i :: 0 <= i < |names| ==> ScoreFieldOk(fields, names[i])
    ensures ConvertScores(fields, names, lib).Ok?
    ensures forall i :: 0 <= i < |names| ==> 0.0 <= ConvertScores(fields, names, lib).value[i] <= 10.0
  {
  }

  /** The names a list mentions. */
  function NameSet(names: seq<string>): set<string>
  {
    set i | 0 <= i < |names| :: names[i]
  }

  /** A dict built from names and values in order (a later duplicate name overwrites). */
  function ScoreMap(names: seq<string>, values: seq<real>): (m: map<string, real>)
    requires |names| == |values|
    ensures m.Keys == NameSet(names)
  {
    if names == [] then map[]
    else ScoreMap(names[..|names| - 1], values[..|values| - 1])[names[|names| - 1] := values[|values| - 1]]
  }

  lemma ScoreMapDistinct(names: seq<string>, values: seq<real>, i: nat)
    requires |names| == |values| && i < |names|
    requires forall a, b :: 0 <= a < b < |names| ==> names[a] != names[b]
    ensures ScoreMap(names, values)[names[i]] == values[i]
  {
    if i < |names| - 1 {
      ScoreMapDistinct(names[..|names| - 1], values[..|values| - 1], i);
    }
  }

  /** With distinct names, the dict maps every name to its own value. */
  lemma ScoreMapAll(names: seq<string>, values: seq<real>)
    requires |names| == |values|
    requires forall a, b :: 0 <= a < b < |names| ==> names[a] != names[b]
    ensures forall i :: 0 <= i < |names| ==> names[i] in ScoreMap(names, values) && ScoreMap(names, values)[names[i]] == values[i]
  {
    forall i | 0 <= i < |names|
      ensures names[i] in ScoreMap(names, values) && ScoreMap(names, values)[names[i]] == values[i]
    {
      ScoreMapDistinct(names, values, i);
    }
  }

  /** Equal values give a dict holding that value under every name. */
  lemma {:induction false} ScoreMapConstant(names: seq<string>, values: seq<real>, v: real)
    requires |names| == |values|
    requires forall i :: 0 <= i < |values| ==> values[i] == v
    ensures forall c :: c in ScoreMap(names, values) ==> ScoreMap(names, values)[c] == v
  {
    if names != [] {
      var front := values[..|values| - 1];
      assert forall i :: 0 <= i < |front| ==> front[i] == values[i];
      ScoreMapConstant(names[..|names| - 1], front, v);
    }
  }

  /** The outcome of `_parse_evaluation`: a score, or an exception its `except` clause does not catch. */
  datatype Judged = Scored(quality: QualityScore) | Raised(error: PyError)

  /** The score recorded when the judge's reply cannot be used. */
  function ParseFallback(text: string, e: PyError, lib: Lib): (q: QualityScore)
    ensures q.score == 5.0 && q.criteriaScores == map[]
  {
    var raw := if |text| <= 200 then text else text[..200];
    QualityScore(5.0, "Evaluation parsing error: " + lib.describe(e) + ". Raw: " + raw, map[])
  }

  /**
   * `_parse_evaluation`: JSONDecodeError and ValueError (which includes pydantic's
   * ValidationError) give the fallback score; TypeError and AttributeError escape.
   */
  function ParseEvaluation(text: string, lib: Lib): (r: Judged)
    ensures r.Scored? ==> 0.0 <= r.quality.score <= 10.0
    ensures r.Scored? ==>
      (r.quality.criteriaScores == map[] || r.quality.criteriaScores.Keys == NameSet(JudgeCriteria))
    ensures r.Raised? ==> r.error == TypeError || r.error == AttributeError
  {
    match lib.loads(ExtractObject(text))
    case None => Scored(ParseFallback(text, JsonDecodeError, lib))
    case Some(data) =>
      if !data.JObject? then Raised(AttributeError)
      else ScoreFields(text, data.fields, lib)
  }

  /**
   * The part of `_parse_evaluation` after a dict was decoded: the five criteria, the
   * overall score (given, or their weighted average), the feedback, and validation.
   * Only a TypeError from `float()` escapes.
   */
  function ScoreFields(text: string, fields: map<string, Json>, lib: Lib): (r: Judged)
    ensures r.Scored? ==> 0.0 <= r.quality.score <= 10.0
    ensures r.Scored? ==>
      (r.quality.criteriaScores == map[] || r.quality.criteriaScores.Keys == NameSet(JudgeCriteria))
    ensures r.Raised? ==> r.error == TypeError
  {
    match ConvertScores(fields, JudgeCriteria, lib)
    case Err(e) => if e == ValueError then Scored(ParseFallback(text, e, lib)) else Raised(e)
    case Ok(values) =>
      var overall :=
        if "overall_score" in fields then ToFloat(fields["overall_score"], lib)
        else Ok(WeightedSum(values, JudgeWeights));
      match overall
      case Err(e) => if e == ValueError then Scored(ParseFallback(text, e, lib)) else Raised(e)
      case Ok(x) =>
        var feedback := Get(fields, "feedback", JString("Evaluation completed."));
        match NewQualityScore(Round(x, 1), feedback, ScoreMap(JudgeCriteria, values))
        case Ok(q) => Scored(q)
        case Err(_) => Scored(ParseFallback(text, ValidationError, lib))
  }

  /**
   * `evaluate`: the judge call, then `_parse_evaluation` on its reply. The call is
   * outside the parser's handler, so a failed call (`Err` holding the message of
   * the client's exception) escapes, as does an exception the parser lets through;
   * the result is the quality, or the message of the exception that escapes.
   */
  function Evaluate(reply: Result<string, string>, lib: Lib): (r: Result<QualityScore, string>)
    ensures reply.Err? ==> r == Err(reply.error)
    ensures reply.Ok? ==> (r.Ok? <==> ParseEvaluation(reply.value, lib).Scored?)
    ensures r.Ok? ==> r.value == ParseEvaluation(reply.value, lib).quality && 0.0 <= r.value.score <= 10.0
    ensures reply.Ok? && r.Err? ==> r.error == lib.describe(ParseEvaluation(reply.value, lib).error)
  {
    match reply
    case Err(message) => Err(message)
    case Ok(text) =>
      match ParseEvaluation(text, lib)
      case Raised(e) => Err(lib.describe(e))
      case Scored(q) => Ok(q)
  }

  /** A reply whose object decodes to a dict is scored from that dict's fields. */
  lemma ParseObject(text: string, lib: Lib, fields: map<string, Json>)
    requires lib.loads(ExtractObject(text)) == Some(JObject(fields))
    ensures ParseEvaluation(text, lib) == ScoreFields(text, fields, lib)
  {
  }

  /** A decoded value that is not an object has no `.get`: the AttributeError escapes. */
  lemma ParseNotObject(text: string, lib: Lib, data: Json)
    requires lib.loads(ExtractObject(text)) == Some(data) && !data.JObject?
    ensures ParseEvaluation(text, lib) == Raised(AttributeError)
  {
  }

  /** The criteria are converted in order, so the first one float() rejects decides the error. */
  lemma {:induction false} ConvertFirstError(fields: map<string, Json>, names: seq<string>, lib: Lib, i: nat)
    requires i < |names|
    requires forall j :: 0 <= j < i ==> ToFloat(Get(fields, names[j], JNumber(5.0)), lib).Ok?
    requires ToFloat(Get(fields, names[i], JNumber(5.0)), lib).Err?
    ensures ConvertScores(fields, names, lib) == Err(ToFloat(Get(fields, names[i], JNumber(5.0)), lib).error)
    decreases i
  {
    if i > 0 {
      assert ToFloat(Get(fields, names[0], JNumber(5.0)), lib).Ok?;
      assert forall j :: 0 <= j < |names| - 1 ==> names[1..][j] == names[j + 1];
      ConvertFirstError(fields, names[1..], lib, i - 1);
    }
  }

  /**
   * A criterion score float() cannot read (ValueError) gives the fallback; any other failed
   * conversion (TypeError) escapes the handler.
   */
  lemma CriterionUnreadable(text: string, fields: map<string, Json>, lib: Lib)
    requires ConvertScores(fields, JudgeCriteria, lib).Err?
    ensures ConvertScores(fields, JudgeCriteria, lib).error == ValueError ==>
      ScoreFields(text, fields, lib) == Scored(ParseFallback(text, ValueError, lib))
    ensures ConvertScores(fields, JudgeCriteria, lib).error == TypeError ==>
      ScoreFields(text, fields, lib) == Raised(TypeError)
  {
  }

  /** The same split for an `overall_score` that float() cannot convert. */
  lemma OverallUnreadable(text: string, fields: map<string, Json>, lib: Lib)
    requires ConvertScores(fields, JudgeCriteria, lib).Ok?
    requires "overall_score" in fields && ToFloat(fields["overall_score"], lib).Err?
    ensures ToFloat(fields["overall_score"], lib).error == ValueError ==>
      ScoreFields(text, fields, lib) == Scored(ParseFallback(text, ValueError, lib))
    ensures ToFloat(fields["overall_score"], lib).error == TypeError ==>
      ScoreFields(text, fields, lib) == Raised(TypeError)
  {
  }

  /** A `feedback` that is not a string fails QualityScore validation and gives the fallback. */
  lemma FeedbackNotString(text: string, fields: map<string, Json>, lib: Lib)
    requires ConvertScores(fields, JudgeCriteria, lib).Ok?
    requires "overall_score" !in fields || ToFloat(fields["overall_score"], lib).Ok?
    requires "feedback" in fields && !fields["feedback"].JString?
    ensures ScoreFields(text, fields, lib) == Scored(ParseFallback(text, ValidationError, lib))
  {
  }

  /** A judge field that is absent or a number in [0, 10]. */
  predicate ScoreFieldOk(fields: map<string, Json>, name: string)
  {
    name in fields ==> fields[name].JNumber? && 0.0 <= fields[name].n <= 10.0
  }

  /** A `feedback` field that is absent or a string. */
  predicate FeedbackOk(fields: map<string, Json>)
  {
    "feedback" in fields ==> fields["feedback"].JString?
  }

  /**
   * Without `overall_score`, criteria in [0, 10] always give a valid score: the weighted
   * average of the five criteria (absent ones counted as 5), rounded to one decimal.
   */
  lemma ParseWeightedAverage(text: string, lib: Lib, fields: map<string, Json>)
    requires "overall_score" !in fields && FeedbackOk(fields)
    requires forall i :: 0 <= i < |JudgeCriteria| ==> ScoreFieldOk(fields, JudgeCriteria[i])
    ensures var r := ScoreFields(text, fields, lib);
      r.Scored? && r.quality.criteriaScores.Keys == NameSet(JudgeCriteria)
    ensures ConvertScores(fields, JudgeCriteria, lib).Ok?
    ensures var values := ConvertScores(fields, JudgeCriteria, lib).value;
      ScoreFields(text, fields, lib).quality == QualityScore(
        Round(WeightedSum(values, JudgeWeights), 1),
        Get(fields, "feedback", JString("Evaluation completed.")).s,
        ScoreMap(JudgeCriteria, values))
      && (forall i :: 0 <= i < |JudgeCriteria| ==> 0.0 <= values[i] <= 10.0)
  {
    ConvertValid(fields, JudgeCriteria, lib);
    JudgeWeightsSumToOne();
    WeightedScoreInRange(ConvertScores(fields, JudgeCriteria, lib).value, JudgeWeights);
  }

  lemma RoundFive()
    ensures Round(5.0, 1) == 5.0
  {
    assert Scale(1) == 10.0;
    RoundHalfEvenOfInt(50);
  }

  /** Five default scores average to 5.0 under the judge weights. */
  lemma FivesAverage(fives: seq<real>)
    requires |fives| == |JudgeCriteria| && forall i :: 0 <= i < |fives| ==> fives[i] == 5.0
    ensures Round(WeightedSum(fives, JudgeWeights), 1) == 5.0
  {
    JudgeWeightsSumToOne();
    WeightedSumConstant(fives, JudgeWeights, 5.0);
    RoundFive();
  }

  /**
   * Fields with none of the five criteria, no `overall_score` and no `feedback`: every
   * criterion defaults to 5, their weighted average is 5.0, and the feedback is the default.
   */
  lemma NoScoreFields(text: string, lib: Lib, fields: map<string, Json>, fives: seq<real>)
    requires forall i :: 0 <= i < |JudgeCriteria| ==> JudgeCriteria[i] !in fields
    requires "overall_score" !in fields && "feedback" !in fields
    requires |fives| == |JudgeCriteria| && forall i :: 0 <= i < |fives| ==> fives[i] == 5.0
    ensures ScoreFields(text, fields, lib)
      == Scored(QualityScore(5.0, "Evaluation completed.", ScoreMap(JudgeCriteria, fives)))
  {
    ParseWeightedAverage(text, lib, fields);
    var values := ConvertScores(fields, JudgeCriteria, lib).value;
    assert values == fives;
    FivesAverage(fives);
    var q := ScoreFields(text, fields, lib).quality;
    assert q.score == 5.0;
    assert q.feedback == "Evaluation completed.";
    assert q.criteriaScores == ScoreMap(JudgeCriteria, fives);
    ScoredWith(ScoreFields(text, fields, lib), QualityScore(5.0, "Evaluation completed.", ScoreMap(JudgeCriteria, fives)));
  }

  /** A reply with none of the fields scores every criterion 5 and the whole answer 5.0. */
  lemma ParseEmptyObject(text: string, lib: Lib)
    requires lib.loads(ExtractObject(text)) == Some(JObject(map[]))
    ensures ParseEvaluation(text, lib)
      == Scored(QualityScore(5.0, "Evaluation completed.", ScoreMap(JudgeCriteria, [5.0, 5.0, 5.0, 5.0, 5.0])))
  {
    ParseObject(text, lib, map[]);
    NoScoreFields(text, lib, map[], [5.0, 5.0, 5.0, 5.0, 5.0]);
  }

  /** A scored outcome is determined by its quality. */
  lemma ScoredWith(r: Judged, q: QualityScore)
    requires r.Scored? && r.quality == q
    ensures r == Scored(q)
  {
  }

  /** A judge `overall_score` in [0, 10] is used as given, rounded to one decimal. */
  lemma ParseOverallScore(text: string, lib: Lib, fields: map<string, Json>, overall: real)
    requires "overall_score" in fields && fields["overall_score"] == JNumber(overall)
    requires 0.0 <= overall <= 10.0 && FeedbackOk(fields)
    requires forall i :: 0 <= i < |JudgeCriteria| ==> ScoreFieldOk(fields, JudgeCriteria[i])
    ensures ScoreFields(text, fields, lib).Scored?
    ensures ScoreFields(text, fields, lib).quality.score == Round(overall, 1)
  {
    assert ConvertScores(fields, JudgeCriteria, lib).Ok?;
    RoundScoreInRange(overall);
  }

  /** An `overall_score` that rounds above 10 or below 0 fails validation and falls back to 5.0. */
  lemma ParseOverallOutOfRange(text: string, lib: Lib, fields: map<string, Json>, overall: real)
    requires "overall_score" in fields && fields["overall_score"] == JNumber(overall)
    requires Round(overall, 1) > 10.0 || Round(overall, 1) < 0.0
    requires forall i :: 0 <= i < |JudgeCriteria| ==> ScoreFieldOk(fields, JudgeCriteria[i])
    ensures ScoreFields(text, fields, lib) == Scored(ParseFallback(text, ValidationError, lib))
  {
    assert ConvertScores(fields, JudgeCriteria, lib).Ok?;
  }

  lemma ParseUnreadable(text: string, lib: Lib)
    requires lib.loads(ExtractObject(text)).None?
    ensures var r := ParseEvaluation(text, lib);
      r.Scored? && r.quality.score == 5.0 && r.quality.criteriaScores == map[]
      && var prefix := "Evaluation parsing error: " + lib.describe(JsonDecodeError) + ". Raw: ";
      |prefix| <= |r.quality.feedback| <= |prefix| + 200
      && r.quality.feedback[..|prefix|] == prefix
      && r.quality.feedback[|prefix|..] == text[..|r.quality.feedback| - |prefix|]
  {
  }

  // ============ compare_responses ============

  /** The verdict returned when no JSON object can be read from the judge's comparison. */
  const CompareFallback: Json := JObject(map[
    "winner" := JString("tie"),
    "a_score" := JNumber(5.0),
    "b_score" := JNumber(5.0),
    "reasoning" := JString("Could not parse comparison")])

  /**
   * The result of `compare_responses` for the judge's reply: the first brace-free
   * object decoded as is, or the tie fallback. Unlike `_parse_evaluation`, a reply
   * without such an object is not decoded as a whole.
   */
  function CompareVerdict(reply: string, lib: Lib): (v: Json)
    ensures FindObject(reply).None? ==> v == CompareFallback
    ensures FindObject(reply).Some? && lib.loads(ExtractObject(reply)).None? ==> v == CompareFallback
    ensures FindObject(reply).Some? && lib.loads(ExtractObject(reply)).Some? ==>
      v == lib.loads(ExtractObject(reply)).value
  {
    if FindObject(reply).None? then CompareFallback
    else
      match lib.loads(ExtractObject(reply))
      case Some(v) => v
      case None => CompareFallback
  }

  // ============ RubricEvaluator ============

  datatype Rubric = Rubric(criteria: seq<string>, weights: seq<real>)

  /** `RUBRICS`. */
  const Rubrics: map<string, Rubric> := map[
    "factual_qa" := Rubric(["accuracy", "completeness", "citation"], [0.5, 0.3, 0.2]),
    "creative_writing" := Rubric(["creativity", "coherence", "engagement"], [0.4, 0.3, 0.3]),
    "code_explanation" := Rubric(["accuracy", "clarity", "examples"], [0.4, 0.35, 0.25]),
    "summarization" := Rubric(["conciseness", "completeness", "accuracy"], [0.3, 0.35, 0.35])]

  /** A rubric whose criteria are distinct and whose non-negative weights pair with them and sum to 1. */
  predicate WellFormed(r: Rubric)
  {
    |r.criteria| == |r.weights| && Sum(r.weights) == 1.0
    && (forall i :: 0 <= i < |r.weights| ==> r.weights[i] >= 0.0)
    && (forall a, b :: 0 <= a < b < |r.criteria| ==> r.criteria[a] != r.criteria[b])
  }

  lemma ThreeWeights(r: Rubric)
    requires |r.weights| == 3 && r.weights[0] + r.weights[1] + r.weights[2] == 1.0
    ensures Sum(r.weights) == 1.0
  {
    var w := r.weights;
    assert w[1..][1..] == [w[2]];
    assert Sum([w[2]]) == w[2] + Sum([]);
    assert Sum(w[1..]) == w[1] + Sum(w[1..][1..]);
  }

  lemma RubricsWellFormed()
    ensures forall k :: k in Rubrics ==> WellFormed(Rubrics[k])
  {
    ThreeWeights(Rubrics["factual_qa"]);
    ThreeWeights(Rubrics["creative_writing"]);
    ThreeWeights(Rubrics["code_explanation"]);
    ThreeWeights(Rubrics["summarization"]);
  }

  /** An unknown rubric type falls back to "factual_qa". */
  function SelectRubric(kind: string): (r: Rubric)
    ensures kind in Rubrics ==> r == Rubrics[kind]
    ensures kind !in Rubrics ==> r == Rubrics["factual_qa"]
    ensures WellFormed(r)
  {
    RubricsWellFormed();
    if kind in Rubrics then Rubrics[kind] else Rubrics["factual_qa"]
  }

  const RubricFallback := QualityScore(5.0, "Rubric evaluation failed", map[])

  /**
   * `evaluate_with_rubric` for the judge's reply: its bare `except` turns every
   * failure (no object, bad JSON, a non-numeric score, a rejected QualityScore)
   * into the fallback.
   */
  function EvaluateWithRubric(reply: string, kind: string, lib: Lib): (q: QualityScore)
    ensures 0.0 <= q.score <= 10.0
    ensures q == RubricFallback || q.criteriaScores.Keys == NameSet(SelectRubric(kind).criteria)
    ensures FindObject(reply).None? ==> q == RubricFallback
    ensures FindObject(reply).Some? && lib.loads(ExtractObject(reply)).None? ==> q == RubricFallback
    ensures (FindObject(reply).Some? && lib.loads(ExtractObject(reply)).Some?
             && !lib.loads(ExtractObject(reply)).value.JObject?) ==> q == RubricFallback
  {
    var rubric := SelectRubric(kind);
    if FindObject(reply).None? then RubricFallback
    else
      match lib.loads(ExtractObject(reply))
      case None => RubricFallback
      case Some(data) =>
        if !data.JObject? then RubricFallback
        else RubricQuality(data.fields, rubric, lib)
  }

  /** The rubric score of a decoded dict: any failure gives the fallback. */
  function RubricQuality(fields: map<string, Json>, rubric: Rubric, lib: Lib): (q: QualityScore)
    requires |rubric.criteria| == |rubric.weights|
    ensures 0.0 <= q.score <= 10.0
    ensures q == RubricFallback || q.criteriaScores.Keys == NameSet(rubric.criteria)
    ensures ConvertScores(fields, rubric.criteria, lib).Err? ==> q == RubricFallback
    ensures "feedback" in fields && !fields["feedback"].JString? ==> q == RubricFallback
    ensures ConvertScores(fields, rubric.criteria, lib).Ok? ==>
      var overall := Round(WeightedSum(ConvertScores(fields, rubric.criteria, lib).value, rubric.weights), 1);
      !(0.0 <= overall <= 10.0) ==> q == RubricFallback
    ensures q != RubricFallback ==>
      ConvertScores(fields, rubric.criteria, lib).Ok?
      && q.score == Round(WeightedSum(ConvertScores(fields, rubric.criteria, lib).value, rubric.weights), 1)
      && q.feedback == Get(fields, "feedback", JString("")).s
      && q.criteriaScores == ScoreMap(rubric.criteria, ConvertScores(fields, rubric.criteria, lib).value)
  {
    match ConvertScores(fields, rubric.criteria, lib)
    case Err(_) => RubricFallback
    case Ok(values) =>
      var overall := WeightedSum(values, rubric.weights);
      match NewQualityScore(Round(overall, 1), Get(fields, "feedback", JString("")),
                            ScoreMap(rubric.criteria, values))
      case Ok(q) => q
      case Err(_) => RubricFallback
  }

  /** A rubric reply whose object decodes to a dict is scored from that dict's fields. */
  lemma RubricObject(reply: string, kind: string, lib: Lib, fields: map<string, Json>)
    requires FindObject(reply).Some? && lib.loads(ExtractObject(reply)) == Some(JObject(fields))
    ensures EvaluateWithRubric(reply, kind, lib) == RubricQuality(fields, SelectRubric(kind), lib)
  {
  }

  /** Criteria in [0, 10] always give the rounded weighted score; no valid reply is discarded. */
  lemma RubricScoresValid(fields: map<string, Json>, rubric: Rubric, lib: Lib)
    requires WellFormed(rubric) && FeedbackOk(fields)
    requires forall c :: c in rubric.criteria ==> ScoreFieldOk(fields, c)
    ensures ConvertScores(fields, rubric.criteria, lib).Ok?
    ensures var values := ConvertScores(fields, rubric.criteria, lib).value;
      RubricQuality(fields, rubric, lib) == QualityScore(
        Round(WeightedSum(values, rubric.weights), 1),
        Get(fields, "feedback", JString("")).s,
        ScoreMap(rubric.criteria, values))
  {
    assert forall i :: 0 <= i < |rubric.criteria| ==> ScoreFieldOk(fields, rubric.criteria[i]);
    ConvertValid(fields, rubric.criteria, lib);
    WeightedScoreInRange(ConvertScores(fields, rubric.criteria, lib).value, rubric.weights);
  }
}
