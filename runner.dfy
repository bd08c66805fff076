/**
 * The deterministic part of the prompt runner (app/runner.py): the system prompt
 * for a style, the two chat messages, the fold over a streamed reply and the
 * normalisation of batch outcomes. The stream is an input sequence of chunks,
 * each with the clock reading at which it was processed.
 */
module Runner {
  import opened Common
  import opened Json
  import opened Schemas
  import opened Metrics

  // ============ System prompts and messages ============

  // Each prompt is written as its opening words, which tell the six apart, and the rest.
  const EducationalPrompt := "You are a helpful"
    + " educational assistant. Provide clear, well-structured explanations that are easy to understand. Use examples when helpful."
  const TechnicalPrompt := "You are a technical"
    + " expert. Provide precise, accurate, and detailed technical information. Include relevant technical terms and specifications."
  const ConcisePrompt := "You are a concise"
    + " assistant. Provide brief, to-the-point answers. Avoid unnecessary elaboration while ensuring completeness."
  const CreativePrompt := "You are a creative"
    + " assistant. Provide imaginative, engaging, and original responses. Feel free to be playful with language."
  const FormalPrompt := "You are a professional"
    + " assistant. Provide formal, well-structured responses suitable for business or academic contexts."
  const ConversationalPrompt := "You are a friendly"
    + " conversational assistant. Provide natural, engaging responses as if chatting with a friend."

  /** `_get_system_prompt`'s table, keyed by the style's string value. */
  const StylePrompts: map<string, string> := map[
    "educational" := EducationalPrompt,
    "technical" := TechnicalPrompt,
    "concise" := ConcisePrompt,
    "creative" := CreativePrompt,
    "formal" := FormalPrompt,
    "conversational" := ConversationalPrompt]

  /** `_get_system_prompt` for a style key (an enum is first turned into its value). */
  function SystemPrompt(styleKey: string): (p: string)
    ensures styleKey in StylePrompts ==> p == StylePrompts[styleKey]
    ensures styleKey !in StylePrompts ==> p == StylePrompts["educational"]
  {
    if styleKey in StylePrompts then StylePrompts[styleKey] else StylePrompts["educational"]
  }

  /** The table has exactly one entry per ExpectedStyle. */
  lemma StylePromptsMatchStyles()
    ensures forall st: ExpectedStyle :: st.Value() in StylePrompts
    ensures forall k :: k in StylePrompts ==> exists st: ExpectedStyle :: st.Value() == k
  {
    assert Educational.Value() == "educational" && Technical.Value() == "technical";
    assert Concise.Value() == "concise" && Creative.Value() == "creative";
    assert Formal.Value() == "formal" && Conversational.Value() == "conversational";
  }

  /** Two letters that tell the six prompts apart (they all open with "You are a "). */
  function PromptTag(st: ExpectedStyle): string
  {
    match st
    case Educational => "he"
    case Technical => "te"
    case Concise => "co"
    case Creative => "cr"
    case Formal => "pr"
    case Conversational => "fr"
  }

  lemma PromptTagged(st: ExpectedStyle)
    ensures |SystemPrompt(st.Value())| > 12 && SystemPrompt(st.Value())[10..12] == PromptTag(st)
  {
    match st
    case Educational =>
      assert EducationalPrompt[10..12] == "he";
    case Technical =>
      assert TechnicalPrompt[10..12] == "te";
    case Concise =>
      assert ConcisePrompt[10..12] == "co";
    case Creative =>
      assert CreativePrompt[10..12] == "cr";
    case Formal =>
      assert FormalPrompt[10..12] == "pr";
    case Conversational =>
      assert ConversationalPrompt[10..12] == "fr";
  }

  /** No two styles share a system prompt. */
  lemma SystemPromptsDistinct(s1: ExpectedStyle, s2: ExpectedStyle)
    requires s1 != s2
    ensures SystemPrompt(s1.Value()) != SystemPrompt(s2.Value())
  {
    PromptTagged(s1);
    PromptTagged(s2);
  }

  datatype Message = Message(role: string, content: string)

  /** The messages `run_prompt` sends: the style's system prompt, then the user's prompt text. */
  function BuildMessages(prompt: EvalPrompt): (ms: seq<Message>)
    ensures |ms| == 2
    ensures ms[0] == Message("system", SystemPrompt(prompt.expectedStyle.Value()))
    ensures ms[1] == Message("user", prompt.prompt)
  {
    [Message("system", SystemPrompt(prompt.expectedStyle.Value())), Message("user", prompt.prompt)]
  }

  // ============ The streamed reply ============

  datatype Usage = Usage(promptTokens: int, completionTokens: int)

  /**
   * One streamed chunk: when it was processed, the first choice's delta content
   * (None when there is no choice or no content) and the usage it reports, if any.
   */
  datatype Chunk = Chunk(arrival: real, content: Option<string>, usage: Option<Usage>)

  /** A delta that is appended: present and non-empty. */
  predicate HasText(c: Chunk)
  {
    c.content.Some? && c.content.value != []
  }

  /** `response_chunks`: the appended deltas, in order. */
  function Pieces(chunks: seq<Chunk>): (ps: seq<string>)
    ensures |ps| <= |chunks|
    ensures forall p :: p in ps ==> p != []
    ensures ps == [] <==> forall i :: 0 <= i < |chunks| ==> !HasText(chunks[i])
  {
    if chunks == [] then []
    else
      var rest := Pieces(chunks[..|chunks| - 1]);
      var last := chunks[|chunks| - 1];
      assert forall i :: 0 <= i < |chunks| - 1 ==> chunks[..|chunks| - 1][i] == chunks[i];
      rest + (if HasText(last) then [last.content.value] else [])
  }

  /** `"".join(pieces)`. */
  function Concat(pieces: seq<string>): string
  {
    if pieces == [] then [] else Concat(pieces[..|pieces| - 1]) + pieces[|pieces| - 1]
  }

  lemma {:induction false} ConcatAppend(a: seq<string>, b: seq<string>)
    ensures Concat(a + b) == Concat(a) + Concat(b)
    decreases |b|
  {
    if b == [] {
      assert a + b == a;
    } else {
      assert (a + b)[..|a + b| - 1] == a + b[..|b| - 1];
      ConcatAppend(a, b[..|b| - 1]);
    }
  }

  lemma {:induction false} PiecesAppend(a: seq<Chunk>, b: seq<Chunk>)
    ensures Pieces(a + b) == Pieces(a) + Pieces(b)
    decreases |b|
  {
    if b == [] {
      assert a + b == a;
    } else {
      var front, last := b[..|b| - 1], b[|b| - 1];
      var tail := if HasText(last) then [last.content.value] else [];
      assert (a + b)[..|a + b| - 1] == a + front;
      assert (a + b)[|a + b| - 1] == last;
      assert Pieces(a + b) == Pieces(a + front) + tail;
      assert Pieces(b) == Pieces(front) + tail;
      PiecesAppend(a, front);
      assert Pieces(a + b) == Pieces(a) + (Pieces(front) + tail);
    }
  }

  /** The reply text of a stream: the in-order concatenation of its non-empty deltas. */
  function StreamText(chunks: seq<Chunk>): string
  {
    Concat(Pieces(chunks))
  }

  /** Splitting a stream anywhere splits its text there: nothing is dropped or reordered. */
  lemma StreamTextAppend(a: seq<Chunk>, b: seq<Chunk>)
    ensures StreamText(a + b) == StreamText(a) + StreamText(b)
  {
    PiecesAppend(a, b);
    ConcatAppend(Pieces(a), Pieces(b));
  }

  /** A chunk without text adds nothing to the reply; a chunk with text adds exactly its delta. */
  lemma StreamTextStep(chunks: seq<Chunk>, c: Chunk)
    ensures StreamText(chunks + [c]) == StreamText(chunks) + (if HasText(c) then c.content.value else [])
  {
    StreamTextAppend(chunks, [c]);
    assert [c][..0] == [];
    assert Pieces([c]) == (if HasText(c) then [c.content.value] else []);
    if HasText(c) {
      assert Concat([c.content.value]) == Concat([]) + c.content.value;
    }
  }

  /**
   * The collector's fields after streaming into collector `c` from clock reading
   * `start` to `end`: the first chunk marks the first token unless one was already
   * marked, and the last chunk's usage, if any, sets both token counts.
   */
  function AfterStream(c: Collected, start: real, chunks: seq<Chunk>, end: real): Collected
  {
    var first := if c.firstTokenTime.Some? || chunks == [] then c.firstTokenTime else Some(chunks[0].arrival);
    var usage := if chunks == [] then None else chunks[|chunks| - 1].usage;
    c.(startTime := Some(start), endTime := Some(end), firstTokenTime := first,
       inputTokens := if usage.Some? then usage.value.promptTokens else c.inputTokens,
       outputTokens := if usage.Some? then usage.value.completionTokens else c.outputTokens)
  }

  /**
   * `_run_streaming`: the fold over the stream inside `measure_latency`. An empty
   * stream leaves `chunk` unbound when the usage is read, which raises; the end
   * time is still recorded on the way out.
   */
  method RunStreaming(collector: MetricsCollector, start: real, chunks: seq<Chunk>, end: real)
    returns (r: Result<string, PyError>)
    modifies collector
    ensures chunks == [] ==> r == Err(NameError)
    ensures chunks != [] ==> r == Ok(StreamText(chunks))
    ensures collector.Snapshot() == AfterStream(old(collector.Snapshot()), start, chunks, end)
  {
    ghost var before := collector.Snapshot();
    collector.BeginMeasure(start);
    var pieces: seq<string> := [];
    for i := 0 to |chunks|
      invariant pieces == Pieces(chunks[..i])
      invariant collector.Snapshot() == before.(startTime := Some(start),
        firstTokenTime := if before.firstTokenTime.Some? || i == 0 then before.firstTokenTime else Some(chunks[0].arrival))
    {
      assert chunks[..i + 1][..i] == chunks[..i];
      if pieces == [] {
        collector.MarkFirstToken(chunks[i].arrival);
      }
      if HasText(chunks[i]) {
        pieces := pieces + [chunks[i].content.value];
      }
    }
    assert chunks[..|chunks|] == chunks;
    if chunks == [] {
      collector.EndMeasure(end);
      return Err(NameError);
    }
    var last := chunks[|chunks| - 1];
    if last.usage.Some? {
      collector.RecordTokens(last.usage.value.promptTokens, last.usage.value.completionTokens);
    }
    collector.EndMeasure(end);
    r := Ok(Concat(pieces));
  }

  /** Clock readings that never go backwards: start, then each chunk, then end. */
  predicate Chronological(start: real, chunks: seq<Chunk>, end: real)
  {
    (forall i :: 0 <= i < |chunks| ==> start <= chunks[i].arrival <= end)
    && start <= end
  }

  /**
   * On a fresh collector, a chronological non-empty stream yields a TTFT measured at
   * the first chunk, no larger than the total latency, and the last chunk's usage
   * (zero tokens when it reports none).
   */
  lemma FreshStreamMetrics(start: real, chunks: seq<Chunk>, end: real)
    requires chunks != [] && Chronological(start, chunks, end)
    ensures var c := AfterStream(Unmeasured, start, chunks, end);
      c.TimeToFirstTokenMs() == Some((chunks[0].arrival - start) * 1000.0)
      && 0.0 <= c.TimeToFirstTokenMs().value <= c.TotalLatencyMs()
      && (chunks[|chunks| - 1].usage.None? ==> c.TotalTokens() == 0)
      && (chunks[|chunks| - 1].usage.Some? ==>
            c.TotalTokens() == chunks[|chunks| - 1].usage.value.promptTokens + chunks[|chunks| - 1].usage.value.completionTokens)
  {
    FirstTokenWithinLatency(AfterStream(Unmeasured, start, chunks, end));
  }

  /**
   * `run_prompt` with streaming: a fresh collector, the two messages sent and the
   * streamed reply.
   */
  method RunPrompt(prompt: EvalPrompt, start: real, chunks: seq<Chunk>, end: real)
    returns (messages: seq<Message>, text: Result<string, PyError>, collector: MetricsCollector)
    ensures messages == BuildMessages(prompt)
    ensures fresh(collector)
    ensures collector.Snapshot() == AfterStream(Unmeasured, start, chunks, end)
    ensures chunks == [] ==> text == Err(NameError)
    ensures chunks != [] ==> text == Ok(StreamText(chunks))
  {
    collector := new MetricsCollector();
    messages := BuildMessages(prompt);
    text := RunStreaming(collector, start, chunks, end);
  }

  // ============ run_batch ============

  /** The entry recorded for a prompt whose run raised: its message and an empty collector. */
  function FailedEntry(message: string): (string, Collected)
  {
    ("Error: " + message, Unmeasured)
  }

  /**
   * `run_batch` after `gather`: one outcome per prompt, in prompt order; an outcome
   * is the run's (text, collector) or the text of the exception it raised.
   */
  method RunBatch(outcomes: seq<Result<(string, Collected), string>>) returns (results: seq<(string, Collected)>)
    ensures |results| == |outcomes|
    ensures forall i :: 0 <= i < |outcomes| && outcomes[i].Ok? ==> results[i] == outcomes[i].value
    ensures forall i :: 0 <= i < |outcomes| && outcomes[i].Err? ==> results[i] == FailedEntry(outcomes[i].error)
  {
    results := [];
    for i := 0 to |outcomes|
      invariant |results| == i
      invariant forall k :: 0 <= k < i && outcomes[k].Ok? ==> results[k] == outcomes[k].value
      invariant forall k :: 0 <= k < i && outcomes[k].Err? ==> results[k] == FailedEntry(outcomes[k].error)
    {
      match outcomes[i]
      case Err(message) =>
        results := results + [FailedEntry(message)];
      case Ok(entry) =>
        results := results + [entry];
    }
  }

  /**
   * A failed entry's metrics: an "Error: " response, zero tokens, zero latency, no
   * TTFT or speed, and the "Not evaluated" quality until a judge scores it.
   */
  lemma FailedEntryMetrics(message: string)
    ensures var (text, c) := FailedEntry(message);
      text[..7] == "Error: " && text[7..] == message
      && c.ToEvalMetrics().tokens == TokenMetrics(0, 0, 0)
      && c.ToEvalMetrics().latency == LatencyMetrics(0.0, None, None)
      && c.ToEvalMetrics().quality == QualityScore(0.0, "Not evaluated", map[])
  {
    assert Numeric.Round(0.0, 2) == 0.0;
  }
}
