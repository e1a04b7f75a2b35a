/**
 * The LLM client (core/llm/client.py): the OpenAI-format tool list, the request's tool keys,
 * the chunk folding of `_stream_response` and the error wrapping of `chat_completion`. The
 * response is the sequence of chunks the API streams, and `failure` the text of an exception
 * raised after them, if any; `json.loads` is the parameter `decode`.
 */
module LlmClient {
  import opened Wrappers
  import Json
  import LlmModels

  type StreamEvent = LlmModels.StreamEvent
  type TokenUsage = LlmModels.TokenUsage

  // ---------------------------------------------------------------------------------------
  // Tools

  /** The parameters schema a tool without one is given. */
  const EmptyParameters := Json.Obj(map["type" := Json.Str("object"), "properties" := Json.Obj(map[])])

  /** One `_build_tools` entry. */
  function ToolEntry(tool: map<string, Json.Value>): (v: Json.Value)
    requires "name" in tool
    ensures v.Obj? && v.fields.Keys == {"type", "function"} && v.fields["type"] == Json.Str("function")
    ensures var f := v.fields["function"];
            f.Obj? && f.fields.Keys == {"name", "description", "parameters"} && f.fields["name"] == tool["name"]
            && f.fields["description"] == (if "description" in tool then tool["description"] else Json.Str(""))
            && f.fields["parameters"] == (if "parameters" in tool then tool["parameters"] else EmptyParameters)
  {
    Json.Obj(map["type" := Json.Str("function"),
                 "function" := Json.Obj(map["name" := tool["name"],
                                            "description" := Json.Get(Json.Obj(tool), "description", Json.Str("")),
                                            "parameters" := Json.Get(Json.Obj(tool), "parameters", EmptyParameters)])])
  }

  /** `_build_tools`: one entry per tool, in order. */
  function BuildTools(tools: seq<map<string, Json.Value>>): (r: seq<Json.Value>)
    requires forall i | 0 <= i < |tools| :: "name" in tools[i]
    ensures |r| == |tools|
    ensures forall i | 0 <= i < |tools| :: r[i] == ToolEntry(tools[i])
  {
    seq(|tools|, i requires 0 <= i < |tools| => ToolEntry(tools[i]))
  }

  /** The request keys `chat_completion` sends: "tools" and "tool_choice" only for a non-empty tool list. */
  function RequestKeys(tools: Option<seq<map<string, Json.Value>>>): (ks: set<string>)
    ensures {"model", "messages", "stream", "temperature"} <= ks
    ensures ("tools" in ks) <==> tools.Some? && |tools.value| > 0
    ensures ("tool_choice" in ks) <==> ("tools" in ks)
  {
    {"model", "messages", "stream", "temperature"}
      + (if tools.Some? && |tools.value| > 0 then {"tools", "tool_choice"} else {})
  }

  // ---------------------------------------------------------------------------------------
  // Chunks

  datatype FunctionDelta = FunctionDelta(name: Option<string>, arguments: Option<string>)

  /** One `delta.tool_calls` entry. */
  datatype ToolCallChunk = ToolCallChunk(index: int, id: Option<string>, call: Option<FunctionDelta>)

  datatype Choice = Choice(finishReason: Option<string>, content: Option<string>, toolCalls: seq<ToolCallChunk>)

  /** `chunk.usage`; each count may be missing, and `cached` is absent without prompt token details. */
  datatype RawUsage = RawUsage(prompt: Option<nat>, completion: Option<nat>, total: Option<nat>, cached: Option<nat>)

  datatype Chunk = Chunk(usage: Option<RawUsage>, choices: seq<Choice>)

  /** A string field that is set and non-empty, as Python's truthiness sees it. */
  predicate Given(s: Option<string>)
  {
    s.Some? && s.value != ""
  }

  /** The `TokenUsage` built from a chunk's usage; a missing count is 0. */
  function ToUsage(u: RawUsage): (t: TokenUsage)
    ensures u.total.Some? ==> t.totalTokens == u.total.value
    ensures u.cached.None? ==> t.cachedTokens == 0
  {
    LlmModels.TokenUsage(u.prompt.GetOr(0), u.completion.GetOr(0), u.total.GetOr(0), u.cached.GetOr(0))
  }

  /** The `tool_calls[idx]` entry being assembled. */
  datatype Entry = Entry(id: string, name: string, arguments: string)

  /** The fragment of arguments a delta carries, "" when it has none. */
  function Fragment(d: ToolCallChunk): string
  {
    if d.call.Some? && Given(d.call.value.arguments) then d.call.value.arguments.value else ""
  }

  /** The name a delta carries, "" when it has none. */
  function NameIn(d: ToolCallChunk): string
  {
    if d.call.Some? && Given(d.call.value.name) then d.call.value.name.value else ""
  }

  function StartEvent(id: string, name: string): StreamEvent
  {
    LlmModels.Event(LlmModels.ToolCallStart).(toolCallDelta := Some(LlmModels.ToolCallDelta(id, Some(name), "")))
  }

  function DeltaEvent(id: string, name: string, fragment: string): StreamEvent
  {
    LlmModels.Event(LlmModels.ToolCallDeltaEvent).(toolCallDelta := Some(LlmModels.ToolCallDelta(id, Some(name), fragment)))
  }

  function TextEvent(content: string): StreamEvent
  {
    LlmModels.Event(LlmModels.TextDeltaEvent).(textDelta := Some(content))
  }

  /** The arguments of an entry once `ToolCall` has validated them; None when that raises. */
  function Arguments(e: Entry, decode: string -> Option<Json.Value>): Option<Json.Value>
  {
    LlmModels.ToolCallArguments(LlmModels.ParseToolCallArguments(e.arguments, decode), decode)
  }

  predicate Builds(e: Entry, decode: string -> Option<Json.Value>)
  {
    Arguments(e, decode).Some?
  }

  function CompleteEvent(e: Entry, decode: string -> Option<Json.Value>): StreamEvent
    requires Builds(e, decode)
  {
    LlmModels.Event(LlmModels.ToolCallComplete)
      .(toolCall := Some(LlmModels.ToolCall(e.id, Some(e.name), Arguments(e, decode).value)))
  }

  function FinalEvent(finish: Option<string>, usage: Option<TokenUsage>): StreamEvent
  {
    LlmModels.Event(LlmModels.MessageComplete).(finishReason := finish, usage := usage)
  }

  /** The local state of `_stream_response` while chunks arrive. */
  datatype Folded = Folded(finish: Option<string>, usage: Option<TokenUsage>, order: seq<int>,
                           calls: map<int, Entry>, events: seq<StreamEvent>)

  const Start := Folded(None, None, [], map[], [])

  /** The indices in first-seen order are exactly the dict's keys, each once. */
  predicate WellKept(f: Folded)
  {
    (forall i | 0 <= i < |f.order| :: f.order[i] in f.calls)
    && (forall k | k in f.calls :: k in f.order)
    && (forall i, j | 0 <= i < j < |f.order| :: f.order[i] != f.order[j])
  }

  /** One `tool_call_delta`: a first sighting makes the entry, a fragment is appended. */
  function DeltaStep(f: Folded, d: ToolCallChunk): (g: Folded)
    ensures d.index in g.calls
  {
    var f1 :=
      if d.index in f.calls then f
      else
        var id := d.id.GetOr("");
        f.(order := f.order + [d.index], calls := f.calls[d.index := Entry(id, NameIn(d), "")],
           events := f.events + (if NameIn(d) != "" then [StartEvent(id, NameIn(d))] else []));
    if Fragment(d) != "" then
      var e := f1.calls[d.index];
      f1.(calls := f1.calls[d.index := e.(arguments := e.arguments + Fragment(d))],
          events := f1.events + [DeltaEvent(e.id, e.name, Fragment(d))])
    else f1
  }

  function DeltasStep(f: Folded, ds: seq<ToolCallChunk>): Folded
  {
    if ds == [] then f else DeltaStep(DeltasStep(f, ds[..|ds| - 1]), ds[|ds| - 1])
  }

  /** One chunk: its usage, then (if it has a choice) the finish reason, the text and the tool-call deltas. */
  function ChunkStep(f: Folded, c: Chunk): Folded
  {
    var f0 := if c.usage.Some? then f.(usage := Some(ToUsage(c.usage.value))) else f;
    if c.choices == [] then f0
    else
      var ch := c.choices[0];
      var f1 := if Given(ch.finishReason) then f0.(finish := ch.finishReason) else f0;
      var f2 := if Given(ch.content) then f1.(events := f1.events + [TextEvent(ch.content.value)]) else f1;
      DeltasStep(f2, ch.toolCalls)
  }

  /** The `async for chunk in response` loop. */
  function Fold(chunks: seq<Chunk>): Folded
  {
    if chunks == [] then Start else ChunkStep(Fold(chunks[..|chunks| - 1]), chunks[|chunks| - 1])
  }

  /**
   * How many entries, in first-seen order, build a `ToolCall` before the first whose arguments
   * fail validation: all of them when none fails.
   */
  function Buildable(order: seq<int>, calls: map<int, Entry>, decode: string -> Option<Json.Value>): (k: nat)
    requires forall i | 0 <= i < |order| :: order[i] in calls
    ensures k <= |order|
    ensures forall i | 0 <= i < k :: Builds(calls[order[i]], decode)
    ensures k < |order| ==> !Builds(calls[order[k]], decode)
  {
    if order == [] || !Builds(calls[order[0]], decode) then 0
    else
      var k := Buildable(order[1..], calls, decode);
      assert forall i | 1 <= i < k + 1 :: order[i] == order[1..][i - 1];
      1 + k
  }

  /** The completion events, one per entry in first-seen order, up to the first that fails validation. */
  function Completes(order: seq<int>, calls: map<int, Entry>, decode: string -> Option<Json.Value>): (evs: seq<StreamEvent>)
    requires forall i | 0 <= i < |order| :: order[i] in calls
    ensures |evs| == Buildable(order, calls, decode)
    ensures forall i | 0 <= i < |evs| :: evs[i] == CompleteEvent(calls[order[i]], decode)
  {
    var k := Buildable(order, calls, decode);
    seq(k, i requires 0 <= i < k => CompleteEvent(calls[order[i]], decode))
  }

  /** Some entry of `f` fails `ToolCall` validation, which raises in `_stream_response`. */
  predicate RejectsAt(f: Folded, decode: string -> Option<Json.Value>)
    requires WellKept(f)
  {
    Buildable(f.order, f.calls, decode) < |f.order|
  }

  /** The events of `f`, its completions, and the MESSAGE_COMPLETE when no entry was rejected. */
  function EventsAt(f: Folded, decode: string -> Option<Json.Value>): seq<StreamEvent>
    requires WellKept(f)
  {
    f.events + Completes(f.order, f.calls, decode) + (if RejectsAt(f, decode) then [] else [FinalEvent(f.finish, f.usage)])
  }

  /** Some entry's arguments fail `ToolCall` validation. */
  predicate Rejects(chunks: seq<Chunk>, decode: string -> Option<Json.Value>)
  {
    FoldKeeps(chunks);
    RejectsAt(Fold(chunks), decode)
  }

  /** What `_stream_response` yields before it ends or raises. */
  function StreamEvents(chunks: seq<Chunk>, decode: string -> Option<Json.Value>): seq<StreamEvent>
  {
    FoldKeeps(chunks);
    EventsAt(Fold(chunks), decode)
  }

  function ErrorEvent(msg: string): StreamEvent
  {
    LlmModels.Event(LlmModels.Error).(error := Some(msg))
  }

  /**
   * What `chat_completion` yields: the stream, or what was yielded before an exception and then
   * one error. `failure` is an exception raised while the chunks arrive; `rejection` the text of
   * the ValidationError of a rejected entry.
   */
  function ChatCompletion(chunks: seq<Chunk>, failure: Option<string>, decode: string -> Option<Json.Value>,
                          rejection: string): seq<StreamEvent>
  {
    match failure
    case None => StreamEvents(chunks, decode) + (if Rejects(chunks, decode) then [ErrorEvent(rejection)] else [])
    case Some(msg) => Fold(chunks).events + [ErrorEvent(msg)]
  }

  // ---------------------------------------------------------------------------------------
  // The fold keeps its shape

  /** Events during the fold are text, start and delta events only. */
  predicate Incremental(evs: seq<StreamEvent>)
  {
    forall i | 0 <= i < |evs| ::
      evs[i].kind == LlmModels.TextDeltaEvent || evs[i].kind == LlmModels.ToolCallStart
      || evs[i].kind == LlmModels.ToolCallDeltaEvent
  }

  lemma DeltaStepKeeps(f: Folded, d: ToolCallChunk)
    requires WellKept(f) && Incremental(f.events)
    ensures WellKept(DeltaStep(f, d)) && Incremental(DeltaStep(f, d).events)
    ensures DeltaStep(f, d).order == (if d.index in f.calls then f.order else f.order + [d.index])
  {
    var g := DeltaStep(f, d);
    if d.index !in f.calls {
      forall i | 0 <= i < |f.order| ensures f.order[i] != d.index {
        assert f.order[i] in f.calls;
      }
    }
  }

  lemma {:induction false} DeltasStepKeeps(f: Folded, ds: seq<ToolCallChunk>)
    requires WellKept(f) && Incremental(f.events)
    ensures WellKept(DeltasStep(f, ds)) && Incremental(DeltasStep(f, ds).events)
  {
    if ds != [] {
      DeltasStepKeeps(f, ds[..|ds| - 1]);
      DeltaStepKeeps(DeltasStep(f, ds[..|ds| - 1]), ds[|ds| - 1]);
    }
  }

  lemma ChunkStepKeeps(f: Folded, c: Chunk)
    requires WellKept(f) && Incremental(f.events)
    ensures WellKept(ChunkStep(f, c)) && Incremental(ChunkStep(f, c).events)
  {
    var f0 := if c.usage.Some? then f.(usage := Some(ToUsage(c.usage.value))) else f;
    if c.choices != [] {
      var ch := c.choices[0];
      var f1 := if Given(ch.finishReason) then f0.(finish := ch.finishReason) else f0;
      var f2 := if Given(ch.content) then f1.(events := f1.events + [TextEvent(ch.content.value)]) else f1;
      DeltasStepKeeps(f2, ch.toolCalls);
    }
  }

  lemma {:induction false} FoldKeeps(chunks: seq<Chunk>)
    ensures WellKept(Fold(chunks)) && Incremental(Fold(chunks).events)
  {
    if chunks != [] {
      FoldKeeps(chunks[..|chunks| - 1]);
      ChunkStepKeeps(Fold(chunks[..|chunks| - 1]), chunks[|chunks| - 1]);
    }
  }

  // ---------------------------------------------------------------------------------------
  // What the stream promises

  /** Exactly one event of kind `k`, and it is the last. */
  predicate EndsWithOnly(evs: seq<StreamEvent>, k: LlmModels.StreamEventType)
  {
    |evs| >= 1 && evs[|evs| - 1].kind == k && forall i | 0 <= i < |evs| - 1 :: evs[i].kind != k
  }

  /**
   * A stream whose entries all validate ends with exactly one MESSAGE_COMPLETE, carrying the
   * folded finish reason and usage; a rejecting one yields no MESSAGE_COMPLETE at all.
   */
  lemma StreamEndsOnce(chunks: seq<Chunk>, decode: string -> Option<Json.Value>)
    ensures var evs := StreamEvents(chunks, decode);
            var f := Fold(chunks);
            (!Rejects(chunks, decode) ==>
               EndsWithOnly(evs, LlmModels.MessageComplete) && evs[|evs| - 1] == FinalEvent(f.finish, f.usage))
            && (Rejects(chunks, decode) ==> forall i | 0 <= i < |evs| :: evs[i].kind != LlmModels.MessageComplete)
  {
    FoldKeeps(chunks);
    var f := Fold(chunks);
    var cs := Completes(f.order, f.calls, decode);
    if Rejects(chunks, decode) {
      NoneFinal(f.events, cs);
      assert StreamEvents(chunks, decode) == f.events + cs;
    } else {
      OnlyLastIs(f.events, cs, FinalEvent(f.finish, f.usage));
    }
  }

  /** Incremental events and completions hold neither a MESSAGE_COMPLETE nor an ERROR. */
  lemma NoneFinal(a: seq<StreamEvent>, b: seq<StreamEvent>)
    requires Incremental(a)
    requires forall i | 0 <= i < |b| :: b[i].kind == LlmModels.ToolCallComplete
    ensures forall i | 0 <= i < |a + b| :: (a + b)[i].kind != LlmModels.MessageComplete && (a + b)[i].kind != LlmModels.Error
  {
    forall i | 0 <= i < |a + b|
      ensures (a + b)[i].kind != LlmModels.MessageComplete && (a + b)[i].kind != LlmModels.Error
    {
      if i < |a| {
        assert (a + b)[i] == a[i];
      } else {
        assert (a + b)[i] == b[i - |a|];
      }
    }
  }

  /** Incremental events, then completions, then one event of a final kind. */
  lemma OnlyLastIs(a: seq<StreamEvent>, b: seq<StreamEvent>, z: StreamEvent)
    requires Incremental(a) && (z.kind == LlmModels.MessageComplete || z.kind == LlmModels.Error)
    requires forall i | 0 <= i < |b| :: b[i].kind == LlmModels.ToolCallComplete
    ensures EndsWithOnly(a + b + [z], z.kind)
  {
    NoneFinal(a, b);
    var e := a + b + [z];
    forall i | 0 <= i < |e| - 1
      ensures e[i].kind != z.kind
    {
      assert e[i] == (a + b)[i];
    }
  }

  /**
   * Before the end come the folded events, none of them a completion, and then one
   * TOOL_CALL_COMPLETE per index in first-seen order, up to the first entry that fails validation.
   */
  lemma StreamCompletesInOrder(chunks: seq<Chunk>, decode: string -> Option<Json.Value>)
    ensures var evs := StreamEvents(chunks, decode);
            var f := Fold(chunks);
            WellKept(f)
            && var k := Buildable(f.order, f.calls, decode);
            |evs| == |f.events| + k + (if Rejects(chunks, decode) then 0 else 1)
            && (forall j | |f.events| <= j < |f.events| + k ::
                  evs[j] == CompleteEvent(f.calls[f.order[j - |f.events|]], decode))
            && (forall i | 0 <= i < |f.events| :: evs[i].kind != LlmModels.ToolCallComplete)
  {
    FoldKeeps(chunks);
    FoldedLayout(Fold(chunks), decode);
  }

  /** The layout of the events a well-kept fold ends with. */
  lemma FoldedLayout(f: Folded, decode: string -> Option<Json.Value>)
    requires WellKept(f) && Incremental(f.events)
    ensures var evs := EventsAt(f, decode);
            var k := Buildable(f.order, f.calls, decode);
            |evs| == |f.events| + k + (if RejectsAt(f, decode) then 0 else 1)
            && (forall j | |f.events| <= j < |f.events| + k ::
                  evs[j] == CompleteEvent(f.calls[f.order[j - |f.events|]], decode))
            && (forall i | 0 <= i < |f.events| :: evs[i].kind != LlmModels.ToolCallComplete)
  {
    var cs := Completes(f.order, f.calls, decode);
    ThreeParts(f.events, cs, if RejectsAt(f, decode) then [] else [FinalEvent(f.finish, f.usage)]);
  }

  /** Where the parts of `a + b + c` sit. */
  lemma ThreeParts(a: seq<StreamEvent>, b: seq<StreamEvent>, c: seq<StreamEvent>)
    ensures |a + b + c| == |a| + |b| + |c|
    ensures forall i | 0 <= i < |a| :: (a + b + c)[i] == a[i]
    ensures forall j | |a| <= j < |a| + |b| :: (a + b + c)[j] == b[j - |a|]
  {
  }

  /**
   * A stream is rejected exactly when some entry's arguments fail validation. It then ends with
   * exactly one ERROR, the validation's, right after the completions of the entries before the
   * first rejected one, and yields no MESSAGE_COMPLETE; otherwise it holds no ERROR at all.
   */
  lemma RejectionShape(chunks: seq<Chunk>, decode: string -> Option<Json.Value>, rejection: string)
    ensures var f := Fold(chunks);
            WellKept(f)
            && (Rejects(chunks, decode) <==> exists i | 0 <= i < |f.order| :: !Builds(f.calls[f.order[i]], decode))
    ensures var evs := ChatCompletion(chunks, None, decode, rejection);
            var f := Fold(chunks);
            Rejects(chunks, decode) ==>
              EndsWithOnly(evs, LlmModels.Error) && evs[|evs| - 1] == ErrorEvent(rejection)
              && !Builds(f.calls[f.order[Buildable(f.order, f.calls, decode)]], decode)
              && |evs| == |f.events| + Buildable(f.order, f.calls, decode) + 1
              && forall i | 0 <= i < |evs| :: evs[i].kind != LlmModels.MessageComplete
    ensures var evs := ChatCompletion(chunks, None, decode, rejection);
            !Rejects(chunks, decode) ==> forall i | 0 <= i < |evs| :: evs[i].kind != LlmModels.Error
  {
    FoldKeeps(chunks);
    var f := Fold(chunks);
    assert Rejects(chunks, decode) == RejectsAt(f, decode);
    assert ChatCompletion(chunks, None, decode, rejection)
        == EventsAt(f, decode) + (if RejectsAt(f, decode) then [ErrorEvent(rejection)] else []);
    RejectionAt(f, decode, rejection);
  }

  /** `RejectionShape` for the state the fold ends in. */
  lemma RejectionAt(f: Folded, decode: string -> Option<Json.Value>, rejection: string)
    requires WellKept(f) && Incremental(f.events)
    ensures RejectsAt(f, decode) <==> exists i | 0 <= i < |f.order| :: !Builds(f.calls[f.order[i]], decode)
    ensures var evs := EventsAt(f, decode) + (if RejectsAt(f, decode) then [ErrorEvent(rejection)] else []);
            RejectsAt(f, decode) ==>
              EndsWithOnly(evs, LlmModels.Error) && evs[|evs| - 1] == ErrorEvent(rejection)
              && !Builds(f.calls[f.order[Buildable(f.order, f.calls, decode)]], decode)
              && |evs| == |f.events| + Buildable(f.order, f.calls, decode) + 1
              && forall i | 0 <= i < |evs| :: evs[i].kind != LlmModels.MessageComplete
    ensures var evs := EventsAt(f, decode) + (if RejectsAt(f, decode) then [ErrorEvent(rejection)] else []);
            !RejectsAt(f, decode) ==> forall i | 0 <= i < |evs| :: evs[i].kind != LlmModels.Error
  {
    var cs := Completes(f.order, f.calls, decode);
    if RejectsAt(f, decode) {
      var evs := EventsAt(f, decode) + [ErrorEvent(rejection)];
      assert evs == f.events + cs + [ErrorEvent(rejection)];
      OnlyLastIs(f.events, cs, ErrorEvent(rejection));
    } else {
      var evs := EventsAt(f, decode);
      assert evs == f.events + cs + [FinalEvent(f.finish, f.usage)];
      OnlyLastIs(f.events, cs, FinalEvent(f.finish, f.usage));
    }
  }

  /** An exception yields exactly one ERROR event, last, and no completion events at all. */
  lemma FailureShape(chunks: seq<Chunk>, msg: string, decode: string -> Option<Json.Value>, rejection: string)
    ensures var evs := ChatCompletion(chunks, Some(msg), decode, rejection);
            |evs| >= 1 && evs[|evs| - 1].kind == LlmModels.Error && evs[|evs| - 1].error == Some(msg)
            && forall i | 0 <= i < |evs| - 1 ::
                 evs[i].kind != LlmModels.Error && evs[i].kind != LlmModels.MessageComplete
                 && evs[i].kind != LlmModels.ToolCallComplete
  {
    FoldKeeps(chunks);
    var evs := ChatCompletion(chunks, Some(msg), decode, rejection);
    assert forall i | 0 <= i < |evs| - 1 :: evs[i] == Fold(chunks).events[i];
  }

  /** Every tool-call delta of the response, in arrival order (chunks without a choice carry none). */
  function AllDeltas(chunks: seq<Chunk>): seq<ToolCallChunk>
  {
    if chunks == [] then []
    else
      var c := chunks[|chunks| - 1];
      AllDeltas(chunks[..|chunks| - 1]) + (if c.choices == [] then [] else c.choices[0].toolCalls)
  }

  /** The fragments of the deltas for `idx`, concatenated in arrival order. */
  function Fragments(ds: seq<ToolCallChunk>, idx: int): string
  {
    if ds == [] then ""
    else Fragments(ds[..|ds| - 1], idx) + (if ds[|ds| - 1].index == idx then Fragment(ds[|ds| - 1]) else "")
  }

  /** The first delta for `idx`, if any. */
  function FirstFor(ds: seq<ToolCallChunk>, idx: int): Option<ToolCallChunk>
  {
    if ds == [] then None
    else if FirstFor(ds[..|ds| - 1], idx).Some? then FirstFor(ds[..|ds| - 1], idx)
    else if ds[|ds| - 1].index == idx then Some(ds[|ds| - 1])
    else None
  }

  /** What is known of the entry for `idx` after the deltas `ds`, starting from `f`. */
  predicate EntryAgrees(f: Folded, g: Folded, ds: seq<ToolCallChunk>, idx: int)
  {
    (idx in g.calls <==> idx in f.calls || FirstFor(ds, idx).Some?)
    && (idx in f.calls ==> g.calls[idx] == f.calls[idx].(arguments := f.calls[idx].arguments + Fragments(ds, idx)))
    && (idx !in f.calls && FirstFor(ds, idx).Some? ==>
          g.calls[idx] == Entry(FirstFor(ds, idx).value.id.GetOr(""), NameIn(FirstFor(ds, idx).value), Fragments(ds, idx)))
  }

  lemma {:induction false} DeltasStepEntry(f: Folded, ds: seq<ToolCallChunk>, idx: int)
    ensures EntryAgrees(f, DeltasStep(f, ds), ds, idx)
  {
    if ds != [] {
      var init := ds[..|ds| - 1];
      var d := ds[|ds| - 1];
      DeltasStepEntry(f, init, idx);
      var h := DeltasStep(f, init);
      assert DeltasStep(f, ds) == DeltaStep(h, d);
      if d.index == idx {
        if idx !in h.calls {
          assert FirstFor(init, idx).None?;
          NoFirstNoFragments(init, idx);
        }
      }
    }
  }

  /** Chunk fields other than the deltas leave the entries alone. */
  lemma ChunkStepEntry(f: Folded, c: Chunk, idx: int)
    ensures EntryAgrees(f, ChunkStep(f, c), if c.choices == [] then [] else c.choices[0].toolCalls, idx)
  {
    var f0 := if c.usage.Some? then f.(usage := Some(ToUsage(c.usage.value))) else f;
    if c.choices != [] {
      var ch := c.choices[0];
      var f1 := if Given(ch.finishReason) then f0.(finish := ch.finishReason) else f0;
      var f2 := if Given(ch.content) then f1.(events := f1.events + [TextEvent(ch.content.value)]) else f1;
      DeltasStepEntry(f2, ch.toolCalls, idx);
    }
  }

  /** An index no delta carried has no fragments. */
  lemma {:induction false} NoFirstNoFragments(ds: seq<ToolCallChunk>, idx: int)
    requires FirstFor(ds, idx).None?
    ensures Fragments(ds, idx) == ""
  {
    if ds != [] {
      NoFirstNoFragments(ds[..|ds| - 1], idx);
    }
  }

  lemma FragmentsAppend(a: seq<ToolCallChunk>, b: seq<ToolCallChunk>, idx: int)
    ensures Fragments(a + b, idx) == Fragments(a, idx) + Fragments(b, idx)
    decreases |b|
  {
    if b == [] {
      assert a + b == a;
    } else {
      assert (a + b)[..|a + b| - 1] == a + b[..|b| - 1];
      FragmentsAppend(a, b[..|b| - 1], idx);
    }
  }

  lemma FirstForAppend(a: seq<ToolCallChunk>, b: seq<ToolCallChunk>, idx: int)
    ensures FirstFor(a + b, idx) == if FirstFor(a, idx).Some? then FirstFor(a, idx) else FirstFor(b, idx)
    decreases |b|
  {
    if b == [] {
      assert a + b == a;
    } else {
      assert (a + b)[..|a + b| - 1] == a + b[..|b| - 1];
      FirstForAppend(a, b[..|b| - 1], idx);
    }
  }

  /**
   * The entry for an index exists exactly when some delta carried that index; its id and name
   * come from the first such delta, and its arguments are all of its fragments in arrival order.
   */
  lemma {:induction false} FoldEntry(chunks: seq<Chunk>, idx: int)
    ensures idx in Fold(chunks).calls <==> FirstFor(AllDeltas(chunks), idx).Some?
    ensures idx in Fold(chunks).calls ==>
      Fold(chunks).calls[idx] == Entry(FirstFor(AllDeltas(chunks), idx).value.id.GetOr(""),
                                       NameIn(FirstFor(AllDeltas(chunks), idx).value),
                                       Fragments(AllDeltas(chunks), idx))
  {
    if chunks != [] {
      var init := chunks[..|chunks| - 1];
      var c := chunks[|chunks| - 1];
      var ds := if c.choices == [] then [] else c.choices[0].toolCalls;
      FoldEntry(init, idx);
      ChunkStepEntry(Fold(init), c, idx);
      assert AllDeltas(chunks) == AllDeltas(init) + ds;
      FragmentsAppend(AllDeltas(init), ds, idx);
      FirstForAppend(AllDeltas(init), ds, idx);
      if FirstFor(AllDeltas(init), idx).None? {
        NoFirstNoFragments(AllDeltas(init), idx);
      }
    }
  }

  /** The usage of the last chunk that carried one. */
  function LastUsage(chunks: seq<Chunk>): Option<TokenUsage>
  {
    if chunks == [] then None
    else if chunks[|chunks| - 1].usage.Some? then Some(ToUsage(chunks[|chunks| - 1].usage.value))
    else LastUsage(chunks[..|chunks| - 1])
  }

  /** The finish reason of the last chunk with a choice that set a non-empty one. */
  function LastFinish(chunks: seq<Chunk>): Option<string>
  {
    if chunks == [] then None
    else
      var c := chunks[|chunks| - 1];
      if c.choices != [] && Given(c.choices[0].finishReason) then c.choices[0].finishReason
      else LastFinish(chunks[..|chunks| - 1])
  }

  /** The deltas leave the finish reason and the usage alone. */
  lemma {:induction false} DeltasStepScalars(f: Folded, ds: seq<ToolCallChunk>)
    ensures DeltasStep(f, ds).finish == f.finish && DeltasStep(f, ds).usage == f.usage
  {
    if ds != [] {
      DeltasStepScalars(f, ds[..|ds| - 1]);
    }
  }

  /** Usage comes from the last chunk carrying usage, the finish reason from the last chunk setting one. */
  lemma {:induction false} FoldScalars(chunks: seq<Chunk>)
    ensures Fold(chunks).usage == LastUsage(chunks)
    ensures Fold(chunks).finish == LastFinish(chunks)
  {
    if chunks != [] {
      var init := chunks[..|chunks| - 1];
      var c := chunks[|chunks| - 1];
      FoldScalars(init);
      if c.choices != [] {
        var f := Fold(init);
        var f0 := if c.usage.Some? then f.(usage := Some(ToUsage(c.usage.value))) else f;
        var ch := c.choices[0];
        var f1 := if Given(ch.finishReason) then f0.(finish := ch.finishReason) else f0;
        var f2 := if Given(ch.content) then f1.(events := f1.events + [TextEvent(ch.content.value)]) else f1;
        DeltasStepScalars(f2, ch.toolCalls);
      }
    }
  }

  // ---------------------------------------------------------------------------------------
  // `_stream_response`, step by step

  /** The body of the `for tool_call_delta in delta.tool_calls` loop. */
  method ApplyDelta(finish: Option<string>, usage: Option<TokenUsage>, order: seq<int>, calls: map<int, Entry>,
                    events: seq<StreamEvent>, d: ToolCallChunk)
    returns (order': seq<int>, calls': map<int, Entry>, events': seq<StreamEvent>)
    ensures Folded(finish, usage, order', calls', events') == DeltaStep(Folded(finish, usage, order, calls, events), d)
  {
    order', calls', events' := order, calls, events;
    if d.index !in calls' {
      var id := d.id.GetOr("");
      calls' := calls'[d.index := Entry(id, "", "")];
      order' := order' + [d.index];
      if NameIn(d) != "" {
        calls' := calls'[d.index := calls'[d.index].(name := NameIn(d))];
        events' := events' + [StartEvent(id, NameIn(d))];
      }
    }
    if Fragment(d) != "" {
      var e := calls'[d.index];
      calls' := calls'[d.index := e.(arguments := e.arguments + Fragment(d))];
      events' := events' + [DeltaEvent(e.id, e.name, Fragment(d))];
    }
  }

  /** The `for tool_call_delta in delta.tool_calls` loop. */
  method ApplyDeltas(finish: Option<string>, usage: Option<TokenUsage>, order: seq<int>, calls: map<int, Entry>,
                     events: seq<StreamEvent>, ds: seq<ToolCallChunk>)
    returns (order': seq<int>, calls': map<int, Entry>, events': seq<StreamEvent>)
    ensures Folded(finish, usage, order', calls', events') == DeltasStep(Folded(finish, usage, order, calls, events), ds)
  {
    order', calls', events' := order, calls, events;
    var i := 0;
    while i < |ds|
      invariant 0 <= i <= |ds|
      invariant Folded(finish, usage, order', calls', events') == DeltasStep(Folded(finish, usage, order, calls, events), ds[..i])
    {
      assert ds[..i + 1][..i] == ds[..i];
      order', calls', events' := ApplyDelta(finish, usage, order', calls', events', ds[i]);
      i := i + 1;
    }
    assert ds[..i] == ds;
  }

  /**
   * `_stream_response`: the events it yields, and whether it raised at an entry whose arguments
   * fail `ToolCall` validation.
   */
  method StreamResponse(chunks: seq<Chunk>, decode: string -> Option<Json.Value>)
    returns (events: seq<StreamEvent>, raised: bool)
    ensures events == StreamEvents(chunks, decode)
    ensures raised <==> Rejects(chunks, decode)
  {
    var finish: Option<string> := None;
    var usage: Option<TokenUsage> := None;
    var order: seq<int> := [];
    var calls: map<int, Entry> := map[];
    events := [];
    var i := 0;
    while i < |chunks|
      invariant 0 <= i <= |chunks|
      invariant Folded(finish, usage, order, calls, events) == Fold(chunks[..i])
    {
      var c := chunks[i];
      assert chunks[..i + 1][..i] == chunks[..i];
      if c.usage.Some? {
        usage := Some(ToUsage(c.usage.value));
      }
      if c.choices != [] {
        var choice := c.choices[0];
        if Given(choice.finishReason) {
          finish := choice.finishReason;
        }
        if Given(choice.content) {
          events := events + [TextEvent(choice.content.value)];
        }
        order, calls, events := ApplyDeltas(finish, usage, order, calls, events, choice.toolCalls);
      }
      i := i + 1;
    }
    assert chunks[..i] == chunks;
    FoldKeeps(chunks);
    ghost var f := Folded(finish, usage, order, calls, events);
    var completes;
    completes, raised := CompleteAll(order, calls, decode);
    assert raised <==> RejectsAt(f, decode);
    events := events + completes;
    if !raised {
      events := events + [FinalEvent(finish, usage)];
    }
    assert events == EventsAt(f, decode);
  }

  /** The `for idx, tc in tool_calls.items()` loop, which raises at the first entry that fails validation. */
  method CompleteAll(order: seq<int>, calls: map<int, Entry>, decode: string -> Option<Json.Value>)
    returns (completes: seq<StreamEvent>, raised: bool)
    requires forall i | 0 <= i < |order| :: order[i] in calls
    ensures completes == Completes(order, calls, decode)
    ensures raised <==> Buildable(order, calls, decode) < |order|
  {
    var j := 0;
    completes := [];
    raised := false;
    while j < |order| && !raised
      invariant 0 <= j <= Buildable(order, calls, decode)
      invariant raised ==> j < |order| && !Builds(calls[order[j]], decode)
      invariant completes == Completes(order, calls, decode)[..j]
      decreases |order| - j, if raised then 0 else 1
    {
      if !Builds(calls[order[j]], decode) {
        raised := true;
      } else {
        completes := completes + [CompleteEvent(calls[order[j]], decode)];
        j := j + 1;
      }
    }
    assert completes == Completes(order, calls, decode);
  }
}
