/**
 * The agent (core/agent/agent.py): `run` and the turn loop `_agentic_loop`. The model's streamed
 * reply for turn `t` is `replies(t)` and the compaction reply for that turn `compactReplies(t)`;
 * `datetime.now()` at turn `t` is `clock(t)`. Python's `str` of a tool call's arguments is
 * `show`, `create_loop_breaker_prompt` is `breaker` (core/prompts/builder.py is not part of
 * this model), and the shell command classifiers are `dangerous` and `safe`.
 */
module AgentLoop {
  import opened Wrappers
  import Json
  import Strings
  import Paths
  import LlmModels
  import ToolModels
  import ToolBase
  import Registry
  import Messages
  import Context
  import Compaction
  import LoopDetection
  import Config
  import Hooks
  import Approval
  import Events
  import Sessions

  type StreamEvent = LlmModels.StreamEvent
  type ToolCall = LlmModels.ToolCall
  type AgentEvent = Events.AgentEvent
  type MessageItem = Messages.MessageItem

  const UnknownError := "Unknown error occurred."

  /** The error that ends a run which used up every turn. */
  function MaxTurnsMessage(maxTurns: int): string
  {
    "Maximum turns (" + Strings.IntToString(maxTurns) + ") reached. Consider breaking the task into smaller steps."
  }

  /** `event.error or "Unknown error occurred."`. */
  function ErrorText(error: Option<string>): (s: string)
    ensures s != ""
    ensures error.Some? && error.value != "" ==> s == error.value
    ensures !(error.Some? && error.value != "") ==> s == UnknownError
  {
    if error.Some? && error.value != "" then error.value else UnknownError
  }

  // ---------------------------------------------------------------------------------------
  // One streamed reply

  /** What the stream of one turn leaves behind: the text, the tool calls, the usage, the forwarded events. */
  datatype Reading = Reading(text: string, calls: seq<ToolCall>, usage: Option<LlmModels.TokenUsage>,
                             events: seq<AgentEvent>)

  /** The effect of one stream event on the reading. */
  function Step(r: Reading, e: StreamEvent): Reading
  {
    match e.kind
    case TextDeltaEvent =>
      if e.textDelta.Some? then r.(text := r.text + e.textDelta.value, events := r.events + [Events.TextDelta(e.textDelta.value)])
      else r
    case ToolCallComplete =>
      if e.toolCall.Some? then r.(calls := r.calls + [e.toolCall.value]) else r
    case Error => r.(events := r.events + [Events.AgentError(ErrorText(e.error), None)])
    case MessageComplete => r.(usage := e.usage)
    case _ => r
  }

  /** The `async for event in chat_completion(...)` loop as a function of the events. */
  function ReadStream(es: seq<StreamEvent>): (r: Reading)
    ensures |r.events| <= |es| && |r.calls| <= |es|
    ensures forall i | 0 <= i < |r.events| :: r.events[i].TextDelta? || r.events[i].AgentError?
  {
    if |es| == 0 then Reading("", [], None, [])
    else Step(ReadStream(es[..|es| - 1]), es[|es| - 1])
  }

  /** The reply asked for at least one tool call, so the loop goes on. */
  predicate HasCalls(reply: seq<StreamEvent>)
  {
    |ReadStream(reply).calls| > 0
  }

  /** Each of the first `n` replies asked for tool calls. */
  predicate AllHaveCalls(replies: nat -> seq<StreamEvent>, n: nat)
  {
    forall t: nat | t < n :: HasCalls(replies(t))
  }

  lemma AllHaveCallsExtend(replies: nat -> seq<StreamEvent>, n: nat)
    requires AllHaveCalls(replies, n) && HasCalls(replies(n))
    ensures AllHaveCalls(replies, n + 1)
  {
  }

  /** The text the forwarded `text_delta` events carry, in order. */
  function DeltaText(evs: seq<AgentEvent>): string
  {
    if |evs| == 0 then ""
    else DeltaText(evs[..|evs| - 1]) + (if evs[|evs| - 1].TextDelta? then evs[|evs| - 1].content else "")
  }

  /** The accumulated response text is exactly what the `text_delta` events showed. */
  lemma {:induction false} ResponseTextIsDeltas(es: seq<StreamEvent>)
    ensures ReadStream(es).text == DeltaText(ReadStream(es).events)
  {
    if |es| > 0 {
      var init := es[..|es| - 1];
      ResponseTextIsDeltas(init);
      DeltaStep(ReadStream(init), es[|es| - 1]);
    }
  }

  /** One more stream event keeps the text and the `text_delta` events in step. */
  lemma DeltaStep(r: Reading, e: StreamEvent)
    requires r.text == DeltaText(r.events)
    ensures Step(r, e).text == DeltaText(Step(r, e).events)
  {
    var n := Step(r, e);
    if n.events != r.events {
      var x := n.events[|n.events| - 1];
      assert n.events == r.events + [x];
      assert (r.events + [x])[..|r.events|] == r.events;
    }
  }

  function ErrorEvents(es: seq<StreamEvent>): nat
  {
    if |es| == 0 then 0 else ErrorEvents(es[..|es| - 1]) + (if es[|es| - 1].kind == LlmModels.Error then 1 else 0)
  }

  function AgentErrors(evs: seq<AgentEvent>): nat
  {
    if |evs| == 0 then 0 else AgentErrors(evs[..|evs| - 1]) + (if evs[|evs| - 1].AgentError? then 1 else 0)
  }

  /** Every ERROR of the stream is forwarded as one `agent_error`, and the stream goes on. */
  lemma {:induction false} EveryErrorForwarded(es: seq<StreamEvent>)
    ensures AgentErrors(ReadStream(es).events) == ErrorEvents(es)
  {
    if |es| > 0 {
      var init := es[..|es| - 1];
      EveryErrorForwarded(init);
      var r := ReadStream(init);
      var evs := ReadStream(es).events;
      if evs != r.events {
        assert evs[..|evs| - 1] == r.events;
      }
    }
  }

  method ConsumeStream(reply: seq<StreamEvent>)
    returns (text: string, calls: seq<ToolCall>, usage: Option<LlmModels.TokenUsage>, events: seq<AgentEvent>)
    ensures Reading(text, calls, usage, events) == ReadStream(reply)
  {
    text, calls, usage, events := "", [], None, [];
    var i := 0;
    while i < |reply|
      invariant 0 <= i <= |reply|
      invariant Reading(text, calls, usage, events) == ReadStream(reply[..i])
    {
      assert reply[..i + 1][..i] == reply[..i];
      var e := reply[i];
      if e.kind == LlmModels.TextDeltaEvent {
        if e.textDelta.Some? {
          text := text + e.textDelta.value;
          events := events + [Events.TextDelta(e.textDelta.value)];
        }
      } else if e.kind == LlmModels.ToolCallComplete {
        if e.toolCall.Some? {
          calls := calls + [e.toolCall.value];
        }
      } else if e.kind == LlmModels.Error {
        events := events + [Events.AgentError(ErrorText(e.error), None)];
      } else if e.kind == LlmModels.MessageComplete {
        usage := e.usage;
      }
      i := i + 1;
    }
    assert reply[..i] == reply;
  }

  // ---------------------------------------------------------------------------------------
  // What a turn appends

  /** `response_text or None`. */
  function TextOrNone(text: string): (r: Option<string>)
    ensures r.None? <==> text == ""
    ensures r.Some? ==> r.value == text
  {
    if text == "" then None else Some(text)
  }

  /** The OpenAI tool-call entry stored with the assistant message. */
  function CallEntry(tc: ToolCall, show: Json.Value -> string): Json.Value
  {
    Json.Obj(map["id" := Json.Str(tc.callId), "type" := Json.Str("function"),
                 "function" := Json.Obj(map["name" := Events.OptStr(tc.name), "arguments" := Json.Str(show(tc.arguments))])])
  }

  /** The entries of every call, or `None` when there is none. */
  function CallEntries(calls: seq<ToolCall>, show: Json.Value -> string): (r: Option<seq<Json.Value>>)
    ensures r.None? <==> |calls| == 0
    ensures r.Some? ==> |r.value| == |calls|
  {
    if |calls| == 0 then None else Some(seq(|calls|, i requires 0 <= i < |calls| => CallEntry(calls[i], show)))
  }

  /** A compaction transcript line shows a stored entry's function name and its arguments. */
  lemma EntryReadsBack(tc: ToolCall, show: Json.Value -> string)
    requires tc.name.Some?
    ensures Compaction.ToolCallLine(CallEntry(tc, show)) == Compaction.ToolCallLine(
      Json.Obj(map["function" := Json.Obj(map["name" := Json.Str(tc.name.value), "arguments" := Json.Str(show(tc.arguments))])]))
  {
  }

  /** The name a call is invoked under: Python passes `None` through, whose text is "None". */
  function NameOf(tc: ToolCall): string
  {
    tc.name.GetOr("None")
  }

  /** The parameters a call is invoked with: its argument dict, and nothing for another value. */
  function ArgsOf(tc: ToolCall): ToolBase.Params
  {
    if tc.arguments.Obj? then tc.arguments.fields else map[]
  }

  /** The `ToolResult` of each call, as `invoke` computes it against the registry `reg`. */
  function Outcomes(reg: Registry.ToolRegistry, calls: seq<ToolCall>, cwd: Paths.Path,
                    manager: Option<Approval.ApprovalManager>, dangerous: string -> bool, safe: string -> bool)
    : (rs: seq<ToolModels.ToolResult>)
    reads reg
    ensures |rs| == |calls|
  {
    if |calls| == 0 then []
    else
      var c := calls[|calls| - 1];
      Outcomes(reg, calls[..|calls| - 1], cwd, manager, dangerous, safe)
        + [Registry.Outcome(reg.Get(NameOf(c)), NameOf(c), ArgsOf(c), cwd, manager, dangerous, safe)]
  }

  /** Result `i` is what `invoke` returns for call `i` alone: no call sees another's outcome. */
  lemma {:induction false} OutcomesPerCall(reg: Registry.ToolRegistry, calls: seq<ToolCall>, cwd: Paths.Path,
                                           manager: Option<Approval.ApprovalManager>, dangerous: string -> bool,
                                           safe: string -> bool, i: nat)
    requires i < |calls|
    ensures Outcomes(reg, calls, cwd, manager, dangerous, safe)[i]
            == Registry.Outcome(reg.Get(NameOf(calls[i])), NameOf(calls[i]), ArgsOf(calls[i]), cwd, manager, dangerous, safe)
  {
    var k := |calls| - 1;
    if i < k {
      OutcomesPerCall(reg, calls[..k], cwd, manager, dangerous, safe, i);
      assert calls[..k][i] == calls[i];
    }
  }

  /** The tool hooks the calls ran, in order. */
  function TraceAll(reg: Registry.ToolRegistry, calls: seq<ToolCall>, results: seq<ToolModels.ToolResult>)
    : (hs: seq<Registry.ToolHook>)
    requires |calls| == |results|
    reads reg
    ensures |calls| <= |hs| <= |calls| + |calls|
  {
    if |calls| == 0 then []
    else
      var k := |calls| - 1;
      TraceAll(reg, calls[..k], results[..k]) + Registry.Trace(reg.Get(NameOf(calls[k])), NameOf(calls[k]), ArgsOf(calls[k]), results[k])
  }

  /** `tool_call_start` then `tool_call_complete` for each call, in order. */
  function CallEvents(calls: seq<ToolCall>, results: seq<ToolModels.ToolResult>): (evs: seq<AgentEvent>)
    requires |calls| == |results|
    ensures |evs| == |calls| + |calls|
    ensures forall i | 0 <= i < |evs| :: evs[i].ToolCallStart? || evs[i].ToolCallComplete?
  {
    if |calls| == 0 then []
    else
      var k := |calls| - 1;
      CallEvents(calls[..k], results[..k])
        + [Events.ToolCallStart(calls[k].callId, calls[k].name, calls[k].arguments),
           Events.ToolCallComplete(calls[k].callId, calls[k].name, results[k])]
  }

  /** Call `i` is reported by events `2i` (its start) and `2i + 1` (its result). */
  lemma {:induction false} CallEventsPair(calls: seq<ToolCall>, results: seq<ToolModels.ToolResult>, i: nat)
    requires |calls| == |results| && i < |calls|
    ensures CallEvents(calls, results)[i + i] == Events.ToolCallStart(calls[i].callId, calls[i].name, calls[i].arguments)
    ensures CallEvents(calls, results)[i + i + 1] == Events.ToolCallComplete(calls[i].callId, calls[i].name, results[i])
  {
    var k := |calls| - 1;
    if i < k {
      CallEventsPair(calls[..k], results[..k], i);
      assert calls[..k][i] == calls[i] && results[..k][i] == results[i];
    }
  }

  /** The tool messages, one per result: the call id and the result's model text. */
  function ToolItems(calls: seq<ToolCall>, results: seq<ToolModels.ToolResult>, count: string -> nat): (ms: seq<MessageItem>)
    requires |calls| == |results|
    ensures |ms| == |calls|
  {
    if |calls| == 0 then []
    else
      var k := |calls| - 1;
      ToolItems(calls[..k], results[..k], count) + [Context.ToolItem(calls[k].callId, ToolModels.ToModelOutput(results[k]), count)]
  }

  /** The loop-breaker user message, added only for a non-empty verdict. */
  function LoopNote(loop: Option<string>, breaker: string -> string, count: string -> nat): (ms: seq<MessageItem>)
    ensures |ms| <= 1
    ensures |ms| == 1 <==> loop.Some? && loop.value != ""
  {
    if loop.Some? && loop.value != "" then [Context.UserItem(breaker(loop.value), count)] else []
  }

  /** Events from inside the loop: neither the start nor the end of a run. */
  predicate Inner(evs: seq<AgentEvent>)
  {
    forall i | 0 <= i < |evs| :: !evs[i].AgentStart? && !evs[i].AgentEnd?
  }

  lemma InnerAppend(a: seq<AgentEvent>, b: seq<AgentEvent>)
    requires Inner(a) && Inner(b)
    ensures Inner(a + b)
  {
    forall i | 0 <= i < |a + b|
      ensures !(a + b)[i].AgentStart? && !(a + b)[i].AgentEnd?
    {
      if i >= |a| {
        assert (a + b)[i] == b[i - |a|];
      }
    }
  }

  /** The events a turn yields: the forwarded stream, the whole text, then each call's pair. */
  function TurnEvents(r: Reading, results: seq<ToolModels.ToolResult>): (evs: seq<AgentEvent>)
    requires |r.calls| == |results|
    requires forall i | 0 <= i < |r.events| :: r.events[i].TextDelta? || r.events[i].AgentError?
    ensures Inner(evs)
    ensures |evs| == |r.events| + (if r.text == "" then 0 else 1) + |r.calls| + |r.calls|
  {
    r.events + (if r.text == "" then [] else [Events.TextComplete(r.text)]) + CallEvents(r.calls, results)
  }

  // ---------------------------------------------------------------------------------------
  // The loop detector's history over a turn

  function PushedAll(h: seq<string>, sigs: seq<string>): (r: seq<string>)
    requires |h| <= LoopDetection.Capacity
    ensures |r| <= LoopDetection.Capacity
  {
    if |sigs| == 0 then h else LoopDetection.Pushed(PushedAll(h, sigs[..|sigs| - 1]), sigs[|sigs| - 1])
  }

  lemma {:induction false} PushedAllAppend(h: seq<string>, a: seq<string>, b: seq<string>)
    requires |h| <= LoopDetection.Capacity
    ensures PushedAll(h, a + b) == PushedAll(PushedAll(h, a), b)
  {
    if |b| > 0 {
      assert (a + b)[..|a + b| - 1] == a + b[..|b| - 1];
      PushedAllAppend(h, a, b[..|b| - 1]);
    } else {
      assert a + b == a;
    }
  }

  /** A turn of up to `Capacity` actions leaves its own signatures as the newest entries. */
  lemma {:induction false} PushedAllKeepsNewest(h: seq<string>, sigs: seq<string>)
    requires |h| <= LoopDetection.Capacity && |sigs| <= LoopDetection.Capacity
    ensures |sigs| <= |PushedAll(h, sigs)|
    ensures PushedAll(h, sigs)[|PushedAll(h, sigs)| - |sigs|..] == sigs
  {
    if |sigs| > 0 {
      var init := sigs[..|sigs| - 1];
      PushedAllKeepsNewest(h, init);
      var p := PushedAll(h, init);
      var r := PushedAll(h, sigs);
      assert p[|p| - |init|..] == init;
      if |p| < LoopDetection.Capacity {
        assert r == p + [sigs[|sigs| - 1]];
        assert r[|r| - |sigs|..] == p[|p| - |init|..] + [sigs[|sigs| - 1]];
      } else {
        assert r == p[1..] + [sigs[|sigs| - 1]];
        assert r[|r| - |sigs|..] == p[|p| - |init|..] + [sigs[|sigs| - 1]];
      }
      assert init + [sigs[|sigs| - 1]] == sigs;
    }
  }

  function CallSignatures(calls: seq<ToolCall>, show: Json.Value -> string): (sigs: seq<string>)
    ensures |sigs| == |calls|
  {
    if |calls| == 0 then []
    else
      var c := calls[|calls| - 1];
      CallSignatures(calls[..|calls| - 1], show) + [LoopDetection.Signature("tool_call", c.name, Some(c.arguments), None, show)]
  }

  /** The response action, recorded when there is text. */
  function ResponseSignatures(text: string, show: Json.Value -> string): (sigs: seq<string>)
    ensures |sigs| <= 1
  {
    if text == "" then [] else [LoopDetection.Signature("response", None, None, Some(text), show)]
  }

  /** The actions a turn records: the response, when there is text, then each call. */
  function TurnSignatures(r: Reading, show: Json.Value -> string): seq<string>
  {
    ResponseSignatures(r.text, show) + CallSignatures(r.calls, show)
  }

  /** What stays fixed over a run of turns: the replies, the clock, the context's and the detector's settings. */
  datatype Course = Course(replies: nat -> seq<StreamEvent>, compactReplies: nat -> seq<StreamEvent>,
                           clock: nat -> Messages.Timestamp, show: Json.Value -> string, breaker: string -> string,
                           prompt: string, window: nat, count: string -> nat, repeats: nat, cycle: nat)

  /**
   * A run of turns, turn by turn: the results of each turn's tool calls, the detector's verdict
   * after it and the events it yielded; and the detector's history and the context's ledger
   * before each turn and after the last.
   */
  datatype TurnLog = TurnLog(outcomes: seq<seq<ToolModels.ToolResult>>, verdicts: seq<Option<string>>,
                     chunks: seq<seq<AgentEvent>>, histories: seq<seq<string>>, ledgers: seq<Ledger>)
  {
    predicate Shaped()
    {
      |verdicts| == |outcomes| && |chunks| == |outcomes| && |histories| == |outcomes| + 1 && |ledgers| == |outcomes| + 1
    }

    /** The run that went on for one more turn. */
    function Then(results: seq<ToolModels.ToolResult>, loop: Option<string>, chunk: seq<AgentEvent>,
                  history: seq<string>, ledger: Ledger): (r: TurnLog)
      ensures r.Shaped() <==> Shaped()
    {
      TurnLog(outcomes + [results], verdicts + [loop], chunks + [chunk], histories + [history], ledgers + [ledger])
    }
  }

  /**
   * Turn `t` of a run along course `c`: one result per tool call of reply `t`, the events of that
   * turn, the reply's signatures pushed onto the history, the detector's verdict on that history
   * (none after a reply without calls), and the ledger the turn leaves.
   */
  ghost predicate TurnAt(run: TurnLog, c: Course, t: nat)
    requires run.Shaped() && t < |run.outcomes|
  {
    var r := ReadStream(c.replies(t));
    |run.outcomes[t]| == |r.calls| && |run.histories[t]| <= LoopDetection.Capacity
    && run.chunks[t] == TurnEvents(r, run.outcomes[t])
    && run.histories[t + 1] == PushedAll(run.histories[t], TurnSignatures(r, c.show))
    && (if HasCalls(c.replies(t)) then LoopDetection.DescribesLoop(run.histories[t + 1], c.repeats, c.cycle, run.verdicts[t])
        else run.verdicts[t] == None)
    && run.ledgers[t + 1] == TurnLedger(run.ledgers[t], c.prompt, c.window, c.count, c.compactReplies(t), r,
                                        run.outcomes[t], run.verdicts[t], c.breaker, c.show, c.clock(t))
  }

  /** Every turn of `run` went as course `c` says. */
  ghost predicate Followed(run: TurnLog, c: Course)
  {
    run.Shaped() && forall t | 0 <= t < |run.outcomes| :: TurnAt(run, c, t)
  }

  /** The events of a run's turns, one turn after the other. */
  function Flatten(chunks: seq<seq<AgentEvent>>): seq<AgentEvent>
  {
    if chunks == [] then [] else Flatten(chunks[..|chunks| - 1]) + chunks[|chunks| - 1]
  }

  /** The course the context `cm` and the detector `det` set for a run on these replies. */
  function Along(cm: Context.ContextManager, det: LoopDetection.LoopDetector, replies: nat -> seq<StreamEvent>,
                 compactReplies: nat -> seq<StreamEvent>, clock: nat -> Messages.Timestamp, show: Json.Value -> string,
                 breaker: string -> string): Course
  {
    Course(replies, compactReplies, clock, show, breaker, cm.systemPrompt, cm.contextWindow, cm.count,
           det.maxExactRepeats, det.maxCycleLength)
  }

  /**
   * A run that followed course `c` and then took one more turn as `c` says still followed `c`,
   * and its events are those it had, then the new turn's.
   */
  lemma FollowedThen(run: TurnLog, c: Course, results: seq<ToolModels.ToolResult>, loop: Option<string>,
                     chunk: seq<AgentEvent>, history: seq<string>, ledger: Ledger)
    requires Followed(run, c)
    requires TurnAt(run.Then(results, loop, chunk, history, ledger), c, |run.outcomes|)
    ensures Followed(run.Then(results, loop, chunk, history, ledger), c)
    ensures Flatten(run.Then(results, loop, chunk, history, ledger).chunks) == Flatten(run.chunks) + chunk
    ensures var next := run.Then(results, loop, chunk, history, ledger);
            |next.outcomes| == |run.outcomes| + 1 && next.histories[0] == run.histories[0] && next.ledgers[0] == run.ledgers[0]
            && next.histories[|next.outcomes|] == history && next.ledgers[|next.outcomes|] == ledger
  {
    var next, n := run.Then(results, loop, chunk, history, ledger), |run.outcomes|;
    forall t | 0 <= t < n + 1
      ensures TurnAt(next, c, t)
    {
      if t < n {
        assert TurnAt(run, c, t);
        assert next.outcomes[t] == run.outcomes[t] && next.verdicts[t] == run.verdicts[t] && next.chunks[t] == run.chunks[t];
        assert next.histories[t] == run.histories[t] && next.histories[t + 1] == run.histories[t + 1];
        assert next.ledgers[t] == run.ledgers[t] && next.ledgers[t + 1] == run.ledgers[t + 1];
      }
    }
    assert next.chunks[..n] == run.chunks;
  }

  // ---------------------------------------------------------------------------------------
  // The context manager's state over a turn

  /** The parts of a `ContextManager` a turn changes. */
  datatype Ledger = Ledger(messages: seq<MessageItem>, latest: LlmModels.TokenUsage, total: LlmModels.TokenUsage)

  function LedgerOf(cm: Context.ContextManager): Ledger
    reads cm
  {
    Ledger(cm.messages, cm.latestUsage, cm.totalUsage)
  }

  /**
   * A loop of `turns` turns recorded by `run`, begun from the detector history `history` and the
   * ledger `ledger` and ending at `history'` and `ledger'`: each turn went as the course says, the
   * loop stopped at the first reply without tool calls or after `maxTurns` turns, and `events` are
   * the turns' events, with the max-turns error when it did not finish.
   */
  ghost predicate Went(c: Course, maxTurns: nat, ledger: Ledger, history: seq<string>, ledger': Ledger, history': seq<string>,
                       events: seq<AgentEvent>, turns: nat, finished: bool, run: TurnLog)
  {
    1 <= turns <= maxTurns && |run.outcomes| == turns
    && (finished ==> !HasCalls(c.replies(turns - 1)))
    && AllHaveCalls(c.replies, turns - 1)
    && (!finished ==> turns == maxTurns && HasCalls(c.replies(turns - 1)))
    && Followed(run, c)
    && run.histories[0] == history && history' == run.histories[turns]
    && run.ledgers[0] == ledger && ledger' == run.ledgers[turns]
    && events == Flatten(run.chunks) + (if finished then [] else [Events.AgentError(MaxTurnsMessage(maxTurns), None)])
  }

  /** `set_latest_usage` and `add_usage` when there is a usage. */
  function Recorded(l: Ledger, u: Option<LlmModels.TokenUsage>): (r: Ledger)
    ensures r.messages == l.messages
    ensures u.None? ==> r == l
    ensures u.Some? ==> r.latest == u.value && LlmModels.Covers(r.total, l.total)
                        && r.total.totalTokens == l.total.totalTokens + u.value.totalTokens
  {
    if u.Some? then l.(latest := u.value, total := LlmModels.Add(l.total, u.value)) else l
  }

  /**
   * The compaction step at the head of a turn: above the threshold the model is asked for a
   * summary, and a non-empty summary replaces the history and its usage is recorded.
   */
  function Compacted(l: Ledger, prompt: string, window: nat, count: string -> nat, reply: seq<StreamEvent>): Ledger
  {
    if !Context.NearlyFull(l.latest, window) then l
    else
      var (summary, usage) := Compaction.CompressResult(|Context.WireMessages(prompt, l.messages)|, reply);
      if summary.Some? then Recorded(l.(messages := Context.SummaryMessages(summary.value, count)), usage) else l
  }

  /**
   * Below the threshold the ledger is untouched; a ledger that changed held at least three wire
   * messages and now holds the three summary messages of a non-empty summary.
   */
  lemma CompactionOutcome(l: Ledger, prompt: string, window: nat, count: string -> nat, reply: seq<StreamEvent>)
    ensures var r := Compacted(l, prompt, window, count, reply);
            && (!Context.NearlyFull(l.latest, window) ==> r == l)
            && (r != l ==> Context.NearlyFull(l.latest, window) && |Context.WireMessages(prompt, l.messages)| >= 3)
            && (r != l ==> exists s: string :: s != "" && r.messages == Context.SummaryMessages(s, count))
  {
    var r := Compacted(l, prompt, window, count, reply);
    if r != l {
      var (summary, usage) := Compaction.CompressResult(|Context.WireMessages(prompt, l.messages)|, reply);
      assert summary.Some? && summary.value != "";
      assert r.messages == Context.SummaryMessages(summary.value, count);
    }
  }

  /** The ledger once the reply is in: compacted if need be, then the assistant message. */
  function Opened(before: Ledger, prompt: string, window: nat, count: string -> nat, compactReply: seq<StreamEvent>,
                  r: Reading, show: Json.Value -> string): Ledger
  {
    var mid := Compacted(before, prompt, window, count, compactReply);
    mid.(messages := mid.messages + [Context.AssistantItem(TextOrNone(r.text), CallEntries(r.calls, show), count)])
  }

  /** The ledger at the end of a turn: the tool messages, the loop note, the usage, then pruning. */
  function Closed(l: Ledger, count: string -> nat, r: Reading, results: seq<ToolModels.ToolResult>, loop: Option<string>,
                  breaker: string -> string, now: Messages.Timestamp): Ledger
    requires |r.calls| == |results|
  {
    var added := l.messages + ToolItems(r.calls, results, count) + LoopNote(loop, breaker, count);
    Recorded(l, r.usage).(messages := Context.Pruned(added, count, now).0)
  }

  /** The ledger after a whole turn, from the ledger before it. */
  function TurnLedger(before: Ledger, prompt: string, window: nat, count: string -> nat, compactReply: seq<StreamEvent>,
                      r: Reading, results: seq<ToolModels.ToolResult>, loop: Option<string>,
                      breaker: string -> string, show: Json.Value -> string, now: Messages.Timestamp): Ledger
    requires |r.calls| == |results|
  {
    Closed(Opened(before, prompt, window, count, compactReply, r, show), count, r, results, loop, breaker, now)
  }

  /** Tool message `i` carries the model text of result `i` under the id of call `i`. */
  lemma {:induction false} ToolItemAt(calls: seq<ToolCall>, results: seq<ToolModels.ToolResult>, count: string -> nat, i: nat)
    requires |calls| == |results| && i < |calls|
    ensures ToolItems(calls, results, count)[i] == Context.ToolItem(calls[i].callId, ToolModels.ToModelOutput(results[i]), count)
  {
    var k := |calls| - 1;
    if i < k {
      ToolItemAt(calls[..k], results[..k], count, i);
      assert calls[..k][i] == calls[i] && results[..k][i] == results[i];
    }
  }

  /**
   * Message `i` after closing a turn: an earlier message keeps its role and tool calls, and the
   * message after the `j`-th earlier one is the tool message answering call `j`.
   */
  lemma ClosedMessageAt(l: Ledger, count: string -> nat, r: Reading, results: seq<ToolModels.ToolResult>,
                        loop: Option<string>, breaker: string -> string, now: Messages.Timestamp, i: nat)
    requires |r.calls| == |results| && i < |l.messages| + |r.calls|
    ensures var after := Closed(l, count, r, results, loop, breaker, now).messages;
            |after| == |l.messages| + |r.calls| + |LoopNote(loop, breaker, count)|
            && (i < |l.messages| ==> after[i].role == l.messages[i].role && after[i].toolCalls == l.messages[i].toolCalls)
            && (i >= |l.messages| ==> after[i].role == "tool" && after[i].toolCallId == Some(r.calls[i - |l.messages|].callId))
  {
    var k := |l.messages|;
    var items := ToolItems(r.calls, results, count);
    var added := l.messages + items + LoopNote(loop, breaker, count);
    assert Closed(l, count, r, results, loop, breaker, now).messages == Context.Pruned(added, count, now).0;
    Context.PrunedAt(added, count, now, i);
    if i < k {
      assert added[i] == l.messages[i];
    } else {
      assert added[i] == items[i - k];
      ToolItemAt(r.calls, results, count, i - k);
    }
  }

  /** Every message of `before` is still in place in `after`, with the same role and tool calls. */
  predicate KeepsShape(after: seq<MessageItem>, before: seq<MessageItem>)
  {
    |before| <= |after|
    && forall i | 0 <= i < |before| :: after[i].role == before[i].role && after[i].toolCalls == before[i].toolCalls
  }

  /** From index `from` on, `ms` holds one tool message per call, answering the calls in order. */
  predicate AnswersFrom(ms: seq<MessageItem>, from: nat, calls: seq<ToolCall>)
  {
    from + |calls| <= |ms|
    && forall i | from <= i < from + |calls| :: ms[i].role == "tool" && ms[i].toolCallId == Some(calls[i - from].callId)
  }

  /**
   * Closing a turn keeps every earlier message's role and tool calls, then adds one tool
   * message per call, answering the calls in order, then at most the loop-breaker note.
   */
  lemma ClosedAnswersEveryCall(l: Ledger, count: string -> nat, r: Reading, results: seq<ToolModels.ToolResult>,
                               loop: Option<string>, breaker: string -> string, now: Messages.Timestamp)
    requires |r.calls| == |results|
    ensures |Closed(l, count, r, results, loop, breaker, now).messages| == |l.messages| + |r.calls| + |LoopNote(loop, breaker, count)|
    ensures KeepsShape(Closed(l, count, r, results, loop, breaker, now).messages, l.messages)
    ensures AnswersFrom(Closed(l, count, r, results, loop, breaker, now).messages, |l.messages|, r.calls)
  {
    var after := Closed(l, count, r, results, loop, breaker, now).messages;
    var k := |l.messages|;
    var added := l.messages + ToolItems(r.calls, results, count) + LoopNote(loop, breaker, count);
    assert after == Context.Pruned(added, count, now).0;
    forall i | 0 <= i < k
      ensures after[i].role == l.messages[i].role && after[i].toolCalls == l.messages[i].toolCalls
    {
      ClosedMessageAt(l, count, r, results, loop, breaker, now, i);
    }
    forall i | k <= i < k + |r.calls|
      ensures after[i].role == "tool" && after[i].toolCallId == Some(r.calls[i - k].callId)
    {
      ClosedMessageAt(l, count, r, results, loop, breaker, now, i);
    }
    assert KeepsShape(after, l.messages);
    assert AnswersFrom(after, k, r.calls);
  }

  /**
   * A turn appends one assistant message carrying the calls, then one tool message per call,
   * answering the calls in order, then at most the loop-breaker note.
   */
  lemma TurnAnswersEveryCall(before: Ledger, prompt: string, window: nat, count: string -> nat, compactReply: seq<StreamEvent>,
                             r: Reading, results: seq<ToolModels.ToolResult>, loop: Option<string>,
                             breaker: string -> string, show: Json.Value -> string, now: Messages.Timestamp)
    requires |r.calls| == |results|
    ensures |TurnLedger(before, prompt, window, count, compactReply, r, results, loop, breaker, show, now).messages|
            == |Compacted(before, prompt, window, count, compactReply).messages| + 1 + |r.calls| + |LoopNote(loop, breaker, count)|
    ensures TurnLedger(before, prompt, window, count, compactReply, r, results, loop, breaker, show, now)
              .messages[|Compacted(before, prompt, window, count, compactReply).messages|]
              .role == "assistant"
    ensures TurnLedger(before, prompt, window, count, compactReply, r, results, loop, breaker, show, now)
              .messages[|Compacted(before, prompt, window, count, compactReply).messages|]
              .toolCalls == CallEntries(r.calls, show).GetOr([])
    ensures AnswersFrom(TurnLedger(before, prompt, window, count, compactReply, r, results, loop, breaker, show, now).messages,
                        |Compacted(before, prompt, window, count, compactReply).messages| + 1, r.calls)
  {
    var k := |Compacted(before, prompt, window, count, compactReply).messages|;
    var o := Opened(before, prompt, window, count, compactReply, r, show);
    OpenedEndsWithReply(before, prompt, window, count, compactReply, r, show);
    ClosedAnswersEveryCall(o, count, r, results, loop, breaker, now);
    var after := Closed(o, count, r, results, loop, breaker, now).messages;
    assert TurnLedger(before, prompt, window, count, compactReply, r, results, loop, breaker, show, now).messages == after;
    assert after[k].role == o.messages[k].role && after[k].toolCalls == o.messages[k].toolCalls;
  }

  /** The opened ledger is the compacted one plus the assistant message. */
  lemma OpenedEndsWithReply(before: Ledger, prompt: string, window: nat, count: string -> nat, compactReply: seq<StreamEvent>,
                            r: Reading, show: Json.Value -> string)
    ensures |Opened(before, prompt, window, count, compactReply, r, show).messages|
            == |Compacted(before, prompt, window, count, compactReply).messages| + 1
    ensures Opened(before, prompt, window, count, compactReply, r, show).messages[|Compacted(before, prompt, window, count, compactReply).messages|]
            == Context.AssistantItem(TextOrNone(r.text), CallEntries(r.calls, show), count)
  {
  }

  /** Counted usage only grows over a turn. */
  lemma TurnUsageGrows(before: Ledger, prompt: string, window: nat, count: string -> nat, compactReply: seq<StreamEvent>,
                       r: Reading, results: seq<ToolModels.ToolResult>, loop: Option<string>,
                       breaker: string -> string, show: Json.Value -> string, now: Messages.Timestamp)
    requires |r.calls| == |results|
    ensures LlmModels.Covers(TurnLedger(before, prompt, window, count, compactReply, r, results, loop, breaker, show, now).total, before.total)
  {
    var mid := Compacted(before, prompt, window, count, compactReply);
    assert LlmModels.Covers(mid.total, before.total);
    assert LlmModels.Covers(Recorded(mid, r.usage).total, mid.total);
  }

  /** `final_response`: the content of the last `text_complete` event, if any. */
  function LastText(evs: seq<AgentEvent>): Option<string>
  {
    if |evs| == 0 then None
    else if evs[|evs| - 1].TextComplete? then Some(evs[|evs| - 1].content)
    else LastText(evs[..|evs| - 1])
  }

  /** The final response is the content of a `text_complete` event after which no other comes. */
  lemma {:induction false} LastTextIsLast(evs: seq<AgentEvent>)
    ensures LastText(evs).Some? ==>
      exists i | 0 <= i < |evs| :: evs[i] == Events.TextComplete(LastText(evs).value)
                                   && forall j | i < j < |evs| :: !evs[j].TextComplete?
    ensures LastText(evs).None? ==> forall j | 0 <= j < |evs| :: !evs[j].TextComplete?
  {
    if |evs| > 0 && !evs[|evs| - 1].TextComplete? {
      var init := evs[..|evs| - 1];
      LastTextIsLast(init);
      if LastText(init).Some? {
        var i :| 0 <= i < |init| && init[i] == Events.TextComplete(LastText(init).value)
                 && forall j | i < j < |init| :: !init[j].TextComplete?;
        assert evs[i] == init[i];
      }
    }
  }

  /** `run`'s forwarding loop: the content of the last `text_complete` event seen, if any. */
  method FinalResponse(evs: seq<AgentEvent>) returns (final: Option<string>)
    ensures final == LastText(evs)
  {
    final := None;
    var i := 0;
    while i < |evs|
      invariant 0 <= i <= |evs|
      invariant final == LastText(evs[..i])
    {
      assert evs[..i + 1][..i] == evs[..i];
      if evs[i].TextComplete? {
        final := Some(evs[i].content);
      }
      i := i + 1;
    }
    assert evs[..i] == evs;
  }

  // ---------------------------------------------------------------------------------------
  // The agent

  class Agent {
    const config: Config.Configuration
    const session: Sessions.Session

    /** A session that has been initialized and shares the agent's configuration. */
    ghost predicate Ready()
      reads this, session, session.registry, session.detector, session.config
    {
      session.Valid() && session.config == config && session.context != null
    }

    /** A step that changes nothing the agent reads leaves it ready. */
    twostate lemma ReadyKept()
      requires old(Ready())
      requires unchanged(this, session, session.registry, session.detector, session.config)
      ensures Ready()
    {
    }

    /** `Agent(config, confirmation_callback)`: the callback is handed to the approval manager. */
    constructor (session: Sessions.Session, callback: Option<Approval.SafetyConfirmation -> bool>)
      requires session.Valid()
      modifies session`approval
      ensures this.session == session && config == session.config
      ensures session.approval == old(session.approval).(callback := callback)
    {
      this.session := session;
      config := session.config;
      new;
      session.approval := session.approval.(callback := callback);
    }

    /** The compaction step at the head of a turn. */
    method CompactIfNeeded(reply: seq<StreamEvent>)
      requires Ready()
      modifies session.context`messages, session.context`latestUsage, session.context`totalUsage
      ensures LedgerOf(session.context) == Compacted(old(LedgerOf(session.context)), session.context.systemPrompt,
                                                     session.context.contextWindow, session.context.count, reply)
    {
      var cm := session.context;
      if cm.NeedsCompression() {
        var request, summary, usage := Compaction.Compress(cm, reply);
        if summary.Some? && summary.value != "" {
          Summarize(summary.value, usage);
        }
      }
    }

    /** A non-empty summary replaces the history, and its usage is recorded. */
    method Summarize(summary: string, usage: Option<LlmModels.TokenUsage>)
      requires Ready()
      modifies session.context`messages, session.context`latestUsage, session.context`totalUsage
      ensures LedgerOf(session.context) ==
        Recorded(old(LedgerOf(session.context)).(messages := Context.SummaryMessages(summary, session.context.count)), usage)
    {
      var cm := session.context;
      cm.ReplaceWithSummary(summary);
      if usage.Some? {
        cm.SetLatestUsage(usage.value);
        cm.AddUsage(usage.value);
      }
    }

    method RecordUsage(usage: Option<LlmModels.TokenUsage>)
      requires Ready()
      modifies session.context`latestUsage, session.context`totalUsage
      ensures LedgerOf(session.context) == Recorded(old(LedgerOf(session.context)), usage)
    {
      if usage.Some? {
        session.context.SetLatestUsage(usage.value);
        session.context.AddUsage(usage.value);
      }
    }

    /** One call: record it with the loop detector, then invoke it. */
    method RunCall(c: ToolCall, show: Json.Value -> string, dangerous: string -> bool, safe: string -> bool)
      returns (result: ToolModels.ToolResult, hooks: seq<Registry.ToolHook>)
      requires Ready()
      modifies session.detector
      ensures Ready()
      ensures session.detector.history ==
        LoopDetection.Pushed(old(session.detector.history), LoopDetection.Signature("tool_call", c.name, Some(c.arguments), None, show))
      ensures result == Registry.Outcome(session.registry.Get(NameOf(c)), NameOf(c), ArgsOf(c), config.cwd, Some(session.approval), dangerous, safe)
      ensures hooks == Registry.Trace(session.registry.Get(NameOf(c)), NameOf(c), ArgsOf(c), result)
    {
      session.detector.RecordAction("tool_call", c.name, Some(c.arguments), None, show);
      var asked, executed;
      result, hooks, asked, executed := session.registry.Invoke(NameOf(c), ArgsOf(c), config.cwd, Some(session.approval), dangerous, safe);
    }

    /** The `for tool_call in tool_calls` loop: record, invoke and report each call in order. */
    method RunCalls(calls: seq<ToolCall>, show: Json.Value -> string, dangerous: string -> bool, safe: string -> bool)
      returns (events: seq<AgentEvent>, results: seq<ToolModels.ToolResult>, trace: seq<Registry.ToolHook>)
      requires Ready()
      modifies session.detector
      ensures Ready()
      ensures session.detector.history == PushedAll(old(session.detector.history), CallSignatures(calls, show))
      ensures results == Outcomes(session.registry, calls, config.cwd, Some(session.approval), dangerous, safe)
      ensures events == CallEvents(calls, results)
      ensures trace == TraceAll(session.registry, calls, results)
    {
      events, results, trace := [], [], [];
      var i := 0;
      while i < |calls|
        invariant 0 <= i <= |calls|
        invariant Ready()
        invariant session.detector.history == PushedAll(old(session.detector.history), CallSignatures(calls[..i], show))
        invariant results == Outcomes(session.registry, calls[..i], config.cwd, Some(session.approval), dangerous, safe)
        invariant events == CallEvents(calls[..i], results)
        invariant trace == TraceAll(session.registry, calls[..i], results)
      {
        var c := calls[i];
        assert calls[..i + 1][..i] == calls[..i];
        ghost var sig := LoopDetection.Signature("tool_call", c.name, Some(c.arguments), None, show);
        assert CallSignatures(calls[..i + 1], show) == CallSignatures(calls[..i], show) + [sig];
        PushedAllAppend(old(session.detector.history), CallSignatures(calls[..i], show), [sig]);
        var result, hooks := RunCall(c, show, dangerous, safe);
        var rs := results + [result];
        assert rs[..i] == results && rs[i] == result;
        assert Outcomes(session.registry, calls[..i + 1], config.cwd, Some(session.approval), dangerous, safe)
            == Outcomes(session.registry, calls[..i], config.cwd, Some(session.approval), dangerous, safe) + [result];
        assert CallEvents(calls[..i + 1], rs) == CallEvents(calls[..i], results)
            + [Events.ToolCallStart(c.callId, c.name, c.arguments), Events.ToolCallComplete(c.callId, c.name, result)];
        assert TraceAll(session.registry, calls[..i + 1], rs) == TraceAll(session.registry, calls[..i], results) + hooks;
        events := events + [Events.ToolCallStart(c.callId, c.name, c.arguments), Events.ToolCallComplete(c.callId, c.name, result)];
        results := rs;
        trace := trace + hooks;
        i := i + 1;
      }
      assert calls[..i] == calls;
    }

    /** The `for tool_result in tool_call_results` loop. */
    method AddResults(calls: seq<ToolCall>, results: seq<ToolModels.ToolResult>)
      requires Ready() && |calls| == |results|
      modifies session.context`messages
      ensures session.context.messages == old(session.context.messages) + ToolItems(calls, results, session.context.count)
    {
      var cm := session.context;
      var j := 0;
      while j < |calls|
        invariant 0 <= j <= |calls|
        invariant cm.messages == old(cm.messages) + ToolItems(calls[..j], results[..j], cm.count)
      {
        ghost var before := cm.messages;
        ghost var item := Context.ToolItem(calls[j].callId, ToolModels.ToModelOutput(results[j]), cm.count);
        assert calls[..j + 1][..j] == calls[..j] && results[..j + 1][..j] == results[..j];
        assert ToolItems(calls[..j + 1], results[..j + 1], cm.count) == ToolItems(calls[..j], results[..j], cm.count) + [item];
        cm.AddToolResult(calls[j].callId, ToolModels.ToModelOutput(results[j]));
        assert cm.messages == before + [item];
        j := j + 1;
      }
      assert calls[..j] == calls && results[..j] == results;
    }

    /** The first half of a turn: count it, compact, read the reply, store the assistant message, record the response. */
    method Respond(reply: seq<StreamEvent>, compactReply: seq<StreamEvent>, now: Messages.Timestamp, show: Json.Value -> string)
      returns (r: Reading)
      requires Ready()
      modifies session`turnCount, session`updatedAt, session.detector
      modifies session.context`messages, session.context`latestUsage, session.context`totalUsage
      ensures Ready()
      ensures r == ReadStream(reply)
      ensures session.turnCount == old(session.turnCount) + 1 && session.updatedAt == now
      ensures session.detector.history == PushedAll(old(session.detector.history), ResponseSignatures(r.text, show))
      ensures LedgerOf(session.context) ==
        Opened(old(LedgerOf(session.context)), session.context.systemPrompt, session.context.contextWindow,
               session.context.count, compactReply, r, show)
    {
      var cm := session.context;
      var n := session.IncrementTurn(now);
      CompactIfNeeded(compactReply);
      var text, calls, usage, streamed := ConsumeStream(reply);
      r := Reading(text, calls, usage, streamed);
      cm.AddAssistantMessage(TextOrNone(text), CallEntries(calls, show));
      if text != "" {
        session.detector.RecordAction("response", None, None, Some(text), show);
        assert [LoopDetection.Signature("response", None, None, Some(text), show)][..0] == [];
      }
    }

    /** The second half of a turn with tool calls: the tool messages, the loop check, the usage, pruning. */
    method Close(r: Reading, results: seq<ToolModels.ToolResult>, breaker: string -> string, now: Messages.Timestamp)
      returns (loop: Option<string>)
      requires Ready() && |r.calls| == |results|
      modifies session.context`messages, session.context`latestUsage, session.context`totalUsage
      ensures LoopDetection.DescribesLoop(session.detector.history, session.detector.maxExactRepeats,
                                          session.detector.maxCycleLength, loop)
      ensures LedgerOf(session.context) == Closed(old(LedgerOf(session.context)), session.context.count, r, results, loop, breaker, now)
    {
      var cm := session.context;
      ghost var l0 := LedgerOf(cm);
      AddResults(r.calls, results);
      loop := session.detector.CheckForLoop();
      if loop.Some? && loop.value != "" {
        cm.AddUserMessage(breaker(loop.value));
      }
      ghost var added := l0.messages + ToolItems(r.calls, results, cm.count) + LoopNote(loop, breaker, cm.count);
      assert cm.messages == added;
      RecordUsage(r.usage);
      ghost var l1 := LedgerOf(cm);
      assert l1 == Recorded(l0.(messages := added), r.usage);
      var pruned := cm.PruneToolOutputs(now);
      assert cm.messages == Context.Pruned(added, cm.count, now).0;
      assert LedgerOf(cm) == l1.(messages := Context.Pruned(added, cm.count, now).0);
    }

    /** The end of a turn whose reply has no tool calls: the usage, then pruning. */
    method Quiet(r: Reading, now: Messages.Timestamp, ghost breaker: string -> string)
      requires Ready() && |r.calls| == 0
      modifies session.context`messages, session.context`latestUsage, session.context`totalUsage
      ensures LedgerOf(session.context) == Closed(old(LedgerOf(session.context)), session.context.count, r, [], None, breaker, now)
    {
      var cm := session.context;
      ghost var l0 := LedgerOf(cm);
      assert ToolItems(r.calls, [], cm.count) == [] && LoopNote(None, breaker, cm.count) == [];
      assert l0.messages + ToolItems(r.calls, [], cm.count) + LoopNote(None, breaker, cm.count) == l0.messages;
      RecordUsage(r.usage);
      var pruned := cm.PruneToolOutputs(now);
    }

    /** The part of a turn with tool calls: run them, then close the turn. */
    method Act(r: Reading, ghost before: seq<string>, show: Json.Value -> string, breaker: string -> string,
               dangerous: string -> bool, safe: string -> bool, now: Messages.Timestamp)
      returns (callEvents: seq<AgentEvent>, results: seq<ToolModels.ToolResult>, trace: seq<Registry.ToolHook>, loop: Option<string>)
      requires Ready()
      requires |before| <= LoopDetection.Capacity && session.detector.history == PushedAll(before, ResponseSignatures(r.text, show))
      modifies session.detector
      modifies session.context`messages, session.context`latestUsage, session.context`totalUsage
      ensures Ready()
      ensures results == Outcomes(session.registry, r.calls, config.cwd, Some(session.approval), dangerous, safe)
      ensures callEvents == CallEvents(r.calls, results)
      ensures trace == TraceAll(session.registry, r.calls, results)
      ensures session.detector.history == PushedAll(before, TurnSignatures(r, show))
      ensures LoopDetection.DescribesLoop(session.detector.history, session.detector.maxExactRepeats,
                                          session.detector.maxCycleLength, loop)
      ensures LedgerOf(session.context) == Closed(old(LedgerOf(session.context)), session.context.count, r, results, loop, breaker, now)
    {
      callEvents, results, trace := RunCalls(r.calls, show, dangerous, safe);
      PushedAllAppend(before, ResponseSignatures(r.text, show), CallSignatures(r.calls, show));
      loop := Close(r, results, breaker, now);
    }

    /** What a turn does once the reply is stored: the early return, or the tool calls and the rest. */
    method Finish(r: Reading, ghost before: seq<string>, show: Json.Value -> string, breaker: string -> string,
                  dangerous: string -> bool, safe: string -> bool, now: Messages.Timestamp)
      returns (events: seq<AgentEvent>, stop: bool, results: seq<ToolModels.ToolResult>,
               trace: seq<Registry.ToolHook>, loop: Option<string>)
      requires Ready()
      requires |before| <= LoopDetection.Capacity && session.detector.history == PushedAll(before, ResponseSignatures(r.text, show))
      requires forall i | 0 <= i < |r.events| :: r.events[i].TextDelta? || r.events[i].AgentError?
      modifies session.detector
      modifies session.context`messages, session.context`latestUsage, session.context`totalUsage
      ensures Ready()
      ensures stop <==> |r.calls| == 0
      ensures results == Outcomes(session.registry, r.calls, config.cwd, Some(session.approval), dangerous, safe)
      ensures events == TurnEvents(r, results)
      ensures trace == TraceAll(session.registry, r.calls, results)
      ensures session.detector.history == PushedAll(before, TurnSignatures(r, show))
      ensures stop ==> loop.None?
      ensures !stop ==> LoopDetection.DescribesLoop(session.detector.history, session.detector.maxExactRepeats,
                                                    session.detector.maxCycleLength, loop)
      ensures LedgerOf(session.context) == Closed(old(LedgerOf(session.context)), session.context.count, r, results, loop, breaker, now)
    {
      events := r.events + (if r.text == "" then [] else [Events.TextComplete(r.text)]);
      if |r.calls| == 0 {
        stop, results, trace, loop := true, [], [], None;
        Quiet(r, now, breaker);
        return;
      }
      var callEvents;
      callEvents, results, trace, loop := Act(r, before, show, breaker, dangerous, safe, now);
      events := events + callEvents;
      stop := false;
    }

    /**
     * One iteration of `_agentic_loop`. `stop` is the early `return` of a reply without tool
     * calls; `loop` is the detector's verdict, asked only after tool calls.
     */
    method Turn(reply: seq<StreamEvent>, compactReply: seq<StreamEvent>, now: Messages.Timestamp,
                show: Json.Value -> string, breaker: string -> string, dangerous: string -> bool, safe: string -> bool)
      returns (events: seq<AgentEvent>, stop: bool, results: seq<ToolModels.ToolResult>,
               trace: seq<Registry.ToolHook>, loop: Option<string>)
      requires Ready()
      modifies session`turnCount, session`updatedAt, session.detector
      modifies session.context`messages, session.context`latestUsage, session.context`totalUsage
      ensures Ready()
      ensures session.turnCount == old(session.turnCount) + 1 && session.updatedAt == now
      ensures stop <==> !HasCalls(reply)
      ensures results == Outcomes(session.registry, ReadStream(reply).calls, config.cwd, Some(session.approval), dangerous, safe)
      ensures events == TurnEvents(ReadStream(reply), results)
      ensures trace == TraceAll(session.registry, ReadStream(reply).calls, results)
      ensures session.detector.history == PushedAll(old(session.detector.history), TurnSignatures(ReadStream(reply), show))
      ensures stop ==> loop.None?
      ensures !stop ==> LoopDetection.DescribesLoop(session.detector.history, session.detector.maxExactRepeats,
                                                    session.detector.maxCycleLength, loop)
      ensures LedgerOf(session.context) ==
        TurnLedger(old(LedgerOf(session.context)), session.context.systemPrompt, session.context.contextWindow,
                   session.context.count, compactReply, ReadStream(reply), results, loop, breaker, show, now)
    {
      var r := Respond(reply, compactReply, now, show);
      events, stop, results, trace, loop := Finish(r, old(session.detector.history), show, breaker, dangerous, safe, now);
    }

    /** What the tool calls of a reply give, run through the session's registry. */
    ghost function ReplyResults(reply: seq<StreamEvent>, dangerous: string -> bool, safe: string -> bool)
      : (rs: seq<ToolModels.ToolResult>)
      reads session`approval, session.registry, config
      ensures |rs| == |ReadStream(reply).calls|
    {
      Outcomes(session.registry, ReadStream(reply).calls, config.cwd, Some(session.approval), dangerous, safe)
    }

    /** Turn `t` of a run had the results its tool calls give. */
    ghost predicate RanAll(replies: nat -> seq<StreamEvent>, outcomes: seq<seq<ToolModels.ToolResult>>,
                           dangerous: string -> bool, safe: string -> bool)
      reads session`approval, session.registry, config
    {
      forall t | 0 <= t < |outcomes| :: RanTurn(replies, outcomes, t, dangerous, safe)
    }

    /** Turn `t` of a run had the results its tool calls give. */
    ghost predicate RanTurn(replies: nat -> seq<StreamEvent>, outcomes: seq<seq<ToolModels.ToolResult>>, t: nat,
                            dangerous: string -> bool, safe: string -> bool)
      requires t < |outcomes|
      reads session`approval, session.registry, config
    {
      outcomes[t] == ReplyResults(replies(t), dangerous, safe)
    }

    lemma RanAllExtend(replies: nat -> seq<StreamEvent>, outcomes: seq<seq<ToolModels.ToolResult>>,
                       results: seq<ToolModels.ToolResult>, dangerous: string -> bool, safe: string -> bool)
      requires RanAll(replies, outcomes, dangerous, safe)
      requires results == ReplyResults(replies(|outcomes|), dangerous, safe)
      ensures RanAll(replies, outcomes + [results], dangerous, safe)
      ensures (outcomes + [results])[..|outcomes|] == outcomes
    {
      var os := outcomes + [results];
      forall t | 0 <= t < |os|
        ensures RanTurn(replies, os, t, dangerous, safe)
      {
        if t < |outcomes| {
          assert RanTurn(replies, outcomes, t, dangerous, safe);
          assert os[t] == outcomes[t];
        }
      }
      assert os[..|outcomes|] == outcomes;
    }

    /**
     * Turn `t` of a run, seen from the loop: one more turn, which goes as the replies, the
     * context and the detector say, and whether it was the last.
     */
    method NextTurn(ghost cm: Context.ContextManager, replies: nat -> seq<StreamEvent>, compactReplies: nat -> seq<StreamEvent>,
                    clock: nat -> Messages.Timestamp, show: Json.Value -> string, breaker: string -> string,
                    dangerous: string -> bool, safe: string -> bool, t: nat, ghost run: TurnLog)
      returns (events: seq<AgentEvent>, stop: bool, ghost results: seq<ToolModels.ToolResult>, ghost loop: Option<string>)
      requires Ready() && session.context == cm && run.Shaped() && |run.outcomes| == t
      requires session.detector.history == run.histories[t] && LedgerOf(cm) == run.ledgers[t]
      requires RanAll(replies, run.outcomes, dangerous, safe)
      modifies session`turnCount, session`updatedAt, session.detector
      modifies session.context`messages, session.context`latestUsage, session.context`totalUsage
      ensures Ready() && session.context == cm
      ensures session.turnCount == old(session.turnCount) + 1
      ensures stop <==> !HasCalls(replies(t))
      ensures RanAll(replies, run.outcomes + [results], dangerous, safe)
      ensures TurnAt(run.Then(results, loop, events, session.detector.history, LedgerOf(cm)),
                     Along(cm, session.detector, replies, compactReplies, clock, show, breaker), t)
    {
      var c := Along(session.context, session.detector, replies, compactReplies, clock, show, breaker);
      var rs, trace;
      events, stop, rs, trace, loop := Turn(c.replies(t), c.compactReplies(t), c.clock(t), c.show, c.breaker, dangerous, safe);
      results := rs;
      ghost var next := run.Then(results, loop, events, session.detector.history, LedgerOf(cm));
      assert next.outcomes[t] == results && next.verdicts[t] == loop && next.chunks[t] == events;
      assert next.histories[t] == run.histories[t] && next.histories[t + 1] == session.detector.history;
      assert next.ledgers[t] == run.ledgers[t] && next.ledgers[t + 1] == LedgerOf(cm);
      RanAllExtend(replies, run.outcomes, results, dangerous, safe);
    }

    /**
     * `_agentic_loop`: up to `max_turns` turns, ending early at the first reply without tool
     * calls; a run that uses every turn ends with the max-turns error. `run` is what the turns
     * went through: each went as the replies, the context and the detector say, from the
     * detector's history and the context's ledger before the loop to those it leaves, and the
     * events are those of the turns one after the other.
     */
    method Loop(replies: nat -> seq<StreamEvent>, compactReplies: nat -> seq<StreamEvent>, clock: nat -> Messages.Timestamp,
                show: Json.Value -> string, breaker: string -> string, dangerous: string -> bool, safe: string -> bool)
      returns (events: seq<AgentEvent>, turns: nat, finished: bool, ghost run: TurnLog)
      requires Ready()
      modifies session`turnCount, session`updatedAt, session.detector
      modifies session.context`messages, session.context`latestUsage, session.context`totalUsage
      ensures Ready() && session.context == old(session.context)
      ensures session.turnCount == old(session.turnCount) + turns
      ensures 1 <= turns <= config.maxTurns
      ensures finished ==> !HasCalls(replies(turns - 1))
      ensures AllHaveCalls(replies, turns - 1)
      ensures !finished ==> turns == config.maxTurns && HasCalls(replies(turns - 1))
      ensures Followed(run, Along(session.context, session.detector, replies, compactReplies, clock, show, breaker))
      ensures RanAll(replies, run.outcomes, dangerous, safe)
      ensures |run.outcomes| == turns
      ensures run.histories[0] == old(session.detector.history) && session.detector.history == run.histories[turns]
      ensures run.ledgers[0] == old(LedgerOf(session.context)) && LedgerOf(session.context) == run.ledgers[turns]
      ensures events == Flatten(run.chunks) +
                        (if finished then [] else [Events.AgentError(MaxTurnsMessage(config.maxTurns), None)])
      ensures Inner(events)
    {
      events, turns, finished, run := Turns(replies, compactReplies, clock, show, breaker, dangerous, safe);
      if !finished {
        InnerAppend(events, [Events.AgentError(MaxTurnsMessage(config.maxTurns), None)]);
        events := events + [Events.AgentError(MaxTurnsMessage(config.maxTurns), None)];
      }
    }

    /** The turns of `_agentic_loop`, without the max-turns error. */
    method Turns(replies: nat -> seq<StreamEvent>, compactReplies: nat -> seq<StreamEvent>, clock: nat -> Messages.Timestamp,
                 show: Json.Value -> string, breaker: string -> string, dangerous: string -> bool, safe: string -> bool)
      returns (events: seq<AgentEvent>, turns: nat, finished: bool, ghost run: TurnLog)
      requires Ready()
      modifies session`turnCount, session`updatedAt, session.detector
      modifies session.context`messages, session.context`latestUsage, session.context`totalUsage
      ensures Ready() && session.context == old(session.context)
      ensures session.turnCount == old(session.turnCount) + turns
      ensures 1 <= turns <= config.maxTurns
      ensures finished ==> !HasCalls(replies(turns - 1)) && AllHaveCalls(replies, turns - 1)
      ensures !finished ==> turns == config.maxTurns && AllHaveCalls(replies, turns)
      ensures Followed(run, Along(session.context, session.detector, replies, compactReplies, clock, show, breaker))
      ensures RanAll(replies, run.outcomes, dangerous, safe)
      ensures |run.outcomes| == turns
      ensures run.histories[0] == old(session.detector.history) && session.detector.history == run.histories[turns]
      ensures run.ledgers[0] == old(LedgerOf(session.context)) && LedgerOf(session.context) == run.ledgers[turns]
      ensures events == Flatten(run.chunks) && Inner(events)
    {
      var maxTurns := config.maxTurns;
      ghost var cm: Context.ContextManager := session.context;
      events, turns, finished := [], 0, false;
      run := TurnLog([], [], [], [session.detector.history], [LedgerOf(cm)]);
      while turns < maxTurns && !finished
        invariant 0 <= turns <= maxTurns && maxTurns == config.maxTurns
        invariant Ready() && session.context == cm
        invariant session.turnCount == old(session.turnCount) + turns
        invariant finished ==> 1 <= turns && !HasCalls(replies(turns - 1)) && AllHaveCalls(replies, turns - 1)
        invariant !finished ==> AllHaveCalls(replies, turns)
        invariant Followed(run, Along(cm, session.detector, replies, compactReplies, clock, show, breaker))
        invariant RanAll(replies, run.outcomes, dangerous, safe)
        invariant |run.outcomes| == turns
        invariant run.histories[0] == old(session.detector.history) && session.detector.history == run.histories[turns]
        invariant run.ledgers[0] == old(LedgerOf(session.context)) && LedgerOf(cm) == run.ledgers[turns]
        invariant events == Flatten(run.chunks) && Inner(events)
        decreases maxTurns - turns
      {
        var stop;
        events, stop, run := Advance(cm, replies, compactReplies, clock, show, breaker, dangerous, safe, turns, events, run);
        if !stop {
          AllHaveCallsExtend(replies, turns);
        }
        turns, finished := turns + 1, stop;
      }
    }

    /** One iteration of the loop: the run so far, extended by one turn. */
    method Advance(ghost cm: Context.ContextManager, replies: nat -> seq<StreamEvent>, compactReplies: nat -> seq<StreamEvent>,
                   clock: nat -> Messages.Timestamp, show: Json.Value -> string, breaker: string -> string,
                   dangerous: string -> bool, safe: string -> bool, turns: nat, events: seq<AgentEvent>, ghost run: TurnLog)
      returns (events': seq<AgentEvent>, stop: bool, ghost run': TurnLog)
      requires Ready() && session.context == cm && |run.outcomes| == turns
      requires Followed(run, Along(cm, session.detector, replies, compactReplies, clock, show, breaker))
      requires RanAll(replies, run.outcomes, dangerous, safe)
      requires session.detector.history == run.histories[|run.outcomes|] && LedgerOf(cm) == run.ledgers[|run.outcomes|]
      requires events == Flatten(run.chunks) && Inner(events)
      modifies session`turnCount, session`updatedAt, session.detector
      modifies session.context`messages, session.context`latestUsage, session.context`totalUsage
      ensures Ready() && session.context == cm
      ensures session.turnCount == old(session.turnCount) + 1
      ensures stop <==> !HasCalls(replies(|run.outcomes|))
      ensures Followed(run', Along(cm, session.detector, replies, compactReplies, clock, show, breaker))
      ensures RanAll(replies, run'.outcomes, dangerous, safe)
      ensures |run'.outcomes| == |run.outcomes| + 1 && run'.histories[0] == run.histories[0] && run'.ledgers[0] == run.ledgers[0]
      ensures session.detector.history == run'.histories[|run'.outcomes|] && LedgerOf(cm) == run'.ledgers[|run'.outcomes|]
      ensures events' == Flatten(run'.chunks) && Inner(events')
    {
      var t := turns;
      var chunk;
      ghost var results, loop;
      chunk, stop, results, loop := NextTurn(cm, replies, compactReplies, clock, show, breaker, dangerous, safe, t, run);
      ghost var history, ledger := session.detector.history, LedgerOf(cm);
      FollowedThen(run, Along(cm, session.detector, replies, compactReplies, clock, show, breaker), results, loop, chunk,
                   history, ledger);
      run' := run.Then(results, loop, chunk, history, ledger);
      InnerAppend(events, chunk);
      events' := events + chunk;
    }

    /**
     * The middle of `run`: the user message appended to the context, then the loop, and the last
     * complete text among its events. `run` is the loop's record: it starts from the ledger with
     * the user message, follows the replies, the context and the detector, and its events are the
     * loop's events.
     */
    method Converse(message: string, replies: nat -> seq<StreamEvent>, compactReplies: nat -> seq<StreamEvent>,
                    clock: nat -> Messages.Timestamp, show: Json.Value -> string, breaker: string -> string,
                    dangerous: string -> bool, safe: string -> bool)
      returns (loopEvents: seq<AgentEvent>, final: Option<string>, turns: nat, finished: bool, ghost run: TurnLog)
      requires Ready()
      modifies session`turnCount, session`updatedAt, session.detector
      modifies session.context`messages, session.context`latestUsage, session.context`totalUsage
      ensures Ready() && session.context == old(session.context)
      ensures session.turnCount == old(session.turnCount) + turns
      ensures Went(Along(session.context, session.detector, replies, compactReplies, clock, show, breaker), config.maxTurns,
                   old(LedgerOf(session.context)).(messages := old(session.context.messages) +
                                                   [Context.UserItem(message, session.context.count)]),
                   old(session.detector.history), LedgerOf(session.context), session.detector.history,
                   loopEvents, turns, finished, run)
      ensures RanAll(replies, run.outcomes, dangerous, safe)
      ensures Inner(loopEvents) && final == LastText(loopEvents)
    {
      session.context.AddUserMessage(message);
      loopEvents, turns, finished, run := Loop(replies, compactReplies, clock, show, breaker, dangerous, safe);
      final := FinalResponse(loopEvents);
    }

    /**
     * `run` after `agent_start`: the conversation, then the after-agent hooks with the message and
     * `final_response or ""`.
     */
    method Answer(message: string, replies: nat -> seq<StreamEvent>, compactReplies: nat -> seq<StreamEvent>,
                   clock: nat -> Messages.Timestamp, base: map<string, string>, dumps: map<string, Json.Value> -> string,
                   show: Json.Value -> string, breaker: string -> string, dangerous: string -> bool, safe: string -> bool)
      returns (loopEvents: seq<AgentEvent>, final: Option<string>, afterRuns: seq<Hooks.HookRun>,
               turns: nat, finished: bool, ghost run: TurnLog)
      requires Ready()
      modifies session`turnCount, session`updatedAt, session.detector
      modifies session.context`messages, session.context`latestUsage, session.context`totalUsage
      ensures Ready() && session.context == old(session.context)
      ensures session.turnCount == old(session.turnCount) + turns
      ensures Went(Along(session.context, session.detector, replies, compactReplies, clock, show, breaker), config.maxTurns,
                   old(LedgerOf(session.context)).(messages := old(session.context.messages) +
                                                   [Context.UserItem(message, session.context.count)]),
                   old(session.detector.history), LedgerOf(session.context), session.detector.history,
                   loopEvents, turns, finished, run)
      ensures RanAll(replies, run.outcomes, dangerous, safe)
      ensures Inner(loopEvents) && final == LastText(loopEvents)
      ensures afterRuns == Hooks.Runs(Hooks.Matching(session.hooks.hooks, Config.AfterAgent),
                                      Hooks.HookEnvironment(base, Config.AfterAgent, config.cwd,
                                                            Hooks.NoArgs.(userMessage := Some(message),
                                                                          agentResponse := Some(final.GetOr(""))),
                                                            dumps), config.cwd)
    {
      loopEvents, final, turns, finished, run := Converse(message, replies, compactReplies, clock, show, breaker, dangerous, safe);
      label Conversed:
      afterRuns := session.hooks.TriggerAfterAgent(message, final.GetOr(""), base, dumps);
      ReadyKept@Conversed();
    }

    /**
     * `run`: the before-agent hooks, `agent_start`, the user message, the loop's events
     * forwarded while remembering the last complete text, the after-agent hooks, `agent_end`.
     * Between `agent_start` and `agent_end` come exactly the events of the recorded run, and the
     * max-turns error when the loop used every turn.
     */
    method Run(message: string, replies: nat -> seq<StreamEvent>, compactReplies: nat -> seq<StreamEvent>,
               clock: nat -> Messages.Timestamp, base: map<string, string>, dumps: map<string, Json.Value> -> string,
               show: Json.Value -> string, breaker: string -> string, dangerous: string -> bool, safe: string -> bool)
      returns (events: seq<AgentEvent>, beforeRuns: seq<Hooks.HookRun>, afterRuns: seq<Hooks.HookRun>,
               turns: nat, finished: bool, ghost run: TurnLog)
      requires Ready()
      modifies session`turnCount, session`updatedAt, session.detector
      modifies session.context`messages, session.context`latestUsage, session.context`totalUsage
      ensures Ready() && session.context == old(session.context)
      ensures |events| >= 2 && events[0] == Events.AgentStart(message)
      ensures session.turnCount == old(session.turnCount) + turns
      ensures Went(Along(session.context, session.detector, replies, compactReplies, clock, show, breaker), config.maxTurns,
                   old(LedgerOf(session.context)).(messages := old(session.context.messages) +
                                                   [Context.UserItem(message, session.context.count)]),
                   old(session.detector.history), LedgerOf(session.context), session.detector.history,
                   events[1..|events| - 1], turns, finished, run)
      ensures RanAll(replies, run.outcomes, dangerous, safe)
      ensures events[|events| - 1] == Events.AgentEnd(LastText(events[1..|events| - 1]), None)
      ensures Inner(events[1..|events| - 1])
      ensures beforeRuns == Hooks.Runs(Hooks.Matching(session.hooks.hooks, Config.BeforeAgent),
                                       Hooks.HookEnvironment(base, Config.BeforeAgent, config.cwd,
                                                             Hooks.NoArgs.(userMessage := Some(message)), dumps), config.cwd)
      ensures afterRuns == Hooks.Runs(Hooks.Matching(session.hooks.hooks, Config.AfterAgent),
                                      Hooks.HookEnvironment(base, Config.AfterAgent, config.cwd,
                                                            Hooks.NoArgs.(userMessage := Some(message),
                                                                          agentResponse := Some(LastText(events[1..|events| - 1]).GetOr(""))),
                                                            dumps), config.cwd)
    {
      beforeRuns := session.hooks.TriggerBeforeAgent(message, base, dumps);
      var loopEvents, final;
      loopEvents, final, afterRuns, turns, finished, run :=
        Answer(message, replies, compactReplies, clock, base, dumps, show, breaker, dangerous, safe);
      events := [Events.AgentStart(message)] + loopEvents + [Events.AgentEnd(final, None)];
      assert events[1..|events| - 1] == loopEvents;
    }
  }
}
