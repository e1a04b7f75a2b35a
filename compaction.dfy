/**
 * Conversation compaction (core/context/compaction.py): the transcript handed to the model and
 * the control flow of `compress`. The model's reply is the event sequence `events`; the
 * compression prompt itself belongs to a prompt builder that is not part of this model.
 */
module Compaction {
  import opened Wrappers
  import Json
  import Strings
  import LlmModels
  import Context

  type WireMessage = map<string, Json.Value>

  const Header := "Here is the conversation that needs to be continued:\n"
  const Separator := "\n\n---\n\n"

  const ToolLimit: nat := 2000
  const AssistantLimit: nat := 3000
  const UserLimit: nat := 1500
  const ArgumentsLimit: nat := 500

  const ToolMarker := "\n... [tool output truncated]"
  const AssistantMarker := "\n... [response truncated]"
  const UserMarker := "\n... [message truncated]"

  /** Text longer than `limit` keeps its first `limit` characters and gets `marker`; shorter text is kept whole. */
  function Truncated(content: string, limit: nat, marker: string): (r: string)
    ensures |content| <= limit ==> r == content
    ensures |content| > limit ==> |r| == limit + |marker| && r[..limit] == content[..limit] && r[limit..] == marker
  {
    if |content| > limit then content[..limit] + marker else content
  }

  /** A tool call's argument text, cut to 500 characters plus "..." when longer. */
  function CutArguments(args: string): (r: string)
    ensures |r| <= ArgumentsLimit + 3
    ensures |args| <= ArgumentsLimit ==> r == args
  {
    if |args| > ArgumentsLimit then args[..ArgumentsLimit] + "..." else args
  }

  /** `v.get(key, default)` on a value that should be a dict, read as a string. */
  function FieldStr(v: Json.Value, key: string, default: string): string
  {
    if v.Obj? then Json.GetStr(v.fields, key, default) else default
  }

  /** One entry of "Assistant called tools:", `  - name(args)`. */
  function ToolCallLine(tc: Json.Value): string
  {
    var func := Json.Get(tc, "function", Json.Obj(map[]));
    "  - " + FieldStr(func, "name", "unknown") + "(" + CutArguments(FieldStr(func, "arguments", "{}")) + ")"
  }

  function ToolCallsOf(msg: WireMessage): seq<Json.Value>
  {
    if "tool_calls" in msg && msg["tool_calls"].Arr? then msg["tool_calls"].items else []
  }

  function ToolCallLines(calls: seq<Json.Value>): (r: seq<string>)
    ensures |r| == |calls|
  {
    seq(|calls|, i requires 0 <= i < |calls| => ToolCallLine(calls[i]))
  }

  /**
   * The transcript sections one message contributes: none for "system"; one for "tool"; for
   * "assistant" one for non-empty content and one for a non-empty tool-call list; every other
   * role is rendered as "User".
   */
  function Sections(msg: WireMessage): (r: seq<string>)
    ensures Json.GetStr(msg, "role", "") == "system" ==> r == []
    ensures |r| <= 2
  {
    var role := Json.GetStr(msg, "role", "");
    var content := Json.GetStr(msg, "content", "");
    if role == "system" then []
    else if role == "tool" then
      ["[Tool Result (" + Json.GetStr(msg, "tool_call_id", "unknown") + ")]:\n" + Truncated(content, ToolLimit, ToolMarker)]
    else if role == "assistant" then
      var calls := ToolCallsOf(msg);
      (if content != "" then ["Assistant:\n" + Truncated(content, AssistantLimit, AssistantMarker)] else [])
      + (if calls != [] then ["Assistant called tools:\n" + Strings.Join("\n", ToolCallLines(calls))] else [])
    else ["User:\n" + Truncated(content, UserLimit, UserMarker)]
  }

  /** The sections of a message list, in message order. */
  function AllSections(ms: seq<WireMessage>): seq<string>
  {
    if ms == [] then [] else AllSections(ms[..|ms| - 1]) + Sections(ms[|ms| - 1])
  }

  /** `_format_history_for_compaction`, as a value: the header section, then every message's sections. */
  function Transcript(ms: seq<WireMessage>): (s: string)
    ensures |s| >= |Header| && s[..|Header|] == Header
  {
    Strings.Join(Separator, [Header] + AllSections(ms))
  }

  function NonSystem(ms: seq<WireMessage>): seq<WireMessage>
  {
    if ms == [] then []
    else NonSystem(ms[..|ms| - 1]) + (if Json.GetStr(ms[|ms| - 1], "role", "") == "system" then [] else [ms[|ms| - 1]])
  }

  /** System messages never reach the transcript: dropping them leaves it unchanged. */
  lemma {:induction false} SystemMessagesIgnored(ms: seq<WireMessage>)
    ensures Transcript(NonSystem(ms)) == Transcript(ms)
  {
    AllSectionsOfNonSystem(ms);
  }

  lemma {:induction false} AllSectionsOfNonSystem(ms: seq<WireMessage>)
    ensures AllSections(NonSystem(ms)) == AllSections(ms)
  {
    if ms != [] {
      var init := ms[..|ms| - 1];
      var last := ms[|ms| - 1];
      var kept := NonSystem(init);
      AllSectionsOfNonSystem(init);
      if Json.GetStr(last, "role", "") == "system" {
        assert NonSystem(ms) == kept + [];
        assert kept + [] == kept;
      } else {
        assert NonSystem(ms) == kept + [last];
        assert (kept + [last])[..|kept|] == kept;
      }
    }
  }

  /** The inner loop over an assistant message's tool calls. */
  method BuildToolDetails(calls: seq<Json.Value>) returns (details: seq<string>)
    ensures details == ToolCallLines(calls)
  {
    details := [];
    var i := 0;
    while i < |calls|
      invariant 0 <= i <= |calls|
      invariant details == ToolCallLines(calls[..i])
    {
      var func := Json.Get(calls[i], "function", Json.Obj(map[]));
      var name := FieldStr(func, "name", "unknown");
      var args := FieldStr(func, "arguments", "{}");
      if |args| > ArgumentsLimit {
        args := args[..ArgumentsLimit] + "...";
      }
      details := details + ["  - " + name + "(" + args + ")"];
      assert calls[..i + 1][..i] == calls[..i];
      i := i + 1;
    }
    assert calls[..i] == calls;
  }

  lemma AllSectionsStep(ms: seq<WireMessage>, i: nat)
    requires i < |ms|
    ensures AllSections(ms[..i + 1]) == AllSections(ms[..i]) + Sections(ms[i])
  {
    assert ms[..i + 1][..i] == ms[..i];
  }

  /** The loop body of `_format_history_for_compaction`: the sections one message adds. */
  method MessageSections(msg: WireMessage) returns (added: seq<string>)
    ensures added == Sections(msg)
  {
    var role := Json.GetStr(msg, "role", "");
    var content := Json.GetStr(msg, "content", "");
    added := [];
    if role == "system" {
    } else if role == "tool" {
      var toolId := Json.GetStr(msg, "tool_call_id", "unknown");
      added := ["[Tool Result (" + toolId + ")]:\n" + Truncated(content, ToolLimit, ToolMarker)];
    } else if role == "assistant" {
      if content != "" {
        added := ["Assistant:\n" + Truncated(content, AssistantLimit, AssistantMarker)];
      }
      var calls := ToolCallsOf(msg);
      if calls != [] {
        var details := BuildToolDetails(calls);
        added := added + ["Assistant called tools:\n" + Strings.Join("\n", details)];
      }
    } else {
      added := ["User:\n" + Truncated(content, UserLimit, UserMarker)];
    }
  }

  /** `_format_history_for_compaction`: a single pass appending each message's sections. */
  method FormatHistory(ms: seq<WireMessage>) returns (s: string)
    ensures s == Transcript(ms)
  {
    var sections := [];
    var i := 0;
    while i < |ms|
      invariant 0 <= i <= |ms|
      invariant sections == AllSections(ms[..i])
    {
      AllSectionsStep(ms, i);
      var added := MessageSections(ms[i]);
      sections := sections + added;
      i := i + 1;
    }
    assert ms[..i] == ms;
    s := Strings.Join(Separator, [Header] + sections);
  }

  /** What the reply stream leaves behind: the last summary text, the last completion's usage, and whether an error arrived. */
  datatype Reply = Reply(summary: string, usage: Option<LlmModels.TokenUsage>, failed: bool)

  /**
   * The `async for` over the reply events: each MESSAGE_COMPLETE sets the usage (possibly to
   * None) and, when it carries text, the summary; an ERROR ends consumption.
   */
  function ReadReply(events: seq<LlmModels.StreamEvent>): (r: Reply)
    ensures r.failed <==> exists i | 0 <= i < |events| :: events[i].kind == LlmModels.Error
  {
    if events == [] then Reply("", None, false)
    else
      assert forall i | 0 <= i < |events| - 1 :: events[..|events| - 1][i] == events[i];
      Absorb(ReadReply(events[..|events| - 1]), events[|events| - 1])
  }

  /** One event of the reply stream read on top of what came before it. */
  function Absorb(p: Reply, e: LlmModels.StreamEvent): (r: Reply)
    ensures r.failed <==> p.failed || e.kind == LlmModels.Error
  {
    if p.failed then p
    else if e.kind == LlmModels.MessageComplete then
      Reply(if e.textDelta.Some? then e.textDelta.value else p.summary, e.usage, false)
    else if e.kind == LlmModels.Error then Reply(p.summary, p.usage, true)
    else p
  }

  /** Reading one more event of a prefix. */
  lemma ReadReplyNext(events: seq<LlmModels.StreamEvent>, i: nat)
    requires i < |events|
    ensures ReadReply(events[..i + 1]) == Absorb(ReadReply(events[..i]), events[i])
  {
    assert events[..i + 1][..i] == events[..i];
  }

  /** `compress` for `count` context messages: a summary and a usage together, or neither. */
  function CompressResult(count: nat, events: seq<LlmModels.StreamEvent>): (r: (Option<string>, Option<LlmModels.TokenUsage>))
    ensures r.0.Some? <==> r.1.Some?
    ensures count < 3 ==> r == (None, None)
    ensures (exists i | 0 <= i < |events| :: events[i].kind == LlmModels.Error) ==> r == (None, None)
    ensures r.0.Some? ==> r.0.value != ""
  {
    if count < 3 then (None, None)
    else
      var reply := ReadReply(events);
      if reply.failed || reply.summary == "" || reply.usage.None? then (None, None)
      else (Some(reply.summary), reply.usage)
  }

  /**
   * `ChatCompactor.compress`: reads the context's messages and, when there are at least three,
   * formats the transcript sent to the model (`request`) and reads the reply `events`.
   */
  method Compress(cm: Context.ContextManager, events: seq<LlmModels.StreamEvent>)
    returns (request: Option<string>, summary: Option<string>, usage: Option<LlmModels.TokenUsage>)
    ensures var wire := Context.WireMessages(cm.systemPrompt, cm.messages);
            && (request.Some? <==> |wire| >= 3)
            && (request.Some? ==> request.value == Transcript(wire))
            && (summary, usage) == CompressResult(|wire|, events)
  {
    var messages := cm.GetMessages();
    if |messages| < 3 {
      return None, None, None;
    }
    var text := FormatHistory(messages);
    request := Some(text);
    var reply := ReadEvents(events);
    if reply.failed || reply.summary == "" || reply.usage.None? {
      return request, None, None;
    }
    summary, usage := Some(reply.summary), reply.usage;
  }

  /** The `async for event in ...` loop of `compress`, stopping at the first ERROR. */
  method ReadEvents(events: seq<LlmModels.StreamEvent>) returns (r: Reply)
    ensures r == ReadReply(events)
  {
    var s := "";
    var u: Option<LlmModels.TokenUsage> := None;
    var i := 0;
    while i < |events|
      invariant 0 <= i <= |events|
      invariant ReadReply(events[..i]) == Reply(s, u, false)
    {
      var e := events[i];
      ReadReplyNext(events, i);
      if e.kind == LlmModels.MessageComplete {
        u := e.usage;
        if e.textDelta.Some? {
          s := e.textDelta.value;
        }
      } else if e.kind == LlmModels.Error {
        ReadReplyStaysFailed(events, i + 1);
        return Reply(s, u, true);
      }
      i := i + 1;
    }
    assert events[..i] == events;
    r := Reply(s, u, false);
  }

  /** Once an error has been read, later events change nothing. */
  lemma {:induction false} ReadReplyStaysFailed(events: seq<LlmModels.StreamEvent>, n: nat)
    requires n <= |events| && ReadReply(events[..n]).failed
    ensures ReadReply(events) == ReadReply(events[..n])
    decreases |events|
  {
    if n < |events| {
      var init := events[..|events| - 1];
      assert init[..n] == events[..n];
      ReadReplyStaysFailed(init, n);
    } else {
      assert events[..n] == events;
    }
  }
}
