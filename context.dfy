/**
 * The context store (core/context/manager.py): the conversation's message list, token
 * accounting, the compaction trigger, replacement by a summary, and pruning of old tool output.
 * The tokenizer is the parameter `count`; the system prompt comes from a prompt builder that
 * is not part of this model, so it is a constructor argument.
 */
module Context {
  import opened Wrappers
  import Json
  import opened Messages
  import LlmModels

  /** `PRUNE_PROTECT_TOKENS`: the newest tool output up to this many tokens is never pruned. */
  const ProtectTokens: nat := 40000
  /** `PRUNE_MINIMUM_TOKENS`: pruning happens only when it frees at least this many tokens. */
  const MinimumTokens: nat := 20000

  const ClearedContent := "[Old tool result content cleared]"

  const ContinuationHead :=
    "# Context Restoration (Previous Session Compacted)\n\n"
    + "The previous conversation was compacted due to context length limits. Below is a detailed summary of the work done so far. \n\n"
    + "**CRITICAL: Actions listed under \"COMPLETED ACTIONS\" are already done. DO NOT repeat them.**\n\n"
    + "---\n\n"
  const ContinuationTail :=
    "\n\n---\n\n"
    + "Resume work from where we left off. Focus ONLY on the remaining tasks."
  const AckContent :=
    "I've reviewed the context from the previous session. I understand:\n"
    + "- The original goal and what was requested\n"
    + "- Which actions are ALREADY COMPLETED (I will NOT repeat these)\n"
    + "- The current state of the project\n"
    + "- What still needs to be done\n\n"
    + "I'll continue with the REMAINING tasks only, starting from where we left off."
  const ContinueContent :=
    "Continue with the REMAINING work only. Do NOT repeat any completed actions. "
    + "Proceed with the next step as described in the context above."

  function UserItem(content: string, count: string -> nat): MessageItem
  {
    Item("user").(content := content, tokenCount := Some(count(content)))
  }

  /** `add_assistant_message`: `None` content is stored as "" and `None` tool calls as []. */
  function AssistantItem(content: Option<string>, toolCalls: Option<seq<Json.Value>>, count: string -> nat): (m: MessageItem)
    ensures m.role == "assistant" && m.content == content.GetOr("") && m.toolCalls == toolCalls.GetOr([])
    ensures m.tokenCount == Some(count(m.content)) && m.toolCallId == None && m.prunedAt == None
  {
    var text := content.GetOr("");
    Item("assistant").(content := text, tokenCount := Some(count(text)), toolCalls := toolCalls.GetOr([]))
  }

  function ToolItem(toolCallId: string, content: string, count: string -> nat): MessageItem
  {
    Item("tool").(content := content, toolCallId := Some(toolCallId), tokenCount := Some(count(content)))
  }

  /** The first message after compaction: the summary inside a fixed frame. */
  function ContinuationContent(summary: string): (s: string)
    ensures |s| == |ContinuationHead| + |summary| + |ContinuationTail|
    ensures s[..|ContinuationHead|] == ContinuationHead
    ensures s[|ContinuationHead|..|ContinuationHead| + |summary|] == summary
  {
    ContinuationHead + summary + ContinuationTail
  }

  /** The three messages `replace_with_summary` leaves behind. */
  function SummaryMessages(summary: string, count: string -> nat): (ms: seq<MessageItem>)
    ensures |ms| == 3
    ensures ms[0].role == "user" && ms[1].role == "assistant" && ms[2].role == "user"
    ensures ms[0].content == ContinuationContent(summary)
    ensures forall i | 0 <= i < 3 :: ms[i].tokenCount == Some(count(ms[i].content)) && ms[i].prunedAt == None
  {
    [UserItem(ContinuationContent(summary), count),
     Item("assistant").(content := AckContent, tokenCount := Some(count(AckContent))),
     UserItem(ContinueContent, count)]
  }

  function CountUsers(ms: seq<MessageItem>): (n: nat)
    ensures n <= |ms|
  {
    if ms == [] then 0 else CountUsers(ms[..|ms| - 1]) + (if ms[|ms| - 1].role == "user" then 1 else 0)
  }

  /** `msg.role == "tool" and msg.tool_call_id`. */
  predicate IsToolResult(m: MessageItem)
  {
    m.role == "tool" && Truthy(m.toolCallId)
  }

  /** `msg.token_count or count(msg.content)`: a cached count of 0 is recounted. */
  function TokensOf(m: MessageItem, count: string -> nat): nat
  {
    if m.tokenCount.Some? && m.tokenCount.value != 0 then m.tokenCount.value else count(m.content)
  }

  /**
   * The newest-first scan of `prune_tool_outputs` over `ms`, starting from running total `total`:
   * the indices that become candidates (newest first) and the tokens they free. It visits tool
   * results only, stops at the first already-pruned one, and makes candidates of every one
   * visited once the running total exceeds `ProtectTokens`.
   */
  function Scan(ms: seq<MessageItem>, count: string -> nat, total: nat): (r: (seq<nat>, nat))
    ensures r.0 == [] ==> r.1 == 0
    decreases |ms|
  {
    if ms == [] then ([], 0)
    else
      var m := ms[|ms| - 1];
      var rest := ms[..|ms| - 1];
      if IsToolResult(m) then
        if m.prunedAt.Some? then ([], 0)
        else
          var t := TokensOf(m, count);
          var r := Scan(rest, count, total + t);
          if total + t > ProtectTokens then ([|ms| - 1] + r.0, t + r.1) else r
      else Scan(rest, count, total)
  }

  /** Every candidate is an unpruned tool result of `ms`, and the candidates run newest first. */
  lemma {:induction false} ScanCandidatesValid(ms: seq<MessageItem>, count: string -> nat, total: nat)
    ensures forall j | 0 <= j < |Scan(ms, count, total).0| :: Scan(ms, count, total).0[j] < |ms|
    ensures forall j | 0 <= j < |Scan(ms, count, total).0| ::
              IsToolResult(ms[Scan(ms, count, total).0[j]]) && ms[Scan(ms, count, total).0[j]].prunedAt == None
    ensures forall j, k | 0 <= j < k < |Scan(ms, count, total).0| :: Scan(ms, count, total).0[j] > Scan(ms, count, total).0[k]
    decreases |ms|
  {
    if ms != [] {
      var m := ms[|ms| - 1];
      var rest := ms[..|ms| - 1];
      if IsToolResult(m) && m.prunedAt.None? {
        var t := TokensOf(m, count);
        ScanCandidatesValid(rest, count, total + t);
        var c := Scan(rest, count, total + t).0;
        forall j | 0 <= j < |c|
          ensures c[j] < |rest| && ms[c[j]] == rest[c[j]]
        {
        }
      } else if !IsToolResult(m) {
        ScanCandidatesValid(rest, count, total);
        var c := Scan(rest, count, total).0;
        forall j | 0 <= j < |c|
          ensures c[j] < |rest| && ms[c[j]] == rest[c[j]]
        {
        }
      }
    }
  }

  /** A candidate after pruning: content replaced, count recomputed, stamped with the time. */
  function Redact(m: MessageItem, count: string -> nat, now: Timestamp): (r: MessageItem)
    ensures r.role == m.role && r.toolCallId == m.toolCallId && r.toolCalls == m.toolCalls
    ensures r.content == ClearedContent && r.tokenCount == Some(count(ClearedContent)) && r.prunedAt == Some(now)
  {
    m.(content := ClearedContent, tokenCount := Some(count(ClearedContent)), prunedAt := Some(now))
  }

  /** `ms` with every message whose index is in `cands` redacted. */
  function RedactAt(ms: seq<MessageItem>, cands: seq<nat>, count: string -> nat, now: Timestamp): seq<MessageItem>
  {
    seq(|ms|, i requires 0 <= i < |ms| => if i in cands then Redact(ms[i], count, now) else ms[i])
  }

  lemma RedactAtIndex(ms: seq<MessageItem>, cands: seq<nat>, count: string -> nat, now: Timestamp, i: nat)
    requires i < |ms|
    ensures |RedactAt(ms, cands, count, now)| == |ms|
    ensures RedactAt(ms, cands, count, now)[i] == if i in cands then Redact(ms[i], count, now) else ms[i]
  {
  }

  /** Redacting one more index updates just that message. */
  lemma RedactAtStep(ms: seq<MessageItem>, cands: seq<nat>, c: nat, count: string -> nat, now: Timestamp)
    requires c < |ms|
    ensures RedactAt(ms, cands + [c], count, now) == RedactAt(ms, cands, count, now)[c := Redact(ms[c], count, now)]
  {
  }

  /**
   * `prune_tool_outputs` as a function of the message list: the new list and the returned count.
   * Nothing changes with fewer than two user messages or when the candidates free fewer than
   * `MinimumTokens` tokens.
   */
  function Pruned(ms: seq<MessageItem>, count: string -> nat, now: Timestamp): (r: (seq<MessageItem>, nat))
    ensures |r.0| == |ms|
    ensures r.1 == 0 ==> r.0 == ms
    ensures CountUsers(ms) < 2 ==> r == (ms, 0)
  {
    if CountUsers(ms) < 2 then (ms, 0)
    else
      var s := Scan(ms, count, 0);
      if s.1 < MinimumTokens then (ms, 0)
      else (RedactAt(ms, s.0, count, now), |s.0|)
  }

  /**
   * Message `i` through pruning: it keeps its role and its call links, and if it changed at all
   * it was an unpruned tool result and is now its redacted form.
   */
  lemma PrunedAt(ms: seq<MessageItem>, count: string -> nat, now: Timestamp, i: nat)
    requires i < |ms|
    ensures var m := Pruned(ms, count, now).0[i];
            && m.role == ms[i].role && m.toolCallId == ms[i].toolCallId && m.toolCalls == ms[i].toolCalls
            && (m != ms[i] ==> IsToolResult(ms[i]) && ms[i].prunedAt == None && m == Redact(ms[i], count, now))
  {
    if CountUsers(ms) >= 2 {
      var s := Scan(ms, count, 0);
      if s.1 >= MinimumTokens {
        RedactAtIndex(ms, s.0, count, now, i);
        ScanCandidatesValid(ms, count, 0);
      }
    }
  }

  /** Pruning keeps every role and call link and only ever redacts unpruned tool results. */
  lemma PruneEffect(ms: seq<MessageItem>, count: string -> nat, now: Timestamp)
    ensures var r := Pruned(ms, count, now).0;
            forall i | 0 <= i < |ms| ::
              r[i].role == ms[i].role && r[i].toolCallId == ms[i].toolCallId && r[i].toolCalls == ms[i].toolCalls
    ensures var r := Pruned(ms, count, now).0;
            forall i | 0 <= i < |ms| && r[i] != ms[i] ::
              IsToolResult(ms[i]) && ms[i].prunedAt == None && r[i] == Redact(ms[i], count, now)
  {
    forall i | 0 <= i < |ms|
      ensures var r := Pruned(ms, count, now).0;
              && r[i].role == ms[i].role && r[i].toolCallId == ms[i].toolCallId && r[i].toolCalls == ms[i].toolCalls
              && (r[i] != ms[i] ==> IsToolResult(ms[i]) && ms[i].prunedAt == None && r[i] == Redact(ms[i], count, now))
    {
      PrunedAt(ms, count, now, i);
    }
  }

  lemma {:induction false} CountUsersSameRoles(ms: seq<MessageItem>, ns: seq<MessageItem>)
    requires |ms| == |ns| && forall i | 0 <= i < |ms| :: ms[i].role == ns[i].role
    ensures CountUsers(ms) == CountUsers(ns)
  {
    if ms != [] {
      CountUsersSameRoles(ms[..|ms| - 1], ns[..|ns| - 1]);
    }
  }

  /** `ns` is `ms` with exactly the messages at `cands` redacted. */
  predicate RedactedFrom(ns: seq<MessageItem>, ms: seq<MessageItem>, cands: seq<nat>, count: string -> nat, now: Timestamp)
  {
    |ns| == |ms| && forall i | 0 <= i < |ms| :: ns[i] == if i in cands then Redact(ms[i], count, now) else ms[i]
  }

  /** Dropping the newest message keeps the redaction relation when that message is no candidate. */
  lemma RedactedPrefix(ns: seq<MessageItem>, ms: seq<MessageItem>, cands: seq<nat>, count: string -> nat, now: Timestamp)
    requires ms != [] && RedactedFrom(ns, ms, cands, count, now) && |ms| - 1 !in cands
    ensures ns[|ms| - 1] == ms[|ms| - 1]
    ensures RedactedFrom(ns[..|ms| - 1], ms[..|ms| - 1], cands, count, now)
  {
  }

  /**
   * The key step of idempotence: after the candidates of a scan are redacted, scanning again
   * from the same running total frees nothing. The protected messages are met unchanged and,
   * if there was any candidate, the newest one now carries `prunedAt` and stops the scan.
   */
  lemma {:induction false} RescanFreesNothing(ms: seq<MessageItem>, ns: seq<MessageItem>, count: string -> nat,
                                              now: Timestamp, total: nat)
    requires RedactedFrom(ns, ms, Scan(ms, count, total).0, count, now)
    ensures Scan(ns, count, total).1 == 0
    decreases |ms|
  {
    if ms != [] {
      var k := |ms| - 1;
      var m := ms[k];
      var rest := ms[..k];
      var cands := Scan(ms, count, total).0;
      if IsToolResult(m) && m.prunedAt == None && total + TokensOf(m, count) > ProtectTokens {
        assert k in cands;
        assert ns[k] == Redact(m, count, now);
      } else if IsToolResult(m) && m.prunedAt == None {
        var t := TokensOf(m, count);
        assert cands == Scan(rest, count, total + t).0;
        ScanCandidatesValid(rest, count, total + t);
        RedactedPrefix(ns, ms, cands, count, now);
        RescanFreesNothing(rest, ns[..k], count, now, total + t);
      } else if IsToolResult(m) {
        assert cands == [];
        RedactedPrefix(ns, ms, cands, count, now);
      } else {
        assert cands == Scan(rest, count, total).0;
        ScanCandidatesValid(rest, count, total);
        RedactedPrefix(ns, ms, cands, count, now);
        RescanFreesNothing(rest, ns[..k], count, now, total);
      }
    }
  }

  /** Pruning twice with no new messages: the second call returns 0 and changes nothing. */
  lemma PruneIdempotent(ms: seq<MessageItem>, count: string -> nat, now: Timestamp, later: Timestamp)
    ensures var once := Pruned(ms, count, now).0;
            Pruned(once, count, later) == (once, 0)
  {
    var once := Pruned(ms, count, now).0;
    if CountUsers(ms) >= 2 {
      var s := Scan(ms, count, 0);
      if s.1 >= MinimumTokens {
        PruneEffect(ms, count, now);
        CountUsersSameRoles(ms, once);
        RescanFreesNothing(ms, once, count, now, 0);
      }
    }
  }

  function SystemEntry(prompt: string): map<string, Json.Value>
  {
    map["role" := Json.Str("system"), "content" := Json.Str(prompt)]
  }

  /** What `get_messages` sends: the system prompt first iff it is non-empty, then every message's wire form in order. */
  function WireMessages(prompt: string, ms: seq<MessageItem>): (out: seq<map<string, Json.Value>>)
    ensures var off := if prompt != "" then 1 else 0;
            |out| == off + |ms|
            && (prompt != "" ==> out[0] == SystemEntry(prompt))
            && forall i | 0 <= i < |ms| :: out[off + i] == ToDict(ms[i])
  {
    if ms == [] then (if prompt != "" then [SystemEntry(prompt)] else [])
    else WireMessages(prompt, ms[..|ms| - 1]) + [ToDict(ms[|ms| - 1])]
  }

  lemma WireMessagesStep(prompt: string, ms: seq<MessageItem>, i: nat)
    requires i < |ms|
    ensures WireMessages(prompt, ms[..i + 1]) == WireMessages(prompt, ms[..i]) + [ToDict(ms[i])]
  {
    assert ms[..i + 1][..i] == ms[..i];
  }

  /** The newest-first candidate loop of `prune_tool_outputs`. */
  method ScanCandidates(ms: seq<MessageItem>, count: string -> nat) returns (toPrune: seq<nat>, prunedTokens: nat)
    ensures (toPrune, prunedTokens) == Scan(ms, count, 0)
  {
    var total: nat := 0;
    prunedTokens := 0;
    toPrune := [];
    var i := |ms|;
    assert ms[..i] == ms;
    assert toPrune + Scan(ms, count, 0).0 == Scan(ms, count, 0).0;
    while i > 0
      invariant 0 <= i <= |ms|
      invariant Scan(ms, count, 0) == (toPrune + Scan(ms[..i], count, total).0, prunedTokens + Scan(ms[..i], count, total).1)
    {
      var m := ms[i - 1];
      assert ms[..i][..i - 1] == ms[..i - 1];
      if IsToolResult(m) {
        if m.prunedAt.Some? {
          assert toPrune + [] == toPrune;
          break;
        }
        var t := TokensOf(m, count);
        var r := Scan(ms[..i - 1], count, total + t);
        if total + t > ProtectTokens {
          assert Scan(ms[..i], count, total) == ([i - 1] + r.0, t + r.1);
          assert toPrune + ([i - 1] + r.0) == (toPrune + [i - 1]) + r.0;
          prunedTokens := prunedTokens + t;
          toPrune := toPrune + [i - 1];
        }
        total := total + t;
      }
      i := i - 1;
    }
    assert toPrune + [] == toPrune;
  }

  /** The rewrite loop of `prune_tool_outputs`: each candidate redacted in turn. */
  method RedactCandidates(ms: seq<MessageItem>, cands: seq<nat>, count: string -> nat, now: Timestamp)
    returns (out: seq<MessageItem>)
    requires forall j | 0 <= j < |cands| :: cands[j] < |ms|
    ensures out == RedactAt(ms, cands, count, now)
  {
    out := ms;
    assert ms == RedactAt(ms, cands[..0], count, now);
    var j := 0;
    while j < |cands|
      invariant 0 <= j <= |cands|
      invariant out == RedactAt(ms, cands[..j], count, now)
    {
      assert cands[..j + 1] == cands[..j] + [cands[j]];
      RedactAtStep(ms, cands[..j], cands[j], count, now);
      out := out[cands[j] := Redact(ms[cands[j]], count, now)];
      j := j + 1;
    }
    assert cands[..j] == cands;
  }

  /** The compression threshold: the request used more than 80% of the context window. */
  predicate NearlyFull(usage: LlmModels.TokenUsage, contextWindow: nat)
    ensures NearlyFull(usage, contextWindow) <==> (usage.totalTokens as real) > (contextWindow as real) * 0.8
  {
    5 * usage.totalTokens > 4 * contextWindow
  }

  class ContextManager {
    const systemPrompt: string
    /** `config.model.context_window`. */
    const contextWindow: nat
    const count: string -> nat
    var messages: seq<MessageItem>
    var latestUsage: LlmModels.TokenUsage
    var totalUsage: LlmModels.TokenUsage

    constructor (systemPrompt: string, contextWindow: nat, count: string -> nat)
      ensures this.systemPrompt == systemPrompt && this.contextWindow == contextWindow && this.count == count
      ensures messages == [] && latestUsage == LlmModels.NoUsage && totalUsage == LlmModels.NoUsage
    {
      this.systemPrompt := systemPrompt;
      this.contextWindow := contextWindow;
      this.count := count;
      messages := [];
      latestUsage := LlmModels.NoUsage;
      totalUsage := LlmModels.NoUsage;
    }

    /** `message_count`. */
    function MessageCount(): (n: nat)
      reads this
      ensures n == |messages|
    {
      |messages|
    }

    method AddUserMessage(content: string)
      modifies this`messages
      ensures messages == old(messages) + [UserItem(content, count)]
    {
      messages := messages + [UserItem(content, count)];
    }

    method AddAssistantMessage(content: Option<string>, toolCalls: Option<seq<Json.Value>>)
      modifies this`messages
      ensures messages == old(messages) + [AssistantItem(content, toolCalls, count)]
    {
      messages := messages + [AssistantItem(content, toolCalls, count)];
    }

    method AddToolResult(toolCallId: string, content: string)
      modifies this`messages
      ensures messages == old(messages) + [ToolItem(toolCallId, content, count)]
    {
      messages := messages + [ToolItem(toolCallId, content, count)];
    }

    /** `get_messages`. */
    method GetMessages() returns (out: seq<map<string, Json.Value>>)
      ensures out == WireMessages(systemPrompt, messages)
    {
      var ms := messages;
      out := [];
      if systemPrompt != "" {
        out := [SystemEntry(systemPrompt)];
      }
      var i := 0;
      while i < |ms|
        invariant 0 <= i <= |ms|
        invariant out == WireMessages(systemPrompt, ms[..i])
      {
        WireMessagesStep(systemPrompt, ms, i);
        out := out + [ToDict(ms[i])];
        i := i + 1;
      }
      assert ms[..i] == ms;
    }

    /** `needs_compression`: the latest request used more than 80% of the context window. */
    predicate NeedsCompression()
      reads this
    {
      NearlyFull(latestUsage, contextWindow)
    }

    method SetLatestUsage(usage: LlmModels.TokenUsage)
      modifies this`latestUsage
      ensures latestUsage == usage
    {
      latestUsage := usage;
    }

    method AddUsage(usage: LlmModels.TokenUsage)
      modifies this`totalUsage
      ensures totalUsage == LlmModels.Add(old(totalUsage), usage)
      ensures LlmModels.Covers(totalUsage, old(totalUsage))
    {
      totalUsage := LlmModels.Add(totalUsage, usage);
    }

    method ReplaceWithSummary(summary: string)
      modifies this`messages
      ensures messages == SummaryMessages(summary, count)
    {
      messages := [];
      messages := messages + [UserItem(ContinuationContent(summary), count)];
      messages := messages + [Item("assistant").(content := AckContent, tokenCount := Some(count(AckContent)))];
      messages := messages + [UserItem(ContinueContent, count)];
    }

    /** `prune_tool_outputs`, with `datetime.now()` passed in as `now`. */
    method PruneToolOutputs(now: Timestamp) returns (pruned: nat)
      modifies this`messages
      ensures (messages, pruned) == Pruned(old(messages), count, now)
    {
      var ms := messages;
      if CountUsers(ms) < 2 {
        return 0;
      }
      var toPrune, prunedTokens := ScanCandidates(ms, count);
      if prunedTokens < MinimumTokens {
        return 0;
      }
      ScanCandidatesValid(ms, count, 0);
      messages := RedactCandidates(ms, toPrune, count, now);
      pruned := |toPrune|;
    }

    method Clear()
      modifies this`messages
      ensures messages == []
    {
      messages := [];
    }
  }
}
