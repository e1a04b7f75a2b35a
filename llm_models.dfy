/**
 * The LLM-facing value types (core/llm/models.py): token accounting, stream events,
 * tool calls and their argument parsing. JSON decoding is a parameter `decode`,
 * returning `None` where `json.loads` raises `JSONDecodeError`.
 */
module LlmModels {
  import opened Wrappers
  import Json

  /** Token counts of one request; Pydantic's `ge=0` makes every field a `nat`. */
  datatype TokenUsage = TokenUsage(promptTokens: nat, completionTokens: nat, totalTokens: nat, cachedTokens: nat)

  /** `TokenUsage()`: every field defaults to 0. */
  const NoUsage := TokenUsage(0, 0, 0, 0)

  /** Every component of `a` is at least the matching component of `b`. */
  predicate Covers(a: TokenUsage, b: TokenUsage)
  {
    a.promptTokens >= b.promptTokens && a.completionTokens >= b.completionTokens
    && a.totalTokens >= b.totalTokens && a.cachedTokens >= b.cachedTokens
  }

  /** `TokenUsage.__add__`: component-wise sum. */
  function Add(a: TokenUsage, b: TokenUsage): (r: TokenUsage)
    ensures Covers(r, a) && Covers(r, b)
    ensures r.totalTokens - a.totalTokens == b.totalTokens
  {
    TokenUsage(a.promptTokens + b.promptTokens, a.completionTokens + b.completionTokens,
               a.totalTokens + b.totalTokens, a.cachedTokens + b.cachedTokens)
  }

  lemma AddCommutes(a: TokenUsage, b: TokenUsage)
    ensures Add(a, b) == Add(b, a)
  {
  }

  lemma AddAssociates(a: TokenUsage, b: TokenUsage, c: TokenUsage)
    ensures Add(Add(a, b), c) == Add(a, Add(b, c))
  {
  }

  lemma NoUsageIsIdentity(a: TokenUsage)
    ensures Add(a, NoUsage) == a && Add(NoUsage, a) == a
  {
  }

  /** Adding usages is cancellative: the same total reached from the same start means the same increment. */
  lemma AddCancels(a: TokenUsage, b: TokenUsage, c: TokenUsage)
    requires Add(a, b) == Add(a, c)
    ensures b == c
  {
  }

  /** A running total of a sequence of usages, added left to right as `add_usage` does. */
  function Sum(us: seq<TokenUsage>): TokenUsage
  {
    if us == [] then NoUsage else Add(Sum(us[..|us| - 1]), us[|us| - 1])
  }

  /** The running total covers every usage that went into it. */
  lemma {:induction false} SumCoversEach(us: seq<TokenUsage>, i: nat)
    requires i < |us|
    ensures Covers(Sum(us), us[i])
  {
    if i < |us| - 1 {
      SumCoversEach(us[..|us| - 1], i);
    }
  }

  datatype StreamEventType = TextDeltaEvent | MessageComplete | Error | ToolCallStart | ToolCallDeltaEvent | ToolCallComplete

  /** Python's `dict[str, Any] | str` argument payload, kept as a JSON value. */
  datatype ToolCall = ToolCall(callId: string, name: Option<string>, arguments: Json.Value)

  datatype ToolCallDelta = ToolCallDelta(callId: string, name: Option<string>, argumentsDelta: string)

  /** A streaming event: its type plus the optional payload fields of the Python model. */
  datatype StreamEvent = StreamEvent(
    kind: StreamEventType,
    textDelta: Option<string>,
    error: Option<string>,
    finishReason: Option<string>,
    toolCallDelta: Option<ToolCallDelta>,
    toolCall: Option<ToolCall>,
    usage: Option<TokenUsage>)

  function Event(kind: StreamEventType): StreamEvent
  {
    StreamEvent(kind, None, None, None, None, None, None)
  }

  /** `ToolCall.parse_arguments`: dicts pass through; a string is decoded, or kept when it does not decode. */
  function ParseArguments(v: Json.Value, decode: string -> Option<Json.Value>): (r: Json.Value)
    ensures v.Obj? ==> r == v
    ensures v.Str? && decode(v.s).None? ==> r == v
    ensures !v.Obj? && !v.Str? ==> r == v
    ensures r != v ==> v.Str? && decode(v.s) == Some(r)
  {
    match v
    case Str(s) => (match decode(s) case Some(d) => d case None => v)
    case _ => v
  }

  /**
   * The arguments `ToolCall(arguments=v)` stores: `parse_arguments`, then the `dict[str, Any] | str`
   * field type, whose ValidationError is None here.
   */
  function ToolCallArguments(v: Json.Value, decode: string -> Option<Json.Value>): (r: Option<Json.Value>)
    ensures v.Obj? ==> r == Some(v)
    ensures r.Some? ==> r.value == ParseArguments(v, decode) && (r.value.Obj? || r.value.Str?)
    ensures r.None? <==> (!v.Obj? && !v.Str?) || (v.Str? && decode(v.s).Some? && !decode(v.s).value.Obj? && !decode(v.s).value.Str?)
  {
    var w := ParseArguments(v, decode);
    if w.Obj? || w.Str? then Some(w) else None
  }

  datatype ToolResultMessage = ToolResultMessage(toolCallId: string, content: string, isError: bool)

  /** `ToolResultMessage.to_openai_message`: role, call id and content; `is_error` is not sent. */
  function ToOpenAiMessage(m: ToolResultMessage): (d: map<string, Json.Value>)
    ensures d.Keys == {"role", "tool_call_id", "content"}
    ensures d["role"] == Json.Str("tool")
    ensures d["tool_call_id"] == Json.Str(m.toolCallId) && d["content"] == Json.Str(m.content)
  {
    map["role" := Json.Str("tool"), "tool_call_id" := Json.Str(m.toolCallId), "content" := Json.Str(m.content)]
  }

  /** The payload `parse_tool_call_arguments` returns when decoding fails. */
  function RawArguments(s: string): Json.Value
  {
    Json.Obj(map["raw_arguments" := Json.Str(s)])
  }

  /** `parse_tool_call_arguments`: "" is `{}`, decodable text its value, anything else wrapped as raw. */
  function ParseToolCallArguments(s: string, decode: string -> Option<Json.Value>): (r: Json.Value)
    ensures s == "" ==> r == Json.Obj(map[])
    ensures s != "" && decode(s).Some? ==> r == decode(s).value
    ensures s != "" && decode(s).None? ==> r.Obj? && r.fields.Keys == {"raw_arguments"} && r.fields["raw_arguments"] == Json.Str(s)
  {
    if s == "" then Json.Obj(map[])
    else match decode(s)
      case Some(v) => v
      case None => RawArguments(s)
  }

  /** No input is lost: when decoding fails the original text can be read back out of the result. */
  lemma RawArgumentsRecoverInput(s: string, decode: string -> Option<Json.Value>)
    requires decode(s).None?
    ensures Json.Get(ParseToolCallArguments(s, decode), "raw_arguments", Json.Str("")) == Json.Str(s)
  {
  }
}
