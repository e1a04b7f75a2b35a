/**
 * Conversation messages (core/context/models.py) and their wire form, the dict `to_dict` builds.
 * `datetime` values are abstract timestamps.
 */
module Messages {
  import opened Wrappers
  import Json

  type Timestamp = int

  /** A stored message; `tokenCount` and `prunedAt` are Python's optional fields. */
  datatype MessageItem = MessageItem(
    role: string,
    content: string,
    toolCallId: Option<string>,
    toolCalls: seq<Json.Value>,
    tokenCount: Option<nat>,
    prunedAt: Option<Timestamp>)

  /** `MessageItem(role=role)`: every other field at its default. */
  function Item(role: string): (m: MessageItem)
  {
    MessageItem(role, "", None, [], None, None)
  }

  /** Truthiness of an optional string: present and non-empty. */
  predicate Truthy(s: Option<string>)
  {
    s.Some? && s.value != ""
  }

  /**
   * `MessageItem.to_dict`: "role" always; "tool_call_id", "tool_calls" and "content" only when
   * truthy, so an empty content serialises without a "content" key.
   */
  function ToDict(m: MessageItem): (d: map<string, Json.Value>)
    ensures "role" in d && d["role"] == Json.Str(m.role)
    ensures d.Keys <= {"role", "tool_call_id", "tool_calls", "content"}
    ensures "tool_call_id" in d <==> Truthy(m.toolCallId)
    ensures "tool_call_id" in d ==> d["tool_call_id"] == Json.Str(m.toolCallId.value)
    ensures "tool_calls" in d <==> m.toolCalls != []
    ensures "tool_calls" in d ==> d["tool_calls"] == Json.Arr(m.toolCalls)
    ensures "content" in d <==> m.content != ""
    ensures "content" in d ==> d["content"] == Json.Str(m.content)
  {
    var withId := if Truthy(m.toolCallId) then map["tool_call_id" := Json.Str(m.toolCallId.value)] else map[];
    var withCalls := if m.toolCalls != [] then map["tool_calls" := Json.Arr(m.toolCalls)] else map[];
    var withContent := if m.content != "" then map["content" := Json.Str(m.content)] else map[];
    map["role" := Json.Str(m.role)] + withId + withCalls + withContent
  }

  /**
   * The wire form loses nothing a reader with defaults needs: `get("content", "")`,
   * `get("tool_calls", [])` and `get("role")` give back the stored values.
   */
  lemma WireFormReadsBack(m: MessageItem)
    ensures Json.Get(Json.Obj(ToDict(m)), "content", Json.Str("")) == Json.Str(m.content)
    ensures Json.Get(Json.Obj(ToDict(m)), "tool_calls", Json.Arr([])) == Json.Arr(m.toolCalls)
    ensures Json.Get(Json.Obj(ToDict(m)), "role", Json.Null) == Json.Str(m.role)
  {
  }
}
