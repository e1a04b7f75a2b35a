/**
 * Agent events (core/agent/events.py). Each classmethod constructor is a constructor of
 * `AgentEvent`; `Data` is the `data` dict the Python event carries and `Kind` its type value.
 * `FileDiff.to_diff` is the parameter `render`.
 */
module Events {
  import opened Wrappers
  import Json
  import LlmModels
  import ToolModels

  datatype AgentEvent =
    | AgentStart(message: string)
    | AgentEnd(response: Option<string>, usage: Option<LlmModels.TokenUsage>)
    | AgentError(error: string, details: Option<map<string, Json.Value>>)
    | TextDelta(content: string)
    | TextComplete(content: string)
    | ToolCallStart(callId: string, name: Option<string>, arguments: Json.Value)
    | ToolCallComplete(callId: string, name: Option<string>, result: ToolModels.ToolResult)

  /** The `AgentEventType` value. */
  function Kind(e: AgentEvent): string
  {
    match e
    case AgentStart(_) => "agent_start"
    case AgentEnd(_, _) => "agent_end"
    case AgentError(_, _) => "agent_error"
    case TextDelta(_) => "text_delta"
    case TextComplete(_) => "text_complete"
    case ToolCallStart(_, _, _) => "tool_call_start"
    case ToolCallComplete(_, _, _) => "tool_call_complete"
  }

  /** `TokenUsage.model_dump()`. */
  function UsageDump(u: LlmModels.TokenUsage): (d: map<string, Json.Value>)
    ensures d.Keys == {"prompt_tokens", "completion_tokens", "total_tokens", "cached_tokens"}
    ensures d["total_tokens"] == Json.Num(u.totalTokens)
  {
    map["prompt_tokens" := Json.Num(u.promptTokens), "completion_tokens" := Json.Num(u.completionTokens),
        "total_tokens" := Json.Num(u.totalTokens), "cached_tokens" := Json.Num(u.cachedTokens)]
  }

  function OptStr(s: Option<string>): Json.Value
  {
    match s
    case Some(v) => Json.Str(v)
    case None => Json.Null
  }

  function OptInt(n: Option<int>): Json.Value
  {
    match n
    case Some(v) => Json.Num(v)
    case None => Json.Null
  }

  /** The `data` dict each constructor builds. */
  function Data(e: AgentEvent, render: ToolModels.FileDiff -> string): (d: map<string, Json.Value>)
    ensures e.AgentStart? ==> d == map["message" := Json.Str(e.message)]
    ensures e.AgentEnd? ==> d.Keys == {"response", "usage"} && d["response"] == OptStr(e.response)
                            && (e.usage.None? <==> d["usage"] == Json.Null)
    ensures e.AgentError? ==> d.Keys == {"error", "details"} && d["error"] == Json.Str(e.error)
                              && (e.details.None? ==> d["details"] == Json.Obj(map[]))
    ensures e.TextDelta? || e.TextComplete? ==> d == map["content" := Json.Str(e.content)]
    ensures e.ToolCallStart? ==>
              d == map["call_id" := Json.Str(e.callId), "name" := OptStr(e.name), "arguments" := e.arguments]
    ensures e.ToolCallComplete? ==>
      d.Keys == {"call_id", "name", "success", "output", "error", "metadata", "diff", "truncated", "exit_code"}
      && d["success"] == Json.Bool(e.result.success) && d["output"] == Json.Str(e.result.output)
      && d["error"] == OptStr(e.result.error) && d["metadata"] == Json.Obj(e.result.metadata)
      && d["truncated"] == Json.Bool(e.result.truncated) && d["exit_code"] == OptInt(e.result.exitCode)
      && (d["diff"].Str? <==> e.result.diff.Some?)
  {
    match e
    case AgentStart(message) => map["message" := Json.Str(message)]
    case AgentEnd(response, usage) =>
      map["response" := OptStr(response),
          "usage" := if usage.Some? then Json.Obj(UsageDump(usage.value)) else Json.Null]
    case AgentError(error, details) =>
      map["error" := Json.Str(error), "details" := Json.Obj(details.GetOr(map[]))]
    case TextDelta(content) => map["content" := Json.Str(content)]
    case TextComplete(content) => map["content" := Json.Str(content)]
    case ToolCallStart(callId, name, arguments) =>
      map["call_id" := Json.Str(callId), "name" := OptStr(name), "arguments" := arguments]
    case ToolCallComplete(callId, name, r) =>
      map["call_id" := Json.Str(callId), "name" := OptStr(name), "success" := Json.Bool(r.success),
          "output" := Json.Str(r.output), "error" := OptStr(r.error), "metadata" := Json.Obj(r.metadata),
          "diff" := (if r.diff.Some? then Json.Str(render(r.diff.value)) else Json.Null),
          "truncated" := Json.Bool(r.truncated), "exit_code" := OptInt(r.exitCode)]
  }

  /** Reads the copied result fields back out of a `tool_call_complete` dict. */
  function ResultFields(d: map<string, Json.Value>): Option<(bool, string, Option<string>, bool, Option<int>)>
  {
    if "success" in d && d["success"].Bool? && "output" in d && d["output"].Str?
       && "error" in d && (d["error"].Str? || d["error"].Null?) && "truncated" in d && d["truncated"].Bool?
       && "exit_code" in d && (d["exit_code"].Num? || d["exit_code"].Null?)
    then Some((d["success"].b, d["output"].s, if d["error"].Str? then Some(d["error"].s) else None,
               d["truncated"].b, if d["exit_code"].Num? then Some(d["exit_code"].n) else None))
    else None
  }

  /** A `tool_call_complete` event loses none of the result's scalar fields. */
  lemma ToolCallCompleteKeepsResult(callId: string, name: Option<string>, r: ToolModels.ToolResult,
                                    render: ToolModels.FileDiff -> string)
    ensures ResultFields(Data(ToolCallComplete(callId, name, r), render)) == Some((r.success, r.output, r.error, r.truncated, r.exitCode))
  {
    var d := Data(ToolCallComplete(callId, name, r), render);
    assert d["error"] == OptStr(r.error);
    assert d["exit_code"] == OptInt(r.exitCode);
  }
}
