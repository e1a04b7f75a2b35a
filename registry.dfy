/**
 * The tool registry and its invocation pipeline (core/tools/registry.py). Builtin and MCP tools
 * live in two insertion-ordered dicts, modelled as a map plus its key order. The hook system is
 * observed as the trace of `trigger_before_tool`/`trigger_after_tool` calls that `invoke` makes.
 */
module Registry {
  import opened Wrappers
  import Strings
  import Json
  import Paths
  import Config
  import ToolModels
  import ToolBase
  import Approval

  type Tool = ToolBase.Tool

  /** A call `invoke` makes on the hook system. */
  datatype ToolHook =
    | BeforeTool(name: string, params: ToolBase.Params)
    | AfterTool(name: string, params: ToolBase.Params, result: ToolModels.ToolResult)

  /** `d.values()` for a dict with the given key order. */
  function Listing(order: seq<string>, tools: map<string, Tool>): (r: seq<Tool>)
    requires forall n | n in order :: n in tools
    ensures |r| == |order|
    ensures forall i | 0 <= i < |r| :: r[i] == tools[order[i]]
  {
    seq(|order|, i requires 0 <= i < |order| => tools[order[i]])
  }

  /** The tools whose names are in `allowed`, in their order. */
  function Keep(ts: seq<Tool>, allowed: set<string>): (r: seq<Tool>)
    ensures |r| <= |ts|
    ensures forall i | 0 <= i < |r| :: r[i].name in allowed
  {
    if |ts| == 0 then []
    else Keep(ts[..|ts| - 1], allowed) + (if ts[|ts| - 1].name in allowed then [ts[|ts| - 1]] else [])
  }

  /** Nothing allowed is dropped: every tool whose name is allowed survives the filter, and order is kept across a concatenation. */
  lemma {:induction false} KeepSplits(a: seq<Tool>, b: seq<Tool>, allowed: set<string>)
    ensures Keep(a + b, allowed) == Keep(a, allowed) + Keep(b, allowed)
    decreases |b|
  {
    if |b| == 0 {
      assert a + b == a;
    } else {
      var b' := b[..|b| - 1];
      assert (a + b)[..|a + b| - 1] == a + b';
      assert (a + b)[|a + b| - 1] == b[|b| - 1];
      KeepSplits(a, b', allowed);
    }
  }

  /** Every tool on the list whose name is allowed is kept. */
  lemma {:induction false} KeepKeepsAllowed(ts: seq<Tool>, allowed: set<string>, i: int)
    requires 0 <= i < |ts| && ts[i].name in allowed
    ensures exists j | 0 <= j < |Keep(ts, allowed)| :: Keep(ts, allowed)[j] == ts[i]
    decreases |ts|
  {
    var last := |ts| - 1;
    if i == last {
      var k := Keep(ts, allowed);
      assert k[|k| - 1] == ts[i];
    } else {
      assert ts[..last][i] == ts[i];
      KeepKeepsAllowed(ts[..last], allowed, i);
      var j :| 0 <= j < |Keep(ts[..last], allowed)| && Keep(ts[..last], allowed)[j] == ts[i];
      assert Keep(ts, allowed)[j] == ts[i];
    }
  }

  /** `get`: a builtin wins over an MCP tool of the same name. */
  function Resolve(builtins: map<string, Tool>, mcp: map<string, Tool>, name: string): (r: Option<Tool>)
    ensures r.Some? <==> name in builtins || name in mcp
    ensures name in builtins ==> r == Some(builtins[name])
    ensures name !in builtins && name in mcp ==> r == Some(mcp[name])
  {
    if name in builtins then Some(builtins[name])
    else if name in mcp then Some(mcp[name])
    else None
  }

  /** Unregistering a builtin uncovers an MCP tool of the same name. */
  lemma UnregisterUncoversMcp(builtins: map<string, Tool>, mcp: map<string, Tool>, name: string)
    requires name in builtins && name in mcp
    ensures Resolve(builtins, mcp, name) == Some(builtins[name])
    ensures Resolve(builtins - {name}, mcp, name) == Some(mcp[name])
  {
  }

  const RejectedByPolicy := "Operation rejected by safety policy"
  const RejectedByUser := "User rejected the operation"

  /** Whether the safety gate lets the call through, and the message when it does not. */
  datatype Gate = Proceed | Refused(message: string)

  /** The context `invoke` builds from the tool's confirmation request. */
  function ContextFor(t: Tool, name: string, params: ToolBase.Params, c: ToolModels.ToolConfirmation): (ctx: Approval.ApprovalContext)
    ensures ctx.toolName == name && ctx.params == params && ctx.isMutating == t.mutating(params)
    ensures ctx.affectedPaths == c.affectedPaths && ctx.command == c.command && ctx.isDangerous == c.isDangerous
  {
    Approval.ApprovalContext(name, params, t.mutating(params), c.affectedPaths, c.command, c.isDangerous)
  }

  /** The confirmation request shown to the user, when the policy asks for one. */
  function Asked(t: Tool, name: string, params: ToolBase.Params, cwd: Paths.Path,
                 manager: Option<Approval.ApprovalManager>, dangerous: string -> bool, safe: string -> bool)
    : (q: Option<Approval.SafetyConfirmation>)
    ensures q.Some? ==> manager.Some?
    ensures q.Some? ==> Approval.CheckApproval(manager.value, q.value.context, dangerous, safe) == Approval.NeedsConfirmation
    ensures q.Some? ==> q.value.toolName == name && q.value.context.toolName == name && q.value.context.params == params
  {
    if manager.None? then None
    else match t.confirm(ToolModels.ToolInvocation(params, cwd))
      case None => None
      case Some(c) =>
        var ctx := ContextFor(t, name, params, c);
        if Approval.CheckApproval(manager.value, ctx, dangerous, safe) == Approval.NeedsConfirmation
        then Some(Approval.SafetyConfirmation(name, c.description, ctx))
        else None
  }

  /**
   * The approval step of `invoke`: consulted only with a manager and a confirmation request;
   * a rejection stops the call, and so does a declined confirmation.
   */
  function Screen(t: Tool, name: string, params: ToolBase.Params, cwd: Paths.Path,
                  manager: Option<Approval.ApprovalManager>, dangerous: string -> bool, safe: string -> bool): (g: Gate)
    ensures manager.None? ==> g == Proceed
    ensures manager.Some? && t.confirm(ToolModels.ToolInvocation(params, cwd)).None? ==> g == Proceed
    ensures g.Refused? ==> g.message == RejectedByPolicy || g.message == RejectedByUser
    ensures g == Refused(RejectedByUser) <==>
      var q := Asked(t, name, params, cwd, manager, dangerous, safe);
      q.Some? && !Approval.RequestConfirmation(manager.value, q.value)
  {
    if manager.None? then Proceed
    else match t.confirm(ToolModels.ToolInvocation(params, cwd))
      case None => Proceed
      case Some(c) =>
        var ctx := ContextFor(t, name, params, c);
        match Approval.CheckApproval(manager.value, ctx, dangerous, safe)
        case Rejected => Refused(RejectedByPolicy)
        case NeedsConfirmation =>
          if Approval.RequestConfirmation(manager.value, Approval.SafetyConfirmation(name, c.description, ctx))
          then Proceed else Refused(RejectedByUser)
        case Approved => Proceed
  }

  /** With no confirmation callback the user is never the one who refuses: asking fails open. */
  lemma NoCallbackFailsOpen(t: Tool, name: string, params: ToolBase.Params, cwd: Paths.Path,
                            manager: Option<Approval.ApprovalManager>, dangerous: string -> bool, safe: string -> bool)
    requires manager.Some? && manager.value.callback.None?
    ensures Screen(t, name, params, cwd, manager, dangerous, safe) != Refused(RejectedByUser)
  {
  }

  /** A tool that keeps the base behaviour and does not mutate passes the gate under every policy. */
  lemma ReadOnlyToolsPass(t: Tool, name: string, params: ToolBase.Params, cwd: Paths.Path,
                          manager: Option<Approval.ApprovalManager>, dangerous: string -> bool, safe: string -> bool)
    requires forall inv :: t.confirm(inv) == ToolBase.DefaultConfirmation(t.name, ToolBase.KindMutates(t.kind), inv)
    requires !ToolBase.KindMutates(t.kind)
    ensures Screen(t, name, params, cwd, manager, dangerous, safe) == Proceed
  {
    assert t.confirm(ToolModels.ToolInvocation(params, cwd)).None?;
  }

  /** The result of an unknown tool name. */
  function UnknownTool(name: string): (r: ToolModels.ToolResult)
    ensures !r.success && r.error == Some("Unknown tool: " + name) && r.metadata == map["tool_name" := Json.Str(name)]
  {
    ToolModels.ErrorResult("Unknown tool: " + name).(metadata := map["tool_name" := Json.Str(name)])
  }

  /** The result of parameters the schema refuses: every message, joined by "; ". */
  function InvalidParams(name: string, errors: seq<string>): (r: ToolModels.ToolResult)
    ensures !r.success && r.error == Some("Invalid parameters: " + Strings.Join("; ", errors))
    ensures r.metadata.Keys == {"tool_name", "validation_errors"} && r.metadata["tool_name"] == Json.Str(name)
  {
    var listed := Json.Arr(seq(|errors|, i requires 0 <= i < |errors| => Json.Str(errors[i])));
    ToolModels.ErrorResult("Invalid parameters: " + Strings.Join("; ", errors))
      .(metadata := map["tool_name" := Json.Str(name), "validation_errors" := listed])
  }

  /** What `execute` produced, with an escaped exception turned into an "Internal error" result. */
  function Executed(name: string, outcome: Result<ToolModels.ToolResult, string>): (r: ToolModels.ToolResult)
    ensures outcome.Ok? ==> r == outcome.value
    ensures outcome.Err? ==> !r.success && r.error == Some("Internal error: " + outcome.error)
                             && r.metadata == map["tool_name" := Json.Str(name)]
  {
    match outcome
    case Ok(result) => result
    case Err(text) => ToolModels.ErrorResult("Internal error: " + text).(metadata := map["tool_name" := Json.Str(name)])
  }

  /** The result `invoke` returns for the tool the name resolved to, as a value. */
  function Outcome(found: Option<Tool>, name: string, params: ToolBase.Params, cwd: Paths.Path,
                   manager: Option<Approval.ApprovalManager>, dangerous: string -> bool, safe: string -> bool)
    : (r: ToolModels.ToolResult)
    ensures found.None? ==> r == UnknownTool(name)
    ensures r.success ==>
      found.Some? && ToolBase.ValidateParams(found.value.schema, params) == []
      && Screen(found.value, name, params, cwd, manager, dangerous, safe) == Proceed
      && found.value.execute(ToolModels.ToolInvocation(params, cwd)) == Ok(r)
  {
    if found.None? then UnknownTool(name)
    else
      var errors := ToolBase.ValidateParams(found.value.schema, params);
      if errors != [] then InvalidParams(name, errors)
      else match Screen(found.value, name, params, cwd, manager, dangerous, safe)
        case Refused(message) => ToolModels.ErrorResult(message)
        case Proceed => Executed(name, found.value.execute(ToolModels.ToolInvocation(params, cwd)))
  }

  /** The hooks `invoke` runs: the before-hook only once the parameters validated, the after-hook always. */
  function Trace(found: Option<Tool>, name: string, params: ToolBase.Params, result: ToolModels.ToolResult): (hs: seq<ToolHook>)
    ensures 1 <= |hs| <= 2 && hs[|hs| - 1] == AfterTool(name, params, result)
    ensures |hs| == 2 <==> found.Some? && ToolBase.ValidateParams(found.value.schema, params) == []
  {
    if found.Some? && ToolBase.ValidateParams(found.value.schema, params) == [] then [BeforeTool(name, params), AfterTool(name, params, result)]
    else [AfterTool(name, params, result)]
  }

  /** `ToolRegistry`: the builtin and MCP dicts and the configuration it filters by. */
  class ToolRegistry {
    const config: Config.Configuration
    var tools: map<string, Tool>
    var toolOrder: seq<string>
    var mcpTools: map<string, Tool>
    var mcpOrder: seq<string>

    /** Each key order lists its dict's keys once each. */
    predicate Valid()
      reads this
    {
      Strings.Distinct(toolOrder) && (forall n | n in toolOrder :: n in tools) && (forall n | n in tools :: n in toolOrder)
      && Strings.Distinct(mcpOrder) && (forall n | n in mcpOrder :: n in mcpTools) && (forall n | n in mcpTools :: n in mcpOrder)
    }

    constructor (config: Config.Configuration)
      ensures Valid() && this.config == config
      ensures tools == map[] && toolOrder == [] && mcpTools == map[] && mcpOrder == []
    {
      this.config := config;
      tools := map[];
      toolOrder := [];
      mcpTools := map[];
      mcpOrder := [];
    }

    /** `register`: stored under its name; a builtin of that name is overwritten in place. */
    method Register(t: Tool)
      requires Valid()
      modifies this`tools, this`toolOrder
      ensures Valid()
      ensures tools == old(tools)[t.name := t]
      ensures toolOrder == if t.name in old(tools) then old(toolOrder) else old(toolOrder) + [t.name]
    {
      if t.name !in tools {
        toolOrder := toolOrder + [t.name];
      }
      tools := tools[t.name := t];
    }

    /** `register_mcp_tool`: the same, in the MCP dict. */
    method RegisterMcp(t: Tool)
      requires Valid()
      modifies this`mcpTools, this`mcpOrder
      ensures Valid()
      ensures mcpTools == old(mcpTools)[t.name := t]
      ensures mcpOrder == if t.name in old(mcpTools) then old(mcpOrder) else old(mcpOrder) + [t.name]
    {
      if t.name !in mcpTools {
        mcpOrder := mcpOrder + [t.name];
      }
      mcpTools := mcpTools[t.name := t];
    }

    /** `unregister`: removes a builtin only, and says whether there was one. */
    method Unregister(name: string) returns (removed: bool)
      requires Valid()
      modifies this`tools, this`toolOrder
      ensures Valid()
      ensures removed <==> name in old(tools)
      ensures tools == old(tools) - {name} && toolOrder == Strings.Without(old(toolOrder), name)
    {
      removed := name in tools;
      tools := tools - {name};
      toolOrder := Strings.Without(toolOrder, name);
    }

    /** `get`. */
    function Get(name: string): (r: Option<Tool>)
      reads this
      ensures r == Resolve(tools, mcpTools, name)
    {
      if name in tools then Some(tools[name])
      else if name in mcpTools then Some(mcpTools[name])
      else None
    }

    /** The allow-list in force: only a non-empty `allowed_tools` filters. */
    function AllowList(): Option<set<string>>
      reads this, config
    {
      if config.allowedTools.Some? && config.allowedTools.value != [] then
        Some(set n | n in config.allowedTools.value)
      else None
    }

    /** What `get_tools` lists: builtins in registration order, then MCP tools, then the allow-list filter. */
    function Available(): (r: seq<Tool>)
      requires Valid()
      reads this, config
    {
      var all := Listing(toolOrder, tools) + Listing(mcpOrder, mcpTools);
      if AllowList().Some? then Keep(all, AllowList().value) else all
    }

    /**
     * Under an allow-list the builtins that survive still come before the MCP tools that survive,
     * and every listed tool is allowed.
     */
    lemma AvailableOrder()
      requires Valid() && AllowList().Some?
      ensures Available() == Keep(Listing(toolOrder, tools), AllowList().value) + Keep(Listing(mcpOrder, mcpTools), AllowList().value)
      ensures forall i | 0 <= i < |Available()| :: Available()[i].name in AllowList().value
    {
      KeepSplits(Listing(toolOrder, tools), Listing(mcpOrder, mcpTools), AllowList().value);
    }

    /** `get_tools`. */
    method GetTools() returns (out: seq<Tool>)
      requires Valid()
      ensures out == Available()
    {
      var all: seq<Tool> := [];
      var i := 0;
      while i < |toolOrder|
        invariant 0 <= i <= |toolOrder|
        invariant all == Listing(toolOrder[..i], tools)
      {
        all := all + [tools[toolOrder[i]]];
        i := i + 1;
      }
      assert toolOrder[..i] == toolOrder;
      var builtins := all;
      var j := 0;
      while j < |mcpOrder|
        invariant 0 <= j <= |mcpOrder|
        invariant all == builtins + Listing(mcpOrder[..j], mcpTools)
      {
        all := all + [mcpTools[mcpOrder[j]]];
        j := j + 1;
      }
      assert mcpOrder[..j] == mcpOrder;
      out := all;
      if config.allowedTools.Some? && config.allowedTools.value != [] {
        var allowedSet := set n | n in config.allowedTools.value;
        out := [];
        var k := 0;
        while k < |all|
          invariant 0 <= k <= |all|
          invariant out == Keep(all[..k], allowedSet)
        {
          assert all[..k + 1][..k] == all[..k];
          if all[k].name in allowedSet {
            out := out + [all[k]];
          }
          k := k + 1;
        }
        assert all[..k] == all;
      }
    }

    /**
     * `invoke`: lookup, validation, before-hook, approval, execution, after-hook. `asked` is the
     * confirmation request put to the user, if any; `executed` says whether `execute` ran.
     */
    method Invoke(name: string, params: ToolBase.Params, cwd: Paths.Path, manager: Option<Approval.ApprovalManager>,
                  dangerous: string -> bool, safe: string -> bool)
      returns (result: ToolModels.ToolResult, hooks: seq<ToolHook>, asked: Option<Approval.SafetyConfirmation>, executed: bool)
      ensures 1 <= |hooks| <= 2 && hooks[|hooks| - 1] == AfterTool(name, params, result)
      ensures |hooks| == 2 ==> hooks[0] == BeforeTool(name, params)
      ensures Get(name).None? ==> result == UnknownTool(name) && hooks == [AfterTool(name, params, result)] && !executed && asked.None?
      ensures Get(name).Some? && ToolBase.ValidateParams(Get(name).value.schema, params) != [] ==>
        result == InvalidParams(name, ToolBase.ValidateParams(Get(name).value.schema, params))
        && |hooks| == 1 && !executed && asked.None?
      ensures Get(name).Some? && ToolBase.ValidateParams(Get(name).value.schema, params) == [] ==>
        |hooks| == 2
        && asked == Asked(Get(name).value, name, params, cwd, manager, dangerous, safe)
        && (executed <==> Screen(Get(name).value, name, params, cwd, manager, dangerous, safe) == Proceed)
        && (!executed ==> result == ToolModels.ErrorResult(Screen(Get(name).value, name, params, cwd, manager, dangerous, safe).message))
      ensures executed ==> result == Executed(name, Get(name).value.execute(ToolModels.ToolInvocation(params, cwd)))
      ensures result == Outcome(Get(name), name, params, cwd, manager, dangerous, safe)
      ensures hooks == Trace(Get(name), name, params, result)
    {
      var found := Get(name);
      asked := None;
      executed := false;
      if found.None? {
        result := UnknownTool(name);
        hooks := [AfterTool(name, params, result)];
        return;
      }
      var t := found.value;
      var errors := ToolBase.ValidateParams(t.schema, params);
      if errors != [] {
        result := InvalidParams(name, errors);
        hooks := [AfterTool(name, params, result)];
        return;
      }
      hooks := [BeforeTool(name, params)];
      var invocation := ToolModels.ToolInvocation(params, cwd);
      if manager.Some? {
        var confirmation := t.confirm(invocation);
        if confirmation.Some? {
          var c := confirmation.value;
          var context := ContextFor(t, name, params, c);
          var decision := Approval.CheckApproval(manager.value, context, dangerous, safe);
          if decision == Approval.Rejected {
            result := ToolModels.ErrorResult(RejectedByPolicy);
            hooks := hooks + [AfterTool(name, params, result)];
            return;
          } else if decision == Approval.NeedsConfirmation {
            var request := Approval.SafetyConfirmation(name, c.description, context);
            asked := Some(request);
            var approved := Approval.RequestConfirmation(manager.value, request);
            if !approved {
              result := ToolModels.ErrorResult(RejectedByUser);
              hooks := hooks + [AfterTool(name, params, result)];
              return;
            }
          }
        }
      }
      result := Executed(name, t.execute(invocation));
      executed := true;
      hooks := hooks + [AfterTool(name, params, result)];
    }
  }
}
