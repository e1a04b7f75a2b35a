/**
 * The session (core/agent/session.py): the registry with every default tool, the context
 * manager made by `initialize`, the loop detector, the hooks, the approval manager and the
 * turn counter. The uuid and the clock are constructor arguments; the system prompt that
 * `initialize` builds comes in ready-made, because core/prompts/builder.py is not part of this
 * model; MCP start-up and tool discovery are left out.
 */
module Sessions {
  import opened Wrappers
  import Json
  import Config
  import ToolModels
  import ToolBase
  import Registry
  import Context
  import LoopDetection
  import Hooks
  import Approval
  import Events

  type Tool = ToolBase.Tool

  /** A `SubagentDefinition`, as far as the registry sees it. */
  datatype SubagentDefinition = SubagentDefinition(name: string, description: string)

  const SubagentPrefix := "subagent_"

  /**
   * `SubagentTool(config, definition)`: named after the definition, of kind MEMORY, mutating for
   * every parameter set and so always asking for confirmation. Running the child agent is `run`.
   */
  function SubagentTool(d: SubagentDefinition, schema: ToolBase.Schema,
                        run: ToolModels.ToolInvocation -> Result<ToolModels.ToolResult, string>): (t: Tool)
    ensures t.name == SubagentPrefix + d.name && t.description == d.description && t.kind == ToolModels.Memory
    ensures forall p :: t.mutating(p)
    ensures forall inv :: t.confirm(inv).Some? && t.confirm(inv).value.description == "Execute " + t.name
  {
    var name := SubagentPrefix + d.name;
    ToolBase.Tool(name, d.description, ToolModels.Memory, schema,
                  p => true,
                  inv => ToolBase.DefaultConfirmation(name, true, inv),
                  run)
  }

  /** The tools `create_default_registry` registers, in order: the builtins, then one per subagent. */
  function DefaultTools(builtins: seq<Tool>, subagents: seq<SubagentDefinition>, schema: ToolBase.Schema,
                        run: SubagentDefinition -> ToolModels.ToolInvocation -> Result<ToolModels.ToolResult, string>)
    : (ts: seq<Tool>)
    ensures |ts| == |builtins| + |subagents|
    ensures ts[..|builtins|] == builtins
    ensures forall i | 0 <= i < |subagents| :: ts[|builtins| + i] == SubagentTool(subagents[i], schema, run(subagents[i]))
  {
    builtins + seq(|subagents|, i requires 0 <= i < |subagents| => SubagentTool(subagents[i], schema, run(subagents[i])))
  }

  /** The builtin dict after registering `ts` in order into `m`: a later tool of the same name replaces an earlier one. */
  function Registered(m: map<string, Tool>, ts: seq<Tool>): (r: map<string, Tool>)
    ensures forall n | n in m :: n in r
    ensures forall i | 0 <= i < |ts| :: ts[i].name in r
  {
    if |ts| == 0 then m
    else
      var t := ts[|ts| - 1];
      Registered(m, ts[..|ts| - 1])[t.name := t]
  }

  /** The last tool registered under a name is the one the dict holds. */
  lemma {:induction false} LastRegistrationWins(m: map<string, Tool>, ts: seq<Tool>, i: int)
    requires 0 <= i < |ts|
    requires forall j | i < j < |ts| :: ts[j].name != ts[i].name
    ensures Registered(m, ts)[ts[i].name] == ts[i]
  {
    if i < |ts| - 1 {
      var init := ts[..|ts| - 1];
      assert forall j | i < j < |init| :: init[j] == ts[j];
      LastRegistrationWins(m, init, i);
      assert init[i] == ts[i];
    }
  }

  /** A name no registered tool carries keeps what the dict held before. */
  lemma {:induction false} RegistrationLeavesOthers(m: map<string, Tool>, ts: seq<Tool>, n: string)
    requires forall j | 0 <= j < |ts| :: ts[j].name != n
    ensures n in Registered(m, ts) <==> n in m
    ensures n in m ==> Registered(m, ts)[n] == m[n]
  {
    if |ts| > 0 {
      var init := ts[..|ts| - 1];
      assert forall j | 0 <= j < |init| :: init[j] == ts[j];
      RegistrationLeavesOthers(m, init, n);
    }
  }

  /**
   * With distinct subagent names every subagent is reachable as "subagent_{name}": subagents
   * are registered after the builtins, so one replaces a builtin of the same name.
   */
  lemma SubagentsReachable(builtins: seq<Tool>, subagents: seq<SubagentDefinition>, schema: ToolBase.Schema,
                           run: SubagentDefinition -> ToolModels.ToolInvocation -> Result<ToolModels.ToolResult, string>, k: int)
    requires 0 <= k < |subagents|
    requires forall j | 0 <= j < |subagents| && j != k :: subagents[j].name != subagents[k].name
    ensures Registered(map[], DefaultTools(builtins, subagents, schema, run))[SubagentPrefix + subagents[k].name]
            == SubagentTool(subagents[k], schema, run(subagents[k]))
  {
    var ts := DefaultTools(builtins, subagents, schema, run);
    var i := |builtins| + k;
    forall j | i < j < |ts|
      ensures ts[j].name != ts[i].name
    {
      var jj := j - |builtins|;
      assert ts[j] == SubagentTool(subagents[jj], schema, run(subagents[jj]));
      assert subagents[jj].name != subagents[k].name;
      assert (SubagentPrefix + subagents[jj].name)[|SubagentPrefix|..] == subagents[jj].name;
      assert (SubagentPrefix + subagents[k].name)[|SubagentPrefix|..] == subagents[k].name;
    }
    LastRegistrationWins(map[], ts, i);
  }

  /** `create_default_registry`: a fresh registry holding the default tools and no MCP tool. */
  method CreateDefaultRegistry(config: Config.Configuration, builtins: seq<Tool>, subagents: seq<SubagentDefinition>,
                               schema: ToolBase.Schema,
                               run: SubagentDefinition -> ToolModels.ToolInvocation -> Result<ToolModels.ToolResult, string>)
    returns (registry: Registry.ToolRegistry)
    ensures fresh(registry) && registry.Valid() && registry.config == config
    ensures registry.tools == Registered(map[], DefaultTools(builtins, subagents, schema, run))
    ensures registry.mcpTools == map[] && registry.mcpOrder == []
  {
    registry := new Registry.ToolRegistry(config);
    var ts := DefaultTools(builtins, subagents, schema, run);
    RegisterAll(registry, ts);
  }

  /** The registration loop: each tool in order, into a registry with no builtin yet. */
  method RegisterAll(registry: Registry.ToolRegistry, ts: seq<Tool>)
    requires registry.Valid() && registry.tools == map[]
    modifies registry
    ensures registry.Valid()
    ensures registry.tools == Registered(map[], ts)
    ensures registry.mcpTools == old(registry.mcpTools) && registry.mcpOrder == old(registry.mcpOrder)
  {
    var i := 0;
    while i < |ts|
      invariant 0 <= i <= |ts|
      invariant registry.Valid()
      invariant registry.tools == Registered(map[], ts[..i])
      invariant registry.mcpTools == old(registry.mcpTools) && registry.mcpOrder == old(registry.mcpOrder)
    {
      var before := ts[..i + 1];
      assert before[..i] == ts[..i] && before[i] == ts[i];
      assert Registered(map[], before) == Registered(map[], ts[..i])[ts[i].name := ts[i]];
      registry.Register(ts[i]);
      i := i + 1;
    }
    assert ts[..i] == ts;
  }

  const StatsKeys := {"session_id", "created_at", "updated_at", "turn_count", "message_count",
                      "token_usage", "tools_count", "mcp_servers"}

  /** The dict `get_stats` returns, from the values it reports. */
  function StatsDict(sessionId: string, created: string, updated: string, turns: nat, messages: nat,
                     usage: map<string, Json.Value>, tools: nat, servers: nat): (d: map<string, Json.Value>)
    ensures d.Keys == StatsKeys
    ensures d["session_id"] == Json.Str(sessionId) && d["turn_count"] == Json.Num(turns)
    ensures d["message_count"] == Json.Num(messages) && d["token_usage"] == Json.Obj(usage)
    ensures d["tools_count"] == Json.Num(tools) && d["mcp_servers"] == Json.Num(servers)
  {
    map["session_id" := Json.Str(sessionId), "created_at" := Json.Str(created), "updated_at" := Json.Str(updated),
        "turn_count" := Json.Num(turns), "message_count" := Json.Num(messages), "token_usage" := Json.Obj(usage),
        "tools_count" := Json.Num(tools), "mcp_servers" := Json.Num(servers)]
  }

  class Session {
    const config: Config.Configuration
    const registry: Registry.ToolRegistry
    var context: Context.ContextManager?
    const detector: LoopDetection.LoopDetector
    const hooks: Hooks.HookSystem
    var approval: Approval.ApprovalManager
    const sessionId: string
    const createdAt: int
    var updatedAt: int
    var turnCount: nat

    /** The parts share the session's configuration; the registry's key orders and the detector's bound hold. */
    ghost predicate Valid()
      reads this, registry, detector, config
    {
      registry.Valid() && detector.Valid() && config.Valid()
      && registry.config == config && hooks.config == config
    }

    /**
     * `Session(config)`; `initialize` has not yet made the context manager. `created` and `updated`
     * are the two separate clock readings taken for `created_at` and `updated_at`.
     */
    constructor (config: Config.Configuration, builtins: seq<Tool>, subagents: seq<SubagentDefinition>,
                 schema: ToolBase.Schema,
                 run: SubagentDefinition -> ToolModels.ToolInvocation -> Result<ToolModels.ToolResult, string>,
                 sessionId: string, created: int, updated: int)
      requires config.Valid()
      ensures Valid() && this.config == config && this.sessionId == sessionId
      ensures fresh(registry) && fresh(detector) && fresh(hooks)
      ensures registry.tools == Registered(map[], DefaultTools(builtins, subagents, schema, run)) && registry.mcpTools == map[]
      ensures context == null && turnCount == 0 && createdAt == created && updatedAt == updated
      ensures detector.history == [] && detector.maxExactRepeats == 3 && detector.maxCycleLength == 3
      ensures hooks.hooks == if config.hooksEnabled then Hooks.Enabled(config.hooks) else []
      ensures approval == Approval.ApprovalManager(config.approval, config.cwd, None)
    {
      this.config := config;
      var r := CreateDefaultRegistry(config, builtins, subagents, schema, run);
      registry := r;
      context := null;
      approval := Approval.ApprovalManager(config.approval, config.cwd, None);
      detector := new LoopDetection.LoopDetector();
      hooks := new Hooks.HookSystem(config);
      this.sessionId := sessionId;
      createdAt := created;
      updatedAt := updated;
      turnCount := 0;
    }

    /** `initialize`: a fresh, empty context manager over the configured context window. */
    method Initialize(systemPrompt: string, count: string -> nat)
      requires Valid()
      modifies this`context
      ensures Valid()
      ensures context != null && fresh(context)
      ensures context.systemPrompt == systemPrompt && context.count == count
      ensures context.contextWindow == config.model.contextWindow && context.messages == []
    {
      context := new Context.ContextManager(systemPrompt, config.model.contextWindow, count);
    }

    /** `increment_turn`: one more turn, stamped with `now`. */
    method IncrementTurn(now: int) returns (n: nat)
      modifies this`turnCount, this`updatedAt
      ensures turnCount == old(turnCount) + 1 && n == turnCount && updatedAt == now
    {
      turnCount := turnCount + 1;
      updatedAt := now;
      n := turnCount;
    }

    /** The `get_stats` dict for the current state, with `isoformat` as `iso`. */
    function Stats(iso: int -> string): (d: map<string, Json.Value>)
      requires Valid()
      reads this, registry, detector, config, context
      ensures d.Keys == StatsKeys
      ensures d["turn_count"] == Json.Num(turnCount) && d["session_id"] == Json.Str(sessionId)
      ensures d["message_count"] == Json.Num(if context == null then 0 else |context.messages|)
      ensures context == null ==> d["token_usage"] == Json.Obj(map[])
      ensures d["tools_count"] == Json.Num(|registry.Available()|)
      ensures d["mcp_servers"] == Json.Num(|registry.mcpTools|)
    {
      StatsDict(sessionId, iso(createdAt), iso(updatedAt), turnCount,
                if context == null then 0 else |context.messages|,
                if context == null then map[] else Events.UsageDump(context.totalUsage),
                |registry.Available()|, |registry.mcpTools|)
    }

    /** `get_stats`: lists the available tools and counts them. */
    method GetStats(iso: int -> string) returns (stats: map<string, Json.Value>)
      requires Valid()
      ensures stats == Stats(iso)
    {
      var available := registry.GetTools();
      var messageCount := 0;
      var usage := map[];
      if context != null {
        messageCount := context.MessageCount();
        usage := Events.UsageDump(context.totalUsage);
      }
      stats := StatsDict(sessionId, iso(createdAt), iso(updatedAt), turnCount, messageCount, usage,
                         |available|, |registry.mcpTools|);
    }
  }
}
