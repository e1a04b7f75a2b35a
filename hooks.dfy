/**
 * Hooks (core/hooks/system.py, core/hooks/environment.py). The hook system keeps the enabled
 * hooks and, on each trigger, runs the matching ones with an environment describing the event.
 * Running a hook (core/hooks/executor.py) is a subprocess whose failures are logged and never
 * reach the caller, so a trigger is observed as the sequence of runs it starts. The process
 * environment and `json.dumps` are parameters.
 */
module Hooks {
  import opened Wrappers
  import Json
  import Paths
  import Config
  import ToolModels

  const EnvPrefix := "AI_AGENT_"
  const TriggerKey := "AI_AGENT_TRIGGER"
  const CwdKey := "AI_AGENT_CWD"
  const ToolNameKey := "AI_AGENT_TOOL_NAME"
  const ToolParamsKey := "AI_AGENT_TOOL_PARAMS"
  const ToolResultKey := "AI_AGENT_TOOL_RESULT"
  const UserMessageKey := "AI_AGENT_USER_MESSAGE"
  const AgentResponseKey := "AI_AGENT_AGENT_RESPONSE"
  const ErrorKey := "AI_AGENT_ERROR"

  /** The optional arguments of `build_hook_environment`; `error` is the exception's `str`. */
  datatype HookArgs = HookArgs(
    toolName: Option<string>,
    toolParams: Option<map<string, Json.Value>>,
    toolResult: Option<ToolModels.ToolResult>,
    userMessage: Option<string>,
    agentResponse: Option<string>,
    error: Option<string>)

  const NoArgs := HookArgs(None, None, None, None, None, None)

  predicate Text(s: Option<string>)
  {
    s.Some? && s.value != ""
  }

  predicate NonEmptyParams(p: Option<map<string, Json.Value>>)
  {
    p.Some? && p.value != map[]
  }

  predicate Namespaced(k: string)
  {
    |k| >= |EnvPrefix| && k[..|EnvPrefix|] == EnvPrefix
  }

  function Opt(cond: bool, k: string): set<string>
  {
    if cond then {k} else {}
  }

  /** The keys the event sets, on top of the process environment. */
  predicate EventKey(k: string, a: HookArgs)
  {
    k == TriggerKey || k == CwdKey
    || (Text(a.toolName) && k == ToolNameKey)
    || (NonEmptyParams(a.toolParams) && k == ToolParamsKey)
    || (a.toolResult.Some? && k == ToolResultKey)
    || (Text(a.userMessage) && k == UserMessageKey)
    || (Text(a.agentResponse) && k == AgentResponseKey)
    || (a.error.Some? && k == ErrorKey)
  }

  /** Assign `k := v` when `cond` holds. */
  function SetIf(env: map<string, string>, cond: bool, k: string, v: string): map<string, string>
  {
    if cond then env[k := v] else env
  }

  /** A conditional assignment adds `k` exactly when `cond` holds and leaves every other key as it was. */
  lemma SetIfEffect(env: map<string, string>, cond: bool, k: string, v: string)
    ensures SetIf(env, cond, k, v).Keys == env.Keys + Opt(cond, k)
    ensures cond ==> SetIf(env, cond, k, v)[k] == v
    ensures forall j | j in env && (j != k || !cond) :: SetIf(env, cond, k, v)[j] == env[j]
  {
  }

  /**
   * `build_hook_environment`: the process environment with the trigger and cwd always set and
   * each optional key set exactly when its argument is truthy. (A result or an exception object
   * is always truthy.)
   */
  function HookEnvironment(base: map<string, string>, trigger: Config.HookTrigger, cwd: Paths.Path, a: HookArgs,
                           dumps: map<string, Json.Value> -> string): map<string, string>
  {
    var e0 := SetIf(base, true, TriggerKey, Config.TriggerValue(trigger));
    var e1 := SetIf(e0, true, CwdKey, Paths.Show(cwd));
    var e2 := SetIf(e1, Text(a.toolName), ToolNameKey, a.toolName.GetOr(""));
    var e3 := SetIf(e2, NonEmptyParams(a.toolParams), ToolParamsKey, dumps(a.toolParams.GetOr(map[])));
    var e4 := SetIf(e3, a.toolResult.Some?, ToolResultKey,
                    if a.toolResult.Some? then ToolModels.ToModelOutput(a.toolResult.value) else "");
    var e5 := SetIf(e4, Text(a.userMessage), UserMessageKey, a.userMessage.GetOr(""));
    var e6 := SetIf(e5, Text(a.agentResponse), AgentResponseKey, a.agentResponse.GetOr(""));
    SetIf(e6, a.error.Some?, ErrorKey, a.error.GetOr(""))
  }

  /** The keys `build_hook_environment` sets: the trigger and cwd always, each optional key exactly when its argument is truthy. */
  lemma HookEnvironmentKeys(base: map<string, string>, trigger: Config.HookTrigger, cwd: Paths.Path, a: HookArgs,
                            dumps: map<string, Json.Value> -> string)
    ensures HookEnvironment(base, trigger, cwd, a, dumps).Keys
            == base.Keys + {TriggerKey} + {CwdKey} + Opt(Text(a.toolName), ToolNameKey)
               + Opt(NonEmptyParams(a.toolParams), ToolParamsKey) + Opt(a.toolResult.Some?, ToolResultKey)
               + Opt(Text(a.userMessage), UserMessageKey) + Opt(Text(a.agentResponse), AgentResponseKey)
               + Opt(a.error.Some?, ErrorKey)
  {
    var e0 := SetIf(base, true, TriggerKey, Config.TriggerValue(trigger));
    var e1 := SetIf(e0, true, CwdKey, Paths.Show(cwd));
    var e2 := SetIf(e1, Text(a.toolName), ToolNameKey, a.toolName.GetOr(""));
    var e3 := SetIf(e2, NonEmptyParams(a.toolParams), ToolParamsKey, dumps(a.toolParams.GetOr(map[])));
    var e4 := SetIf(e3, a.toolResult.Some?, ToolResultKey,
                    if a.toolResult.Some? then ToolModels.ToModelOutput(a.toolResult.value) else "");
    var e5 := SetIf(e4, Text(a.userMessage), UserMessageKey, a.userMessage.GetOr(""));
    var e6 := SetIf(e5, Text(a.agentResponse), AgentResponseKey, a.agentResponse.GetOr(""));
    SetIfEffect(base, true, TriggerKey, Config.TriggerValue(trigger));
    SetIfEffect(e0, true, CwdKey, Paths.Show(cwd));
    SetIfEffect(e1, Text(a.toolName), ToolNameKey, a.toolName.GetOr(""));
    SetIfEffect(e2, NonEmptyParams(a.toolParams), ToolParamsKey, dumps(a.toolParams.GetOr(map[])));
    SetIfEffect(e3, a.toolResult.Some?, ToolResultKey,
                if a.toolResult.Some? then ToolModels.ToModelOutput(a.toolResult.value) else "");
    SetIfEffect(e4, Text(a.userMessage), UserMessageKey, a.userMessage.GetOr(""));
    SetIfEffect(e5, Text(a.agentResponse), AgentResponseKey, a.agentResponse.GetOr(""));
    SetIfEffect(e6, a.error.Some?, ErrorKey, a.error.GetOr(""));
  }



  /** The values it sets, each to its argument. */
  lemma HookEnvironmentValues(base: map<string, string>, trigger: Config.HookTrigger, cwd: Paths.Path, a: HookArgs,
                            dumps: map<string, Json.Value> -> string)
    ensures var env := HookEnvironment(base, trigger, cwd, a, dumps);
            env[TriggerKey] == Config.TriggerValue(trigger) && env[CwdKey] == Paths.Show(cwd)
            && (Text(a.toolName) ==> env[ToolNameKey] == a.toolName.value)
            && (NonEmptyParams(a.toolParams) ==> env[ToolParamsKey] == dumps(a.toolParams.value))
            && (a.toolResult.Some? ==> env[ToolResultKey] == ToolModels.ToModelOutput(a.toolResult.value))
            && (Text(a.userMessage) ==> env[UserMessageKey] == a.userMessage.value)
            && (Text(a.agentResponse) ==> env[AgentResponseKey] == a.agentResponse.value)
            && (a.error.Some? ==> env[ErrorKey] == a.error.value)
  {
    var e0 := SetIf(base, true, TriggerKey, Config.TriggerValue(trigger));
    var e1 := SetIf(e0, true, CwdKey, Paths.Show(cwd));
    var e2 := SetIf(e1, Text(a.toolName), ToolNameKey, a.toolName.GetOr(""));
    var e3 := SetIf(e2, NonEmptyParams(a.toolParams), ToolParamsKey, dumps(a.toolParams.GetOr(map[])));
    var e4 := SetIf(e3, a.toolResult.Some?, ToolResultKey,
                    if a.toolResult.Some? then ToolModels.ToModelOutput(a.toolResult.value) else "");
    var e5 := SetIf(e4, Text(a.userMessage), UserMessageKey, a.userMessage.GetOr(""));
    var e6 := SetIf(e5, Text(a.agentResponse), AgentResponseKey, a.agentResponse.GetOr(""));
    SetIfEffect(base, true, TriggerKey, Config.TriggerValue(trigger));
    SetIfEffect(e0, true, CwdKey, Paths.Show(cwd));
    SetIfEffect(e1, Text(a.toolName), ToolNameKey, a.toolName.GetOr(""));
    SetIfEffect(e2, NonEmptyParams(a.toolParams), ToolParamsKey, dumps(a.toolParams.GetOr(map[])));
    SetIfEffect(e3, a.toolResult.Some?, ToolResultKey,
                if a.toolResult.Some? then ToolModels.ToModelOutput(a.toolResult.value) else "");
    SetIfEffect(e4, Text(a.userMessage), UserMessageKey, a.userMessage.GetOr(""));
    SetIfEffect(e5, Text(a.agentResponse), AgentResponseKey, a.agentResponse.GetOr(""));
    SetIfEffect(e6, a.error.Some?, ErrorKey, a.error.GetOr(""));
  }



  /** Every variable of the process environment that is not an event key reaches the hook unchanged. */
  lemma HookEnvironmentPassesThrough(base: map<string, string>, trigger: Config.HookTrigger, cwd: Paths.Path, a: HookArgs,
                            dumps: map<string, Json.Value> -> string)
    ensures forall k | k in base && !EventKey(k, a) :: HookEnvironment(base, trigger, cwd, a, dumps)[k] == base[k]
  {
    var e0 := SetIf(base, true, TriggerKey, Config.TriggerValue(trigger));
    var e1 := SetIf(e0, true, CwdKey, Paths.Show(cwd));
    var e2 := SetIf(e1, Text(a.toolName), ToolNameKey, a.toolName.GetOr(""));
    var e3 := SetIf(e2, NonEmptyParams(a.toolParams), ToolParamsKey, dumps(a.toolParams.GetOr(map[])));
    var e4 := SetIf(e3, a.toolResult.Some?, ToolResultKey,
                    if a.toolResult.Some? then ToolModels.ToModelOutput(a.toolResult.value) else "");
    var e5 := SetIf(e4, Text(a.userMessage), UserMessageKey, a.userMessage.GetOr(""));
    var e6 := SetIf(e5, Text(a.agentResponse), AgentResponseKey, a.agentResponse.GetOr(""));
    SetIfEffect(base, true, TriggerKey, Config.TriggerValue(trigger));
    SetIfEffect(e0, true, CwdKey, Paths.Show(cwd));
    SetIfEffect(e1, Text(a.toolName), ToolNameKey, a.toolName.GetOr(""));
    SetIfEffect(e2, NonEmptyParams(a.toolParams), ToolParamsKey, dumps(a.toolParams.GetOr(map[])));
    SetIfEffect(e3, a.toolResult.Some?, ToolResultKey,
                if a.toolResult.Some? then ToolModels.ToModelOutput(a.toolResult.value) else "");
    SetIfEffect(e4, Text(a.userMessage), UserMessageKey, a.userMessage.GetOr(""));
    SetIfEffect(e5, Text(a.agentResponse), AgentResponseKey, a.agentResponse.GetOr(""));
    SetIfEffect(e6, a.error.Some?, ErrorKey, a.error.GetOr(""));
  }


  /** One conditional assignment `if cond: env[k] = v`. */
  method AssignIf(env: map<string, string>, cond: bool, k: string, v: string) returns (r: map<string, string>)
    ensures r == SetIf(env, cond, k, v)
  {
    r := env;
    if cond {
      r := r[k := v];
    }
  }

  /** `build_hook_environment`, assigning the keys one by one into a copy of the process environment. */
  method BuildHookEnvironment(base: map<string, string>, trigger: Config.HookTrigger, cwd: Paths.Path, a: HookArgs,
                              dumps: map<string, Json.Value> -> string) returns (env: map<string, string>)
    ensures env == HookEnvironment(base, trigger, cwd, a, dumps)
  {
    env := base;
    env := AssignIf(env, true, TriggerKey, Config.TriggerValue(trigger));
    env := AssignIf(env, true, CwdKey, Paths.Show(cwd));
    env := AssignIf(env, Text(a.toolName), ToolNameKey, a.toolName.GetOr(""));
    env := AssignIf(env, NonEmptyParams(a.toolParams), ToolParamsKey, dumps(a.toolParams.GetOr(map[])));
    var rendered := if a.toolResult.Some? then ToolModels.ToModelOutput(a.toolResult.value) else "";
    env := AssignIf(env, a.toolResult.Some?, ToolResultKey, rendered);
    env := AssignIf(env, Text(a.userMessage), UserMessageKey, a.userMessage.GetOr(""));
    env := AssignIf(env, Text(a.agentResponse), AgentResponseKey, a.agentResponse.GetOr(""));
    env := AssignIf(env, a.error.Some?, ErrorKey, a.error.GetOr(""));
  }

  /** A variable outside the AI_AGENT_ namespace always reaches the hook unchanged. */
  lemma ForeignVariablesKept(base: map<string, string>, trigger: Config.HookTrigger, cwd: Paths.Path, a: HookArgs,
                             dumps: map<string, Json.Value> -> string, k: string)
    requires k in base && !Namespaced(k)
    ensures HookEnvironment(base, trigger, cwd, a, dumps)[k] == base[k]
  {
    HookEnvironmentPassesThrough(base, trigger, cwd, a, dumps);
    assert !EventKey(k, a) by {
      assert TriggerKey[..|EnvPrefix|] == EnvPrefix && CwdKey[..|EnvPrefix|] == EnvPrefix;
      assert ToolNameKey[..|EnvPrefix|] == EnvPrefix && ToolParamsKey[..|EnvPrefix|] == EnvPrefix;
      assert ToolResultKey[..|EnvPrefix|] == EnvPrefix && UserMessageKey[..|EnvPrefix|] == EnvPrefix;
      assert AgentResponseKey[..|EnvPrefix|] == EnvPrefix && ErrorKey[..|EnvPrefix|] == EnvPrefix;
    }
  }

  /** An empty parameter dict is falsy, so it adds no TOOL_PARAMS entry. */
  lemma EmptyParamsAddNothing(base: map<string, string>, trigger: Config.HookTrigger, cwd: Paths.Path, a: HookArgs,
                              dumps: map<string, Json.Value> -> string)
    requires a.toolParams == Some(map[]) && ToolParamsKey !in base
    ensures ToolParamsKey !in HookEnvironment(base, trigger, cwd, a, dumps)
  {
    HookEnvironmentKeys(base, trigger, cwd, a, dumps);
  }

  /** The hooks `HookSystem.__init__` keeps: none unless hooks are enabled, else the enabled ones in order. */
  function Enabled(hooks: seq<Config.HookConfig>): (r: seq<Config.HookConfig>)
    ensures |r| <= |hooks|
    ensures forall i | 0 <= i < |r| :: r[i].enabled && r[i] in hooks
  {
    if |hooks| == 0 then []
    else
      var last := hooks[|hooks| - 1];
      Enabled(hooks[..|hooks| - 1]) + (if last.enabled then [last] else [])
  }

  /** The kept hooks a trigger runs, in list order. */
  function Matching(hooks: seq<Config.HookConfig>, trigger: Config.HookTrigger): (r: seq<Config.HookConfig>)
    ensures |r| <= |hooks|
    ensures forall i | 0 <= i < |r| :: r[i].trigger == trigger && r[i] in hooks
  {
    if |hooks| == 0 then []
    else
      var last := hooks[|hooks| - 1];
      Matching(hooks[..|hooks| - 1], trigger) + (if last.trigger == trigger then [last] else [])
  }

  /** No enabled hook is lost. */
  lemma {:induction false} EnabledKeepsAll(hooks: seq<Config.HookConfig>, i: int)
    requires 0 <= i < |hooks| && hooks[i].enabled
    ensures hooks[i] in Enabled(hooks)
    decreases |hooks|
  {
    if i < |hooks| - 1 {
      assert hooks[..|hooks| - 1][i] == hooks[i];
      EnabledKeepsAll(hooks[..|hooks| - 1], i);
    }
  }

  /** No hook with the trigger is skipped. */
  lemma {:induction false} MatchingKeepsAll(hooks: seq<Config.HookConfig>, trigger: Config.HookTrigger, i: int)
    requires 0 <= i < |hooks| && hooks[i].trigger == trigger
    ensures hooks[i] in Matching(hooks, trigger)
    decreases |hooks|
  {
    if i < |hooks| - 1 {
      assert hooks[..|hooks| - 1][i] == hooks[i];
      MatchingKeepsAll(hooks[..|hooks| - 1], trigger, i);
    }
  }

  /** Selecting by trigger and by the enabled flag commute: the order of the two filters does not matter. */
  lemma {:induction false} FiltersCommute(hooks: seq<Config.HookConfig>, trigger: Config.HookTrigger)
    ensures Matching(Enabled(hooks), trigger) == Enabled(Matching(hooks, trigger))
    decreases |hooks|
  {
    if |hooks| > 0 {
      var init := hooks[..|hooks| - 1];
      var last := hooks[|hooks| - 1];
      FiltersCommute(init, trigger);
      MatchingAppend(Enabled(init), if last.enabled then [last] else [], trigger);
      EnabledAppend(Matching(init, trigger), if last.trigger == trigger then [last] else []);
    }
  }

  lemma {:induction false} MatchingAppend(a: seq<Config.HookConfig>, b: seq<Config.HookConfig>, trigger: Config.HookTrigger)
    requires |b| <= 1
    ensures Matching(a + b, trigger) == Matching(a, trigger) + Matching(b, trigger)
  {
    if |b| == 0 {
      assert a + b == a;
    } else {
      assert (a + b)[..|a + b| - 1] == a;
      assert b[..|b| - 1] == [];
    }
  }

  lemma {:induction false} EnabledAppend(a: seq<Config.HookConfig>, b: seq<Config.HookConfig>)
    requires |b| <= 1
    ensures Enabled(a + b) == Enabled(a) + Enabled(b)
  {
    if |b| == 0 {
      assert a + b == a;
    } else {
      assert (a + b)[..|a + b| - 1] == a;
      assert b[..|b| - 1] == [];
    }
  }

  /** One hook started by a trigger: the hook, its environment and its working directory. */
  datatype HookRun = HookRun(hook: Config.HookConfig, env: map<string, string>, cwd: Paths.Path)

  function Runs(hooks: seq<Config.HookConfig>, env: map<string, string>, cwd: Paths.Path): (r: seq<HookRun>)
    ensures |r| == |hooks| && forall i | 0 <= i < |r| :: r[i] == HookRun(hooks[i], env, cwd)
  {
    seq(|hooks|, i requires 0 <= i < |hooks| => HookRun(hooks[i], env, cwd))
  }

  /** `HookSystem`: the configuration and the hooks it kept. */
  class HookSystem {
    const config: Config.Configuration
    var hooks: seq<Config.HookConfig>

    constructor (config: Config.Configuration)
      ensures this.config == config
      ensures hooks == if config.hooksEnabled then Enabled(config.hooks) else []
    {
      this.config := config;
      hooks := [];
      if config.hooksEnabled {
        hooks := Enabled(config.hooks);
      }
    }

    /** The loop every `trigger_*` shares: each kept hook with the trigger, in order, with the environment. */
    method Dispatch(trigger: Config.HookTrigger, env: map<string, string>) returns (runs: seq<HookRun>)
      ensures runs == Runs(Matching(hooks, trigger), env, config.cwd)
    {
      runs := [];
      var i := 0;
      while i < |hooks|
        invariant 0 <= i <= |hooks|
        invariant runs == Runs(Matching(hooks[..i], trigger), env, config.cwd)
      {
        assert hooks[..i + 1][..i] == hooks[..i];
        if hooks[i].trigger == trigger {
          runs := runs + [HookRun(hooks[i], env, config.cwd)];
        }
        i := i + 1;
      }
      assert hooks[..i] == hooks;
    }

    /** `trigger_before_agent`. */
    method TriggerBeforeAgent(userMessage: string, base: map<string, string>, dumps: map<string, Json.Value> -> string)
      returns (runs: seq<HookRun>)
      ensures runs == Runs(Matching(hooks, Config.BeforeAgent),
                           HookEnvironment(base, Config.BeforeAgent, config.cwd, NoArgs.(userMessage := Some(userMessage)), dumps),
                           config.cwd)
    {
      var env := BuildHookEnvironment(base, Config.BeforeAgent, config.cwd, NoArgs.(userMessage := Some(userMessage)), dumps);
      runs := Dispatch(Config.BeforeAgent, env);
    }

    /** `trigger_after_agent`. */
    method TriggerAfterAgent(userMessage: string, agentResponse: string, base: map<string, string>,
                             dumps: map<string, Json.Value> -> string) returns (runs: seq<HookRun>)
      ensures runs == Runs(Matching(hooks, Config.AfterAgent),
                           HookEnvironment(base, Config.AfterAgent, config.cwd,
                                           NoArgs.(userMessage := Some(userMessage), agentResponse := Some(agentResponse)), dumps),
                           config.cwd)
    {
      var args := NoArgs.(userMessage := Some(userMessage), agentResponse := Some(agentResponse));
      var env := BuildHookEnvironment(base, Config.AfterAgent, config.cwd, args, dumps);
      runs := Dispatch(Config.AfterAgent, env);
    }

    /** `trigger_before_tool`. */
    method TriggerBeforeTool(toolName: string, params: map<string, Json.Value>, base: map<string, string>,
                             dumps: map<string, Json.Value> -> string) returns (runs: seq<HookRun>)
      ensures runs == Runs(Matching(hooks, Config.BeforeTool),
                           HookEnvironment(base, Config.BeforeTool, config.cwd,
                                           NoArgs.(toolName := Some(toolName), toolParams := Some(params)), dumps),
                           config.cwd)
    {
      var args := NoArgs.(toolName := Some(toolName), toolParams := Some(params));
      var env := BuildHookEnvironment(base, Config.BeforeTool, config.cwd, args, dumps);
      runs := Dispatch(Config.BeforeTool, env);
    }

    /** `trigger_after_tool`: the environment carries the result's model text. */
    method TriggerAfterTool(toolName: string, params: map<string, Json.Value>, result: ToolModels.ToolResult,
                            base: map<string, string>, dumps: map<string, Json.Value> -> string) returns (runs: seq<HookRun>)
      ensures runs == Runs(Matching(hooks, Config.AfterTool),
                           HookEnvironment(base, Config.AfterTool, config.cwd,
                                           NoArgs.(toolName := Some(toolName), toolParams := Some(params), toolResult := Some(result)), dumps),
                           config.cwd)
      ensures forall i | 0 <= i < |runs| :: runs[i].env[ToolResultKey] == ToolModels.ToModelOutput(result)
    {
      var args := NoArgs.(toolName := Some(toolName), toolParams := Some(params), toolResult := Some(result));
      var env := BuildHookEnvironment(base, Config.AfterTool, config.cwd, args, dumps);
      HookEnvironmentKeys(base, Config.AfterTool, config.cwd, args, dumps);
      HookEnvironmentValues(base, Config.AfterTool, config.cwd, args, dumps);
      runs := Dispatch(Config.AfterTool, env);
    }

    /** `trigger_on_error`: `error` is the exception's text. */
    method TriggerOnError(error: string, base: map<string, string>, dumps: map<string, Json.Value> -> string)
      returns (runs: seq<HookRun>)
      ensures runs == Runs(Matching(hooks, Config.OnError),
                           HookEnvironment(base, Config.OnError, config.cwd, NoArgs.(error := Some(error)), dumps),
                           config.cwd)
    {
      var env := BuildHookEnvironment(base, Config.OnError, config.cwd, NoArgs.(error := Some(error)), dumps);
      runs := Dispatch(Config.OnError, env);
    }
  }
}
