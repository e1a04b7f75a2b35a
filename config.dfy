/**
 * The configuration schema (core/config/schema.py): policies, hook triggers, the model, MCP
 * server and hook records with their validators, and the `Configuration` object with its
 * `model_name` and `temperature` setters. Pydantic's field constraints (`ge`, `le`) are checked
 * before a model's own validators run; a violated constraint is `Constraint(field)`.
 * Python's `str(float)` is the parameter `showReal`.
 */
module Config {
  import opened Wrappers
  import Json
  import Errors
  import Paths

  datatype ApprovalPolicy = OnRequest | OnFailure | Auto | AutoEdit | Never | Yolo

  function PolicyValue(p: ApprovalPolicy): string
  {
    match p
    case OnRequest => "on-request"
    case OnFailure => "on-failure"
    case Auto => "auto"
    case AutoEdit => "auto-edit"
    case Never => "never"
    case Yolo => "yolo"
  }

  datatype HookTrigger = BeforeAgent | AfterAgent | BeforeTool | AfterTool | OnError

  function TriggerValue(t: HookTrigger): string
  {
    match t
    case BeforeAgent => "before_agent"
    case AfterAgent => "after_agent"
    case BeforeTool => "before_tool"
    case AfterTool => "after_tool"
    case OnError => "on_error"
  }

  /** Why a record could not be built: a Pydantic field constraint, or a validator's own error. */
  datatype Fault = Constraint(field: string) | Raised(error: Errors.DriftError)

  datatype ModelConfig = ModelConfig(name: string, temperature: real, contextWindow: int)

  const DefaultModel := ModelConfig("gpt-4o", 1.0, 256000)

  predicate TemperatureInRange(t: real)
  {
    0.0 <= t <= 2.0
  }

  /** The error `validate_temperature` and the `temperature` setter raise. */
  function TemperatureError(t: real, showReal: real -> string): Errors.DriftError
  {
    Errors.ValidationError("Temperature must be between 0.0 and 2.0, got " + showReal(t), Some("temperature"), None, None)
  }

  /**
   * `ModelConfig(...)`: temperature within [0, 2] and context_window at least 1, else the first
   * violated constraint. The range check of `validate_temperature` repeats the `ge`/`le`
   * constraints, so it cannot fail once they hold.
   */
  function NewModelConfig(name: string, temperature: real, contextWindow: int): (r: Result<ModelConfig, Fault>)
    ensures r.Ok? <==> TemperatureInRange(temperature) && contextWindow >= 1
    ensures r.Ok? ==> r.value == ModelConfig(name, temperature, contextWindow)
    ensures !TemperatureInRange(temperature) ==> r == Err(Constraint("temperature"))
    ensures TemperatureInRange(temperature) && contextWindow < 1 ==> r == Err(Constraint("context_window"))
  {
    if !TemperatureInRange(temperature) then Err(Constraint("temperature"))
    else if contextWindow < 1 then Err(Constraint("context_window"))
    else Ok(ModelConfig(name, temperature, contextWindow))
  }

  datatype ShellEnvironmentPolicy = ShellEnvironmentPolicy(ignoreDefaultExcludes: bool, excludePatterns: seq<string>,
                                                           setVars: map<string, string>)

  const DefaultShellEnvironment := ShellEnvironmentPolicy(false, ["*KEY*", "*TOKEN*", "*SECRET*"], map[])

  datatype McpServerConfig = McpServerConfig(enabled: bool, startupTimeoutSec: real, command: Option<string>,
                                             args: seq<string>, env: map<string, string>, cwd: Option<Paths.Path>,
                                             url: Option<string>)

  /** `MCPServerConfig(...)`: exactly one of command and url must be given; an empty string counts as given. */
  function NewMcpServerConfig(c: McpServerConfig): (r: Result<McpServerConfig, Fault>)
    ensures r.Ok? <==> c.startupTimeoutSec >= 0.0 && (c.command.Some? != c.url.Some?)
    ensures r.Ok? ==> r.value == c
    ensures r.Err? && c.startupTimeoutSec >= 0.0 ==>
      r.error.Raised? && Errors.Lookup(r.error.error.details, "field") == Some(Json.Str("transport"))
  {
    if c.startupTimeoutSec < 0.0 then Err(Constraint("startup_timeout_sec"))
    else if c.command.None? && c.url.None? then
      Err(Raised(Errors.ValidationError("MCP Server must have either 'command' (stdio) or 'url' (http/sse)", Some("transport"), None, None)))
    else if c.command.Some? && c.url.Some? then
      Err(Raised(Errors.ValidationError("MCP Server cannot have both 'command' (stdio) and 'url' (http/sse)", Some("transport"), None, None)))
    else Ok(c)
  }

  datatype HookConfig = HookConfig(name: string, trigger: HookTrigger, command: Option<string>, script: Option<string>,
                                   timeoutSec: real, enabled: bool)

  predicate Given(s: Option<string>)
  {
    s.Some? && s.value != ""
  }

  /** `HookConfig(...)`: a non-empty command or script is required; an empty string counts as absent. */
  function NewHookConfig(h: HookConfig): (r: Result<HookConfig, Fault>)
    ensures r.Ok? <==> h.timeoutSec >= 0.0 && (Given(h.command) || Given(h.script))
    ensures r.Ok? ==> r.value == h
    ensures r.Err? && h.timeoutSec >= 0.0 ==>
      r.error.Raised? && Errors.Lookup(r.error.error.details, "field") == Some(Json.Str("hook"))
  {
    if h.timeoutSec < 0.0 then Err(Constraint("timeout_sec"))
    else if !Given(h.command) && !Given(h.script) then
      Err(Raised(Errors.ValidationError("Hook must have either 'command' or 'script'", Some("hook"), None, None)))
    else Ok(h)
  }

  /** `Configuration`: the settings the core reads, with the two property setters. */
  class Configuration {
    var model: ModelConfig
    var cwd: Paths.Path
    var shellEnvironment: ShellEnvironmentPolicy
    var hooksEnabled: bool
    var hooks: seq<HookConfig>
    var approval: ApprovalPolicy
    var maxTurns: int
    var mcpServers: map<string, McpServerConfig>
    var allowedTools: Option<seq<string>>
    var developerInstructions: Option<string>
    var userInstructions: Option<string>
    var debug: bool

    /** The field constraints: temperature in range, context_window and max_turns at least 1. */
    predicate Valid()
      reads this
    {
      TemperatureInRange(model.temperature) && model.contextWindow >= 1 && maxTurns >= 1
    }

    /** `Configuration()` with every default; `cwd` is the process directory. */
    constructor (cwd: Paths.Path)
      ensures Valid()
      ensures model == DefaultModel && this.cwd == cwd && shellEnvironment == DefaultShellEnvironment
      ensures !hooksEnabled && hooks == [] && approval == OnRequest && maxTurns == 100 && mcpServers == map[]
      ensures allowedTools == None && developerInstructions == None && userInstructions == None && !debug
    {
      model := DefaultModel;
      this.cwd := cwd;
      shellEnvironment := DefaultShellEnvironment;
      hooksEnabled := false;
      hooks := [];
      approval := OnRequest;
      maxTurns := 100;
      mcpServers := map[];
      allowedTools := None;
      developerInstructions := None;
      userInstructions := None;
      debug := false;
    }

    /** The `model_name` property reads the model's name. */
    function ModelName(): string
      reads this
    {
      model.name
    }

    method SetModelName(value: string)
      modifies this`model
      ensures model == old(model).(name := value)
      ensures ModelName() == value
      ensures old(Valid()) ==> Valid()
    {
      model := model.(name := value);
    }

    function Temperature(): real
      reads this
    {
      model.temperature
    }

    /** The `temperature` setter: an out-of-range value raises and leaves the old value in place. */
    method SetTemperature(value: real, showReal: real -> string) returns (err: Option<Errors.DriftError>)
      modifies this`model
      ensures TemperatureInRange(value) ==> err == None && model == old(model).(temperature := value)
      ensures !TemperatureInRange(value) ==> err == Some(TemperatureError(value, showReal)) && model == old(model)
      ensures old(Valid()) ==> Valid()
    {
      if !TemperatureInRange(value) {
        return Some(TemperatureError(value, showReal));
      }
      model := model.(temperature := value);
      err := None;
    }
  }
}
