/**
 * The tool records (core/tools/models.py): tool kinds, results with their two constructors and
 * the text the model sees, invocations and confirmation requests. `FileDiff.to_diff` renders a
 * unified diff with `difflib`, which is not part of this model.
 */
module ToolModels {
  import opened Wrappers
  import Json
  import Paths

  datatype ToolKind = Read | Write | Shell | Network | Memory | Mcp

  function KindValue(k: ToolKind): string
  {
    match k
    case Read => "read"
    case Write => "write"
    case Shell => "shell"
    case Network => "network"
    case Memory => "memory"
    case Mcp => "mcp"
  }

  datatype FileDiff = FileDiff(path: Paths.Path, oldContent: string, newContent: string, isNewFile: bool, isDeletion: bool)

  type Metadata = map<string, Json.Value>

  datatype ToolResult = ToolResult(
    success: bool,
    output: string,
    error: Option<string>,
    metadata: Metadata,
    truncated: bool,
    diff: Option<FileDiff>,
    exitCode: Option<int>)

  /** `ToolResult.error_result(error, output)`: failed, with the message as its error; the other fields at their defaults. */
  function ErrorResult(error: string, output: string := ""): (r: ToolResult)
    ensures !r.success && r.error == Some(error) && r.output == output
    ensures r.metadata == map[] && !r.truncated && r.diff == None && r.exitCode == None
  {
    ToolResult(false, output, Some(error), map[], false, None, None)
  }

  /** `ToolResult.success_result(output)`: succeeded, with no error; the other fields at their defaults. */
  function SuccessResult(output: string): (r: ToolResult)
    ensures r.success && r.error == None && r.output == output
    ensures r.metadata == map[] && !r.truncated && r.diff == None && r.exitCode == None
  {
    ToolResult(true, output, None, map[], false, None, None)
  }

  const ErrorPrefix := "Error: "
  const OutputLabel := "\n\nOutput:\n"

  /**
   * `to_model_output`: the output itself on success; otherwise "Error: {error}\n\nOutput:\n{output}",
   * where a missing error prints as "None".
   */
  function ToModelOutput(r: ToolResult): string
  {
    if r.success then r.output else ErrorPrefix + r.error.GetOr("None") + OutputLabel + r.output
  }

  /** A success reads as its output; a failure starts with the error prefix and ends with the output. */
  lemma ModelOutputText(r: ToolResult)
    ensures var s := ToModelOutput(r);
            && (r.success ==> s == r.output)
            && (!r.success ==> |s| == |ErrorPrefix| + |r.error.GetOr("None")| + |OutputLabel| + |r.output|)
            && (!r.success ==> s[..|ErrorPrefix|] == ErrorPrefix && s[|s| - |r.output|..] == r.output)
  {
  }

  /** The error text and the output can both be read back from a failure's model text. */
  lemma FailureTextRecoversParts(r: ToolResult)
    requires !r.success
    ensures var s := ToModelOutput(r);
            var e := r.error.GetOr("None");
            s[|ErrorPrefix|..|ErrorPrefix| + |e|] == e && s[|ErrorPrefix| + |e| + |OutputLabel|..] == r.output
  {
  }

  datatype ToolInvocation = ToolInvocation(params: map<string, Json.Value>, cwd: Paths.Path)

  /** A string parameter Python treats as given: neither `None` nor the empty string. */
  predicate Given(x: Option<string>)
  {
    x.Some? && x.value != ""
  }

  /** A tool's own confirmation request, before the registry wraps it for the approval manager. */
  datatype ToolConfirmation = ToolConfirmation(
    toolName: string,
    params: map<string, Json.Value>,
    description: string,
    diff: Option<FileDiff>,
    affectedPaths: seq<Paths.Path>,
    command: Option<string>,
    isDangerous: bool)

  /** `ToolConfirmation(tool_name, params, description)`: no diff, no paths, no command, not dangerous. */
  function Confirmation(toolName: string, params: map<string, Json.Value>, description: string): (c: ToolConfirmation)
    ensures c.toolName == toolName && c.params == params && c.description == description
    ensures c.diff == None && c.affectedPaths == [] && c.command == None && !c.isDangerous
  {
    ToolConfirmation(toolName, params, description, None, [], None, false)
  }
}
