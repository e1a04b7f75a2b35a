/**
 * The tool interface (core/tools/base.py). A tool is a record of its name, description, kind,
 * parameter schema and three behaviours that subclasses override: `is_mutating`,
 * `get_confirmation` and `execute`. Pydantic's model validation is the function a model schema
 * carries; an exception escaping `execute` is `Err(text)` with `text` its `str(e)`.
 */
module ToolBase {
  import opened Wrappers
  import Strings
  import Json
  import ToolModels

  type Params = map<string, Json.Value>

  /** One entry of a Pydantic `ValidationError.errors()`: the location path and the optional message. */
  datatype ParamError = ParamError(loc: seq<string>, msg: Option<string>)

  /** What instantiating a model schema with the parameters does. */
  datatype Validation = Accepted | Invalid(errors: seq<ParamError>) | Crashed(text: string)

  datatype Schema =
    | ModelSchema(check: Params -> Validation, properties: map<string, Json.Value>, required: seq<string>)
    | DictSchema(fields: map<string, Json.Value>)
    | OtherSchema(typeName: string)

  datatype Tool = Tool(
    name: string,
    description: string,
    kind: ToolModels.ToolKind,
    schema: Schema,
    mutating: Params -> bool,
    confirm: ToolModels.ToolInvocation -> Option<ToolModels.ToolConfirmation>,
    execute: ToolModels.ToolInvocation -> Result<ToolModels.ToolResult, string>)

  /** The base `is_mutating`: the kinds that change something. */
  function KindMutates(kind: ToolModels.ToolKind): (r: bool)
    ensures r <==> !(kind == ToolModels.Read || kind == ToolModels.Mcp)
  {
    match kind
    case Write => true
    case Shell => true
    case Network => true
    case Memory => true
    case Read => false
    case Mcp => false
  }

  /** The base `get_confirmation`: none for a non-mutating call, else "Execute {name}" with nothing else set. */
  function DefaultConfirmation(name: string, mutating: bool, inv: ToolModels.ToolInvocation): (c: Option<ToolModels.ToolConfirmation>)
    ensures c.None? <==> !mutating
    ensures c.Some? ==> c.value.toolName == name && c.value.params == inv.params && c.value.description == "Execute " + name
    ensures c.Some? ==> c.value.affectedPaths == [] && c.value.command == None && !c.value.isDangerous && c.value.diff == None
  {
    if !mutating then None else Some(ToolModels.Confirmation(name, inv.params, "Execute " + name))
  }

  /** A tool that keeps the base `is_mutating` and `get_confirmation`. */
  function BasicTool(name: string, description: string, kind: ToolModels.ToolKind, schema: Schema,
                     execute: ToolModels.ToolInvocation -> Result<ToolModels.ToolResult, string>): (t: Tool)
    ensures t.name == name && t.kind == kind
    ensures forall p :: t.mutating(p) == KindMutates(kind)
    ensures forall inv :: t.confirm(inv) == DefaultConfirmation(name, KindMutates(kind), inv)
  {
    Tool(name, description, kind, schema,
         p => KindMutates(kind),
         inv => DefaultConfirmation(name, KindMutates(kind), inv),
         execute)
  }

  /** One `validate_params` message: "Parameter '{loc joined by .}': {msg}", with a default message. */
  function FormatParamError(e: ParamError): (s: string)
    ensures |s| >= |"Parameter '"| && s[..|"Parameter '"|] == "Parameter '"
  {
    "Parameter '" + Strings.Join(".", e.loc) + "': " + e.msg.GetOr("Validation error")
  }

  /** `validate_params`: one message per error of a model schema, `[str(e)]` for any other exception, none otherwise. */
  function ValidateParams(schema: Schema, params: Params): (errors: seq<string>)
    ensures !schema.ModelSchema? ==> errors == []
    ensures schema.ModelSchema? && schema.check(params).Accepted? ==> errors == []
    ensures schema.ModelSchema? && schema.check(params).Crashed? ==> errors == [schema.check(params).text]
    ensures schema.ModelSchema? && schema.check(params).Invalid? ==>
      |errors| == |schema.check(params).errors|
      && forall i | 0 <= i < |errors| :: errors[i] == FormatParamError(schema.check(params).errors[i])
  {
    match schema
    case ModelSchema(check, _, _) =>
      (match check(params)
       case Accepted => []
       case Invalid(es) => seq(|es|, i requires 0 <= i < |es| => FormatParamError(es[i]))
       case Crashed(text) => [text])
    case _ => []
  }

  /** A model schema that validated with no error at all also reports no message. */
  lemma ParamErrorsMatchFailures(schema: Schema, params: Params)
    requires schema.ModelSchema? && schema.check(params).Invalid?
    ensures ValidateParams(schema, params) == [] <==> schema.check(params).errors == []
  {
  }

  /** The `ValueError` message for a schema that is neither a model nor a dict. */
  function InvalidSchemaMessage(name: string, typeName: string): string
  {
    "Invalid schema type for tool " + name + ": " + typeName
  }

  /**
   * `to_openai_schema`: name, description and parameters. A model gives an object schema of its
   * properties and required list; a dict gives its own "parameters" entry or, without one, itself.
   */
  function ToOpenAiSchema(t: Tool): (r: Result<map<string, Json.Value>, string>)
    ensures r.Err? <==> t.schema.OtherSchema?
    ensures r.Err? ==> r.error == InvalidSchemaMessage(t.name, t.schema.typeName)
    ensures r.Ok? ==> r.value.Keys == {"name", "description", "parameters"}
                      && r.value["name"] == Json.Str(t.name) && r.value["description"] == Json.Str(t.description)
    ensures t.schema.DictSchema? && "parameters" in t.schema.fields ==> r.value["parameters"] == t.schema.fields["parameters"]
    ensures t.schema.DictSchema? && "parameters" !in t.schema.fields ==> r.value["parameters"] == Json.Obj(t.schema.fields)
    ensures t.schema.ModelSchema? ==>
      r.value["parameters"].Obj? && r.value["parameters"].fields.Keys == {"type", "properties", "required"}
      && r.value["parameters"].fields["type"] == Json.Str("object")
      && r.value["parameters"].fields["properties"] == Json.Obj(t.schema.properties)
  {
    var head := map["name" := Json.Str(t.name), "description" := Json.Str(t.description)];
    match t.schema
    case ModelSchema(_, properties, required) =>
      Ok(head["parameters" := Json.Obj(map["type" := Json.Str("object"),
                                           "properties" := Json.Obj(properties),
                                           "required" := Json.Arr(seq(|required|, i requires 0 <= i < |required| => Json.Str(required[i])))])])
    case DictSchema(fields) =>
      Ok(head["parameters" := if "parameters" in fields then fields["parameters"] else Json.Obj(fields)])
    case OtherSchema(typeName) => Err(InvalidSchemaMessage(t.name, typeName))
  }

  /** Exporting a dict schema that already wraps its parameters, or that is itself the parameters, gives the same entry. */
  lemma DictSchemaWrappingIsTransparent(t: Tool, u: Tool, params: map<string, Json.Value>)
    requires t.schema == DictSchema(map["parameters" := Json.Obj(params)]) && u.schema == DictSchema(params)
    requires "parameters" !in params
    ensures ToOpenAiSchema(t).value["parameters"] == ToOpenAiSchema(u).value["parameters"]
  {
  }
}
