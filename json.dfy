/** JSON-like values: the payloads of Python dicts handed between the core's components. */
module Json {
  datatype Value =
    | Null
    | Bool(b: bool)
    | Num(n: int)
    | Str(s: string)
    | Arr(items: seq<Value>)
    | Obj(fields: map<string, Value>)

  /** `d.get(key, default)` on a dict-valued `d`; any other value behaves as an empty dict. */
  function Get(v: Value, key: string, default: Value): Value
  {
    if v.Obj? && key in v.fields then v.fields[key] else default
  }

  /** `d.get(key, default)` where the stored value is read as a string; a non-string value gives the default. */
  function GetStr(d: map<string, Value>, key: string, default: string): (r: string)
    ensures key !in d ==> r == default
    ensures key in d && d[key].Str? ==> r == d[key].s
  {
    if key in d && d[key].Str? then d[key].s else default
  }

  /** Python truthiness of a JSON value. */
  predicate Truthy(v: Value)
  {
    match v
    case Null => false
    case Bool(b) => b
    case Num(n) => n != 0
    case Str(s) => s != ""
    case Arr(items) => items != []
    case Obj(fields) => fields != map[]
  }
}
