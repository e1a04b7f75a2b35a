/**
 * Configuration loading (core/config/loader.py): the recursive dict merge and the order in which
 * `load_configuration` layers its sources. Reading and parsing the TOML files and AGENT.MD is
 * file I/O: their outcomes are parameters, `None` for a missing or invalid file.
 */
module ConfigLoader {
  import opened Wrappers
  import Json

  type Dict = map<string, Json.Value>

  /** Both values are dicts, so `_merge_dicts` recurses into them. */
  predicate BothDicts(a: Json.Value, b: Json.Value)
  {
    a.Obj? && b.Obj?
  }

  /**
   * `_merge_dicts(base, override)` as a value: every key of either side; override wins unless both
   * values are dicts, which are merged by the same rule.
   */
  function Merged(base: Dict, over: Dict): (r: Dict)
    ensures r.Keys == base.Keys + over.Keys
    ensures forall k | k in base && k !in over :: r[k] == base[k]
    ensures forall k | k in over && !(k in base && BothDicts(base[k], over[k])) :: r[k] == over[k]
    ensures forall k | k in base && k in over && BothDicts(base[k], over[k]) ::
              r[k] == Json.Obj(Merged(base[k].fields, over[k].fields))
    decreases Json.Obj(over)
  {
    map k | k in base.Keys + over.Keys ::
      if k in over then
        if k in base && BothDicts(base[k], over[k]) then
          assert over[k] < Json.Obj(over);
          Json.Obj(Merged(base[k].fields, over[k].fields))
        else over[k]
      else base[k]
  }

  /** Merging a dict with itself gives it back, at every depth. */
  lemma {:induction false} MergeIdempotent(d: Dict)
    ensures Merged(d, d) == d
    decreases Json.Obj(d)
  {
    forall k | k in d ensures Merged(d, d)[k] == d[k] {
      if d[k].Obj? {
        assert d[k] < Json.Obj(d);
        MergeIdempotent(d[k].fields);
      }
    }
  }

  /** Merging into an empty base copies the override, and an empty override changes nothing. */
  lemma MergeEmpty(d: Dict)
    ensures Merged(map[], d) == d && Merged(d, map[]) == d
  {
  }

  /**
   * `_merge_dicts`: a copy of `base` updated key by key from `override`, recursing where both
   * values are dicts. The iteration order of `override` does not affect the result, since each
   * key is visited once.
   */
  method MergeDicts(base: Dict, over: Dict) returns (result: Dict)
    ensures result == Merged(base, over)
    decreases Json.Obj(over)
  {
    result := base;
    var todo := over.Keys;
    while todo != {}
      invariant todo <= over.Keys
      invariant result.Keys == base.Keys + (over.Keys - todo)
      invariant forall k | k in result :: result[k] == if k in over.Keys - todo then Merged(base, over)[k] else base[k]
      decreases todo
    {
      var key :| key in todo;
      var value := over[key];
      if key in result && result[key].Obj? && value.Obj? {
        assert value < Json.Obj(over);
        var inner := MergeDicts(result[key].fields, value.fields);
        result := result[key := Json.Obj(inner)];
      } else {
        result := result[key := value];
      }
      todo := todo - {key};
    }
    assert over.Keys - todo == over.Keys;
  }

  /**
   * The dict `load_configuration` hands to `Configuration(**…)`: the system file, the project
   * file merged over it, then "cwd" and "developer_instructions" filled in only when absent.
   * AGENT.MD is offered only when no file set developer_instructions, and only non-empty text is used.
   */
  method LoadConfigDict(system: Option<Dict>, project: Option<Dict>, cwd: string, agentMd: Option<string>)
    returns (config: Dict)
    ensures var layered := Merged(system.GetOr(map[]), project.GetOr(map[]));
            && config.Keys == layered.Keys + {"cwd"}
                              + (if "developer_instructions" !in layered && agentMd.Some? && agentMd.value != ""
                                 then {"developer_instructions"} else {})
            && (forall k | k in layered :: config[k] == layered[k])
            && ("cwd" !in layered ==> config["cwd"] == Json.Str(cwd))
            && ("developer_instructions" !in layered && agentMd.Some? && agentMd.value != "" ==>
                  config["developer_instructions"] == Json.Str(agentMd.value))
  {
    config := map[];
    if system.Some? {
      config := system.value;
    }
    if project.Some? {
      config := MergeDicts(config, project.value);
    } else {
      MergeEmpty(config);
    }
    if "cwd" !in config {
      config := config["cwd" := Json.Str(cwd)];
    }
    if "developer_instructions" !in config {
      if agentMd.Some? && agentMd.value != "" {
        config := config["developer_instructions" := Json.Str(agentMd.value)];
      }
    }
  }
}
