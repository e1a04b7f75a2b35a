/**
 * The memory tool (core/tools/builtin/memory.py): string entries kept in the user's
 * `user_memory.json`. Every action loads the file, changes its `entries` and writes it back.
 * The file is the field `file`: `None` when it is missing or does not parse, and otherwise the
 * entries it holds. The JSON encoding itself is not part of this model.
 */
module Memory {
  import opened Wrappers
  import Strings
  import Json
  import ToolModels
  import Listing

  const Name := "memory"

  /** `_load_memory()["entries"]`: a missing or unreadable file loads as no entries. */
  function Loaded(file: Option<map<string, string>>): (entries: map<string, string>)
    ensures file.None? ==> entries == map[]
    ensures file.Some? ==> entries == file.value
  {
    if file.Some? then file.value else map[]
  }

  function Found(found: bool): ToolModels.Metadata
  {
    map["found" := Json.Bool(found)]
  }

  const Heading := "Stored memories:"

  /** The file after a call, and the call's result. */
  datatype Outcome = Outcome(file: Option<map<string, string>>, result: ToolModels.ToolResult)

  /** `MemoryTool.execute` on the file as it was before the call. */
  function Step(file: Option<map<string, string>>, action: string, key: Option<string>, value: Option<string>)
    : (o: Outcome)
    ensures !o.result.success ==> o.file == file
  {
    var entries := Loaded(file);
    if Strings.ToLower(action) == "set" then
      if !ToolModels.Given(key) || !ToolModels.Given(value) then
        Outcome(file, ToolModels.ErrorResult("`key` and `value` are required for 'set' action"))
      else Outcome(Some(entries[key.value := value.value]), ToolModels.SuccessResult("Set memory: " + key.value))
    else if Strings.ToLower(action) == "get" then
      if !ToolModels.Given(key) then Outcome(file, ToolModels.ErrorResult("`key` required for 'get' action"))
      else if key.value !in entries then
        Outcome(file, ToolModels.SuccessResult("Memory not found: " + key.value).(metadata := Found(false)))
      else
        Outcome(file, ToolModels.SuccessResult("Memory found: " + key.value + ": " + entries[key.value])
                        .(metadata := Found(true)))
    else if action == "delete" then
      if !ToolModels.Given(key) then Outcome(file, ToolModels.ErrorResult("`key` required for 'delete' action"))
      else if key.value !in entries then Outcome(file, ToolModels.SuccessResult("Memory not found: " + key.value))
      else Outcome(Some(entries - {key.value}), ToolModels.SuccessResult("Deleted memory: " + key.value))
    else if action == "list" then
      if entries == map[] then Outcome(file, ToolModels.SuccessResult("No memories stored").(metadata := Found(false)))
      else Outcome(file, ToolModels.SuccessResult(Listing.Render(Heading, entries)).(metadata := Found(true)))
    else if action == "clear" then
      Outcome(Some(map[]), ToolModels.SuccessResult("Cleared " + Strings.NatToString(|entries|) + " memory entries"))
    else Outcome(file, ToolModels.ErrorResult("Unknown action: " + action))
  }

  /** `set` stores the value under the key, keeps every other entry and writes the file. */
  lemma SetStores(file: Option<map<string, string>>, action: string, key: Option<string>, value: Option<string>)
    requires Strings.ToLower(action) == "set" && ToolModels.Given(key) && ToolModels.Given(value)
    ensures var o := Step(file, action, key, value);
            && o.result.success && o.file.Some?
            && o.file.value == Loaded(file)[key.value := value.value]
            && (forall k | k in Loaded(file) && k != key.value :: k in o.file.value && o.file.value[k] == Loaded(file)[k])
  {
  }

  /** `set` without a key or a value is refused and the file is left alone. */
  lemma SetNeedsKeyAndValue(file: Option<map<string, string>>, action: string, key: Option<string>, value: Option<string>)
    requires Strings.ToLower(action) == "set" && !(ToolModels.Given(key) && ToolModels.Given(value))
    ensures Step(file, action, key, value) == Outcome(file, ToolModels.ErrorResult("`key` and `value` are required for 'set' action"))
  {
  }

  /** `get` after `set` finds the value just stored. */
  lemma GetAfterSet(file: Option<map<string, string>>, k: string, v: string)
    requires k != "" && v != ""
    ensures var after := Step(file, "set", Some(k), Some(v)).file;
            var o := Step(after, "get", Some(k), None);
            && o.file == after && o.result.success
            && o.result.output == "Memory found: " + k + ": " + v
            && o.result.metadata == Found(true)
  {
    assert Strings.ToLower("set") == "set" && Strings.ToLower("get") == "get";
  }

  /** `get` reports an entry exactly when the key is stored, and never changes the file. */
  lemma GetReports(file: Option<map<string, string>>, action: string, key: Option<string>)
    requires Strings.ToLower(action) == "get" && ToolModels.Given(key)
    ensures var o := Step(file, action, key, None);
            && o.file == file && o.result.success
            && (o.result.metadata == Found(true) <==> key.value in Loaded(file))
            && (key.value in Loaded(file) ==> o.result.output == "Memory found: " + key.value + ": " + Loaded(file)[key.value])
            && (key.value !in Loaded(file) ==> o.result.output == "Memory not found: " + key.value)
  {
    assert Found(true) != Found(false) by {
      assert Found(true)["found"] != Found(false)["found"];
    }
  }

  /** `delete` removes the key and nothing else; a key that is absent leaves the file untouched. */
  lemma DeleteRemovesOnly(file: Option<map<string, string>>, key: Option<string>)
    requires ToolModels.Given(key)
    ensures var o := Step(file, "delete", key, None);
            && o.result.success
            && (key.value in Loaded(file) ==> o.file == Some(Loaded(file) - {key.value}))
            && (key.value !in Loaded(file) ==> o.file == file && o.result.output == "Memory not found: " + key.value)
  {
  }

  /** After `delete`, `get` finds nothing under that key. */
  lemma GetAfterDelete(file: Option<map<string, string>>, k: string)
    requires k != ""
    ensures var after := Step(file, "delete", Some(k), None).file;
            Step(after, "get", Some(k), None).result.output == "Memory not found: " + k
  {
    assert Strings.ToLower("delete") == "delete" && Strings.ToLower("get") == "get";
  }

  /** `list` shows the entries sorted by key, or says there are none. */
  lemma ListSorted(file: Option<map<string, string>>)
    ensures var o := Step(file, "list", None, None);
            && o.file == file && o.result.success
            && (Loaded(file) == map[] ==> o.result.output == "No memories stored" && o.result.metadata == Found(false))
            && (Loaded(file) != map[] ==>
                  o.result.output == Strings.Join("\n", [Heading] + Listing.Lines(Loaded(file)))
                  && o.result.metadata == Found(true))
  {
  }

  /** `clear` reports how many entries there were, and `list` afterwards finds none. */
  lemma ClearEmpties(file: Option<map<string, string>>)
    ensures var o := Step(file, "clear", None, None);
            && o.file == Some(map[]) && o.result.success
            && o.result.output == "Cleared " + Strings.NatToString(|Loaded(file)|) + " memory entries"
            && Step(o.file, "list", None, None).result.output == "No memories stored"
  {
  }

  /** A missing or unreadable file answers every action as an empty store does. */
  lemma UnreadableIsEmpty(action: string, key: Option<string>, value: Option<string>)
    ensures Step(None, action, key, value).result == Step(Some(map[]), action, key, value).result
  {
  }

  /** The action is one that calls `_save_memory`: a complete `set`, a `delete` of a stored key, or `clear`. */
  predicate Saves(file: Option<map<string, string>>, action: string, key: Option<string>, value: Option<string>)
  {
    (Strings.ToLower(action) == "set" && ToolModels.Given(key) && ToolModels.Given(value))
    || (Strings.ToLower(action) != "set" && Strings.ToLower(action) != "get" && action == "delete"
        && ToolModels.Given(key) && key.value in Loaded(file))
    || (Strings.ToLower(action) != "set" && Strings.ToLower(action) != "get" && action == "clear")
  }

  /** An action that does not save leaves the file as it was, and every saving action succeeds. */
  lemma {:induction false} OnlySavesChange(file: Option<map<string, string>>, action: string, key: Option<string>,
                                           value: Option<string>)
    ensures !Saves(file, action, key, value) ==> Step(file, action, key, value).file == file
    ensures Saves(file, action, key, value) ==> Step(file, action, key, value).result.success
  {
  }

  /** Only `set` and `get` ignore case: `Delete` with a capital is an unknown action and changes nothing. */
  lemma CapitalisedDeleteIsUnknown(file: Option<map<string, string>>, key: Option<string>)
    ensures Step(file, "Delete", key, None) == Outcome(file, ToolModels.ErrorResult("Unknown action: Delete"))
  {
    assert |Strings.ToLower("Delete")| == 6;
    assert "Delete" != "delete" by { assert "Delete"[0] != "delete"[0]; }
    assert "Unknown action: " + "Delete" == "Unknown action: Delete";
  }

  /** The tool, the state of whose memory file the actions change. */
  class MemoryTool {
    var file: Option<map<string, string>>

    constructor (file: Option<map<string, string>>)
      ensures this.file == file
    {
      this.file := file;
    }

    /**
     * `_save_memory`: the file is replaced by the entries, unless the write raises (`error`, the
     * text of the `OSError`), which leaves the file as it was.
     */
    method Save(entries: map<string, string>, error: Option<string>) returns (saved: bool)
      modifies this
      ensures saved <==> error.None?
      ensures saved ==> file == Some(entries)
      ensures !saved ==> file == old(file)
    {
      if error.Some? {
        return false;
      }
      file := Some(entries);
      return true;
    }

    /**
     * `execute`: the file and the result are those `Step` gives for the file before the call. A
     * `saveError` makes a saving action raise (`Err`, which the registry reports as an internal
     * error) and leaves the file as it was; the other actions never write.
     */
    method Execute(action: string, key: Option<string>, value: Option<string>, saveError: Option<string>)
      returns (r: Result<ToolModels.ToolResult, string>)
      modifies this
      ensures Saves(old(file), action, key, value) && saveError.Some? ==> r == Err(saveError.value) && file == old(file)
      ensures !(Saves(old(file), action, key, value) && saveError.Some?) ==>
                r.Ok? && Outcome(file, r.value) == Step(old(file), action, key, value)
    {
      var lower := Strings.ToLower(action);
      if lower == "set" {
        if !ToolModels.Given(key) || !ToolModels.Given(value) {
          return Ok(ToolModels.ErrorResult("`key` and `value` are required for 'set' action"));
        }
        var entries := Loaded(file);
        var saved := Save(entries[key.value := value.value], saveError);
        if !saved {
          return Err(saveError.value);
        }
        return Ok(ToolModels.SuccessResult("Set memory: " + key.value));
      } else if lower == "get" {
        if !ToolModels.Given(key) {
          return Ok(ToolModels.ErrorResult("`key` required for 'get' action"));
        }
        var entries := Loaded(file);
        if key.value !in entries {
          return Ok(ToolModels.SuccessResult("Memory not found: " + key.value).(metadata := Found(false)));
        }
        return Ok(ToolModels.SuccessResult("Memory found: " + key.value + ": " + entries[key.value]).(metadata := Found(true)));
      } else if action == "delete" {
        if !ToolModels.Given(key) {
          return Ok(ToolModels.ErrorResult("`key` required for 'delete' action"));
        }
        var entries := Loaded(file);
        if key.value !in entries {
          return Ok(ToolModels.SuccessResult("Memory not found: " + key.value));
        }
        var saved := Save(entries - {key.value}, saveError);
        if !saved {
          return Err(saveError.value);
        }
        return Ok(ToolModels.SuccessResult("Deleted memory: " + key.value));
      } else if action == "list" {
        var entries := Loaded(file);
        if entries == map[] {
          return Ok(ToolModels.SuccessResult("No memories stored").(metadata := Found(false)));
        }
        var text := Listing.RenderLines(Heading, entries);
        return Ok(ToolModels.SuccessResult(text).(metadata := Found(true)));
      } else if action == "clear" {
        var count := |Loaded(file)|;
        var saved := Save(map[], saveError);
        if !saved {
          return Err(saveError.value);
        }
        return Ok(ToolModels.SuccessResult("Cleared " + Strings.NatToString(count) + " memory entries"));
      } else {
        return Ok(ToolModels.ErrorResult("Unknown action: " + action));
      }
    }
  }
}
