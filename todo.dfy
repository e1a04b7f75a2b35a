/**
 * The todos tool (core/tools/builtin/todo.py): a session task list kept in an insertion-ordered
 * dict from short ids to contents. The dict is a map plus its key order; the id `uuid4()` would
 * draw is the input `newId`.
 */
module Todo {
  import opened Wrappers
  import Strings
  import ToolModels

  const Name := "todos"

  /** The `_todos` dict: its entries and the order in which their keys were first inserted. */
  datatype Store = Store(order: seq<string>, todos: map<string, string>)

  ghost predicate Wellformed(s: Store)
  {
    Strings.Distinct(s.order) && (forall k :: k in s.todos <==> k in s.order)
  }

  const Empty := Store([], map[])

  // Listing

  /** The line `list` shows for one todo. */
  function Entry(id: string, content: string): string
  {
    "  [" + id + "] " + content
  }

  /** The entry lines, one per key, in key order. */
  function Entries(order: seq<string>, todos: map<string, string>): (r: seq<string>)
    requires forall k | k in order :: k in todos
    ensures |r| == |order|
  {
    if order == [] then []
    else Entries(order[..|order| - 1], todos) + [Entry(order[|order| - 1], todos[order[|order| - 1]])]
  }

  /** Line `i` of the listing shows the `i`-th inserted todo: `list` follows insertion order. */
  lemma {:induction false} EntriesAt(order: seq<string>, todos: map<string, string>, i: nat)
    requires (forall k | k in order :: k in todos) && i < |order|
    ensures Entries(order, todos)[i] == Entry(order[i], todos[order[i]])
  {
    var init := order[..|order| - 1];
    if i < |init| {
      EntriesAt(init, todos, i);
      assert init[i] == order[i];
    }
  }

  /** The output of `list`. */
  function Listing(s: Store): string
    requires Wellformed(s)
  {
    if s.todos == map[] then "No todos" else Strings.Join("\n", ["Todos:"] + Entries(s.order, s.todos))
  }

  /** A store with at least one todo lists every one of them, each on its own line. */
  lemma ListingShowsAll(s: Store)
    requires Wellformed(s) && s.todos != map[]
    ensures Listing(s) == Strings.Join("\n", ["Todos:"] + Entries(s.order, s.todos))
    ensures forall i | 0 <= i < |s.order| :: Entries(s.order, s.todos)[i] == Entry(s.order[i], s.todos[s.order[i]])
  {
    forall i | 0 <= i < |s.order|
      ensures Entries(s.order, s.todos)[i] == Entry(s.order[i], s.todos[s.order[i]])
    {
      EntriesAt(s.order, s.todos, i);
    }
  }

  /** The keys of a distinct order number as many as its entries. */
  lemma {:induction false} DistinctCard(order: seq<string>)
    requires Strings.Distinct(order)
    ensures |set k | k in order| == |order|
  {
    if order != [] {
      var init := order[..|order| - 1];
      var last := order[|order| - 1];
      assert Strings.Distinct(init);
      assert last !in init;
      assert (set k | k in order) == (set k | k in init) + {last};
      DistinctCard(init);
    }
  }

  /** `len(self._todos)` is the length of the key order. */
  lemma SizeIsOrderLength(s: Store)
    requires Wellformed(s)
    ensures |s.todos| == |s.order|
  {
    DistinctCard(s.order);
    assert s.todos.Keys == set k | k in s.order;
  }

  // The actions

  datatype Outcome = Outcome(store: Store, result: ToolModels.ToolResult)

  /** `TodosTool.execute` on the store before the call. */
  function Step(s: Store, action: string, id: Option<string>, content: Option<string>, newId: string): (o: Outcome)
    requires Wellformed(s)
    ensures Wellformed(o.store)
    ensures !o.result.success ==> o.store == s
  {
    if Strings.ToLower(action) == "add" then
      if !ToolModels.Given(content) then Outcome(s, ToolModels.ErrorResult("`content` required for 'add' action"))
      else
        var order := if newId in s.todos then s.order else s.order + [newId];
        Outcome(Store(order, s.todos[newId := content.value]),
                ToolModels.SuccessResult("Added todo [" + newId + "]: " + content.value))
    else if Strings.ToLower(action) == "complete" then
      if !ToolModels.Given(id) then Outcome(s, ToolModels.ErrorResult("`id` required for 'complete' action"))
      else if id.value !in s.todos then Outcome(s, ToolModels.ErrorResult("Todo not found: " + id.value))
      else
        Outcome(Store(Strings.Without(s.order, id.value), s.todos - {id.value}),
                ToolModels.SuccessResult("Completed todo [" + id.value + "]: " + s.todos[id.value]))
    else if action == "list" then Outcome(s, ToolModels.SuccessResult(Listing(s)))
    else if action == "clear" then
      Outcome(Empty, ToolModels.SuccessResult("Cleared " + Strings.NatToString(|s.todos|) + " todos"))
    else Outcome(s, ToolModels.ErrorResult("Unknown action: " + action))
  }

  /**
   * `add` with content stores it under the new id. A fresh id gives one more todo, listed
   * last; an id already in use keeps its place and gets the new content.
   */
  lemma AddStores(s: Store, action: string, id: Option<string>, content: Option<string>, newId: string)
    requires Wellformed(s) && Strings.ToLower(action) == "add" && ToolModels.Given(content)
    ensures var o := Step(s, action, id, content, newId);
            && o.result.success && o.result.output == "Added todo [" + newId + "]: " + content.value
            && o.store.todos[newId] == content.value
            && (forall k | k in s.todos && k != newId :: k in o.store.todos && o.store.todos[k] == s.todos[k])
            && (newId !in s.todos ==> |o.store.todos| == |s.todos| + 1 && o.store.order == s.order + [newId])
            && (newId in s.todos ==> |o.store.todos| == |s.todos| && o.store.order == s.order)
  {
  }

  /** `add` without content is refused. */
  lemma AddNeedsContent(s: Store, action: string, id: Option<string>, content: Option<string>, newId: string)
    requires Wellformed(s) && Strings.ToLower(action) == "add" && !ToolModels.Given(content)
    ensures Step(s, action, id, content, newId) == Outcome(s, ToolModels.ErrorResult("`content` required for 'add' action"))
  {
  }

  /** `complete` of a known id removes exactly that todo and reports its content. */
  lemma CompleteRemoves(s: Store, action: string, id: Option<string>, content: Option<string>, newId: string)
    requires Wellformed(s) && Strings.ToLower(action) == "complete" && ToolModels.Given(id) && id.value in s.todos
    ensures var o := Step(s, action, id, content, newId);
            && o.result.success && o.result.output == "Completed todo [" + id.value + "]: " + s.todos[id.value]
            && o.store.todos == s.todos - {id.value}
            && |o.store.todos| + 1 == |s.todos|
            && (forall k | k in o.store.order :: k in s.order && k != id.value)
  {
  }

  /** `complete` without an id, or with one that is not stored, is an error and changes nothing. */
  lemma CompleteUnknown(s: Store, action: string, id: Option<string>, content: Option<string>, newId: string)
    requires Wellformed(s) && Strings.ToLower(action) == "complete" && !(ToolModels.Given(id) && id.value in s.todos)
    ensures var o := Step(s, action, id, content, newId);
            && o.store == s && !o.result.success
            && o.result.error == Some(if ToolModels.Given(id) then "Todo not found: " + id.value else "`id` required for 'complete' action")
  {
  }

  /** `clear` empties the store and reports how many todos it held. */
  lemma ClearReportsCount(s: Store, id: Option<string>, content: Option<string>, newId: string)
    requires Wellformed(s)
    ensures var o := Step(s, "clear", id, content, newId);
            && o.store.todos == map[] && o.store.order == []
            && o.result.success && o.result.output == "Cleared " + Strings.NatToString(|s.order|) + " todos"
  {
    SizeIsOrderLength(s);
  }

  /**
   * Only `add` and `complete` ignore case: `list` and `clear` spelt with a capital are unknown
   * actions, and leave the store as it was.
   */
  lemma CapitalisedListIsUnknown(s: Store, id: Option<string>, content: Option<string>, newId: string)
    requires Wellformed(s)
    ensures Step(s, "List", id, content, newId) == Outcome(s, ToolModels.ErrorResult("Unknown action: List"))
    ensures Step(s, "Clear", id, content, newId) == Outcome(s, ToolModels.ErrorResult("Unknown action: Clear"))
  {
    assert |Strings.ToLower("List")| == 4 && |Strings.ToLower("Clear")| == 5;
    assert "List"[0] != "list"[0] && "List"[0] != "clear"[0];
    assert "Clear"[0] != "list"[0] && "Clear"[0] != "clear"[0];
    assert "List" != "list" && "Clear" != "clear";
    assert Strings.ToLower("List") != "add" && Strings.ToLower("List") != "complete";
    assert "Unknown action: " + "List" == "Unknown action: List";
    assert Strings.ToLower("Clear") != "add" && Strings.ToLower("Clear") != "complete";
    assert "Unknown action: " + "Clear" == "Unknown action: Clear";
  }

  /** The tool object, whose `_todos` dict the actions change in place. */
  class TodosTool {
    var order: seq<string>
    var todos: map<string, string>

    ghost predicate Valid()
      reads this
    {
      Wellformed(Store(order, todos))
    }

    constructor ()
      ensures Valid() && order == [] && todos == map[]
    {
      order := [];
      todos := map[];
    }

    /** The `for todo_id, content in self._todos.items()` loop of `list`. */
    method ListText() returns (text: string)
      requires Valid() && todos != map[]
      ensures text == Listing(Store(order, todos))
    {
      var lines := ["Todos:"];
      var i := 0;
      while i < |order|
        invariant i <= |order|
        invariant lines == ["Todos:"] + Entries(order[..i], todos)
      {
        assert order[..i + 1][..i] == order[..i];
        lines := lines + [Entry(order[i], todos[order[i]])];
        i := i + 1;
      }
      assert order[..i] == order;
      text := Strings.Join("\n", lines);
    }

    /** `execute`: the store and the result are those `Step` gives for the store before the call. */
    method Execute(action: string, id: Option<string>, content: Option<string>, newId: string)
      returns (r: ToolModels.ToolResult)
      requires Valid()
      modifies this
      ensures Valid()
      ensures Outcome(Store(order, todos), r) == Step(old(Store(order, todos)), action, id, content, newId)
    {
      var lower := Strings.ToLower(action);
      if lower == "add" {
        if !ToolModels.Given(content) {
          return ToolModels.ErrorResult("`content` required for 'add' action");
        }
        if newId !in todos {
          order := order + [newId];
        }
        todos := todos[newId := content.value];
        return ToolModels.SuccessResult("Added todo [" + newId + "]: " + content.value);
      } else if lower == "complete" {
        if !ToolModels.Given(id) {
          return ToolModels.ErrorResult("`id` required for 'complete' action");
        }
        if id.value !in todos {
          return ToolModels.ErrorResult("Todo not found: " + id.value);
        }
        var done := todos[id.value];
        todos := todos - {id.value};
        order := Strings.Without(order, id.value);
        return ToolModels.SuccessResult("Completed todo [" + id.value + "]: " + done);
      } else if action == "list" {
        if todos == map[] {
          return ToolModels.SuccessResult("No todos");
        }
        var text := ListText();
        return ToolModels.SuccessResult(text);
      } else if action == "clear" {
        var count := |todos|;
        todos := map[];
        order := [];
        return ToolModels.SuccessResult("Cleared " + Strings.NatToString(count) + " todos");
      } else {
        return ToolModels.ErrorResult("Unknown action: " + action);
      }
    }
  }
}
