/**
 * The loop detector (core/context/loop_detector.py): a bounded FIFO of action signatures,
 * checked for an exact repeat of the newest signatures and for a short repeating cycle.
 * Python's `str(value)` of a tool argument is the parameter `show`.
 */
module LoopDetection {
  import opened Wrappers
  import Json
  import Strings

  /** `deque(maxlen=20)`. */
  const Capacity: nat := 20

  /** `deque.append` on a bounded deque: a full history drops its oldest entry. */
  function Pushed(h: seq<string>, s: string): (r: seq<string>)
    requires |h| <= Capacity
    ensures |r| == (if |h| < Capacity then |h| + 1 else Capacity) && r[|r| - 1] == s
    ensures |h| < Capacity ==> r == h + [s]
    ensures |h| == Capacity ==> r == h[1..] + [s]
  {
    if |h| < Capacity then h + [s] else h[1..] + [s]
  }

  /** The `k=str(v)` entries of a tool call's argument dict, in the order of `keys`. */
  function ArgEntries(fields: map<string, Json.Value>, keys: seq<string>, show: Json.Value -> string): seq<string>
    requires forall i | 0 <= i < |keys| :: keys[i] in fields
  {
    seq(|keys|, i requires 0 <= i < |keys| => keys[i] + "=" + show(fields[keys[i]]))
  }

  /**
   * The parts `record_action` joins with "|": the action type; for "tool_call" the tool name
   * (default "") and, when `args` is a dict, one `k=v` per key in sorted order; for "response"
   * the text (default "").
   */
  function SignatureParts(actionType: string, toolName: Option<string>, args: Option<Json.Value>,
                          text: Option<string>, show: Json.Value -> string): (r: seq<string>)
    ensures |r| >= 1 && r[0] == actionType
    ensures actionType == "tool_call" ==> |r| >= 2 && r[1] == toolName.GetOr("")
    ensures actionType == "response" ==> r == [actionType, text.GetOr("")]
    ensures actionType != "tool_call" && actionType != "response" ==> r == [actionType]
  {
    if actionType == "tool_call" then
      var a := args.GetOr(Json.Obj(map[]));
      [actionType, toolName.GetOr("")]
        + (if a.Obj? then ArgEntries(a.fields, Strings.SortedKeys(a.fields.Keys), show) else [])
    else if actionType == "response" then [actionType, text.GetOr("")]
    else [actionType]
  }

  function Signature(actionType: string, toolName: Option<string>, args: Option<Json.Value>,
                     text: Option<string>, show: Json.Value -> string): string
  {
    Strings.Join("|", SignatureParts(actionType, toolName, args, text, show))
  }

  /** Argument entries follow the sorted keys one for one. */
  lemma ToolCallEntriesSorted(name: string, fields: map<string, Json.Value>, show: Json.Value -> string, i: nat)
    requires i < |fields|
    ensures var parts := SignatureParts("tool_call", Some(name), Some(Json.Obj(fields)), None, show);
            var keys := Strings.SortedKeys(fields.Keys);
            |parts| == 2 + |fields| && parts[2 + i] == keys[i] + "=" + show(fields[keys[i]])
            && Strings.StrictlySorted(keys)
  {
  }

  /**
   * A tool call's signature names its tool: split at "|", the second field is the tool name,
   * so calls of two different (pipe-free) tools never share a signature.
   */
  lemma {:induction false} SignatureNamesTool(name: string, args: Option<Json.Value>, show: Json.Value -> string)
    requires '|' !in name
    ensures var fields := Strings.SplitOn(Signature("tool_call", Some(name), args, None, show), "|");
            |fields| >= 2 && fields[0] == "tool_call" && fields[1] == name
  {
    var parts := SignatureParts("tool_call", Some(name), args, None, show);
    var rest := parts[2..];
    assert parts == ["tool_call", name] + rest;
    assert '|' !in "tool_call";
    TwoFields("tool_call", name, rest);
  }

  /** The first two fields of `a|b|...` split at "|" are `a` and `b`. */
  lemma TwoFields(a: string, b: string, rest: seq<string>)
    requires '|' !in a && '|' !in b
    ensures var fields := Strings.SplitOn(Strings.Join("|", [a, b] + rest), "|");
            |fields| >= 2 && fields[0] == a && fields[1] == b
  {
    assert ([a, b] + rest)[1..] == [b] + rest;
    assert [a, b] + rest == [a] + ([b] + rest);
    StringsSplitJoinHead(a, [b] + rest);
    StringsSplitJoinHead(b, rest);
  }

  /** Splitting `head|...` at "|" yields `head` first, then the fields of the rest. */
  lemma StringsSplitJoinHead(head: string, rest: seq<string>)
    requires '|' !in head
    ensures var fields := Strings.SplitOn(Strings.Join("|", [head] + rest), "|");
            |fields| >= 1 && fields[0] == head
            && (rest != [] ==> fields[1..] == Strings.SplitOn(Strings.Join("|", rest), "|"))
  {
    if rest == [] {
      assert [head] + rest == [head];
      SplitNoSeparator(head);
    } else {
      assert ([head] + rest)[1..] == rest;
      SplitAfterHead(head, Strings.Join("|", rest));
    }
  }

  lemma {:induction false} SplitNoSeparator(s: string)
    requires '|' !in s
    ensures Strings.SplitOn(s, "|") == [s]
    decreases |s|
  {
    if |s| >= 1 {
      assert s[..1] != "|" by { assert s[0] in s; }
      SplitNoSeparator(s[1..]);
      assert [s[0]] + s[1..] == s;
    }
  }

  lemma {:induction false} SplitAfterHead(head: string, tail: string)
    requires '|' !in head
    ensures Strings.SplitOn(head + "|" + tail, "|") == [head] + Strings.SplitOn(tail, "|")
    decreases |head|
  {
    var s := head + "|" + tail;
    if head == [] {
      assert s[..1] == "|" && s[1..] == tail;
    } else {
      assert s[..1] != "|" by { assert s[0] == head[0] && head[0] in head; }
      assert s[1..] == head[1..] + "|" + tail;
      SplitAfterHead(head[1..], tail);
      assert [head[0]] + head[1..] == head;
    }
  }

  /** `list(history)[-n:]`; note that `[-0:]` is the whole history. */
  function Recent(h: seq<string>, n: nat): seq<string>
    requires n <= |h|
  {
    if n == 0 then h else h[|h| - n..]
  }

  /** `len(set(recent)) == 1`: non-empty and all one signature. */
  predicate AllSame(s: seq<string>)
  {
    |s| >= 1 && forall i | 0 <= i < |s| :: s[i] == s[0]
  }

  predicate ExactRepeat(h: seq<string>, n: nat)
  {
    |h| >= n && AllSame(Recent(h, n))
  }

  /** The two newest runs of `c` signatures are equal. */
  predicate CycleAt(h: seq<string>, c: nat)
  {
    2 * c <= |h| && h[|h| - 2 * c..|h| - c] == h[|h| - c..]
  }

  /** `range(2, min(max_cycle_length + 1, len // 2 + 1))`. */
  predicate InCycleRange(h: seq<string>, m: nat, c: nat)
  {
    2 <= c && c < m + 1 && c < |h| / 2 + 1
  }

  function RepeatMessage(n: nat, sig: string): string
  {
    "Same action repeated " + Strings.NatToString(n) + " times: " + sig
  }

  function CycleMessage(c: nat): string
  {
    "Detected repeating cycle of length " + Strings.NatToString(c)
  }

  /**
   * What `check_for_loop` reports for history `h`: nothing below two entries; then an exact
   * repeat of the newest `n`; then, from `2m` entries on, the SMALLEST cycle length in range
   * whose two newest runs agree; otherwise nothing.
   */
  ghost predicate DescribesLoop(h: seq<string>, n: nat, m: nat, r: Option<string>)
  {
    if |h| < 2 then r == None
    else if ExactRepeat(h, n) then r == Some(RepeatMessage(n, Recent(h, n)[0]))
    else if |h| >= 2 * m && exists c: nat :: InCycleRange(h, m, c) && CycleAt(h, c) then
      exists c: nat :: InCycleRange(h, m, c) && CycleAt(h, c)
                  && (forall d :: 2 <= d < c ==> !CycleAt(h, d)) && r == Some(CycleMessage(c))
    else r == None
  }

  /** The verdict is a function of the history: two results that both describe it are equal. */
  lemma DescribesLoopUnique(h: seq<string>, n: nat, m: nat, r1: Option<string>, r2: Option<string>)
    requires DescribesLoop(h, n, m, r1) && DescribesLoop(h, n, m, r2)
    ensures r1 == r2
  {
    if |h| >= 2 && !ExactRepeat(h, n) && |h| >= 2 * m && exists c: nat :: InCycleRange(h, m, c) && CycleAt(h, c) {
      var c1: nat :| InCycleRange(h, m, c1) && CycleAt(h, c1)
                && (forall d :: 2 <= d < c1 ==> !CycleAt(h, d)) && r1 == Some(CycleMessage(c1));
      var c2: nat :| InCycleRange(h, m, c2) && CycleAt(h, c2)
                && (forall d :: 2 <= d < c2 ==> !CycleAt(h, d)) && r2 == Some(CycleMessage(c2));
      assert !(c1 < c2) && !(c2 < c1);
    }
  }

  /** The `for k in sorted(args.keys())` loop of `record_action`. */
  method BuildArgEntries(fields: map<string, Json.Value>, show: Json.Value -> string) returns (out: seq<string>)
    ensures out == ArgEntries(fields, Strings.SortedKeys(fields.Keys), show)
  {
    var keys := Strings.SortedKeys(fields.Keys);
    out := EntriesFor(fields, keys, show);
  }

  /** The loop body of `BuildArgEntries`, over keys already sorted. */
  method EntriesFor(fields: map<string, Json.Value>, keys: seq<string>, show: Json.Value -> string) returns (out: seq<string>)
    requires forall i | 0 <= i < |keys| :: keys[i] in fields
    ensures out == ArgEntries(fields, keys, show)
  {
    out := [];
    var i := 0;
    while i < |keys|
      invariant 0 <= i <= |keys| && |out| == i
      invariant forall j | 0 <= j < i :: out[j] == keys[j] + "=" + show(fields[keys[j]])
    {
      out := out + [keys[i] + "=" + show(fields[keys[i]])];
      i := i + 1;
    }
  }

  /** The parts of a tool call's signature: the action type, the tool name, then the sorted arguments. */
  method BuildCallParts(toolName: Option<string>, args: Option<Json.Value>, show: Json.Value -> string)
    returns (output: seq<string>)
    ensures output == SignatureParts("tool_call", toolName, args, None, show)
  {
    output := ["tool_call", toolName.GetOr("")];
    var a := args.GetOr(Json.Obj(map[]));
    if a.Obj? {
      var entries := BuildArgEntries(a.fields, show);
      output := output + entries;
    }
  }

  /** The signature-building half of `record_action`: the `output` list grown part by part, then joined. */
  method BuildSignature(actionType: string, toolName: Option<string>, args: Option<Json.Value>,
                        text: Option<string>, show: Json.Value -> string) returns (signature: string)
    ensures signature == Signature(actionType, toolName, args, text, show)
  {
    var output := [actionType];
    if actionType == "tool_call" {
      output := BuildCallParts(toolName, args, show);
    } else if actionType == "response" {
      output := output + [text.GetOr("")];
    }
    signature := Strings.Join("|", output);
  }

  lemma ReportsRepeat(h: seq<string>, n: nat, m: nat)
    requires |h| >= 2 && ExactRepeat(h, n)
    ensures DescribesLoop(h, n, m, Some(RepeatMessage(n, Recent(h, n)[0])))
  {
  }

  lemma ReportsCycle(h: seq<string>, n: nat, m: nat, c: nat)
    requires |h| >= 2 && !ExactRepeat(h, n) && |h| >= 2 * m
    requires InCycleRange(h, m, c) && CycleAt(h, c)
    requires forall d :: 2 <= d < c ==> !CycleAt(h, d)
    ensures DescribesLoop(h, n, m, Some(CycleMessage(c)))
  {
  }

  lemma ReportsNothing(h: seq<string>, n: nat, m: nat)
    requires |h| < 2 || (!ExactRepeat(h, n) && (|h| < 2 * m || forall c: nat :: InCycleRange(h, m, c) ==> !CycleAt(h, c)))
    ensures DescribesLoop(h, n, m, None)
  {
  }

  /** The body of `check_for_loop` over a history `h` and thresholds `n` (repeats) and `m` (cycle length). */
  method FindLoop(h: seq<string>, n: nat, m: nat) returns (r: Option<string>)
    ensures DescribesLoop(h, n, m, r)
  {
    if |h| < 2 {
      ReportsNothing(h, n, m);
      return None;
    }
    if |h| >= n {
      var recent := Recent(h, n);
      if AllSame(recent) {
        ReportsRepeat(h, n, m);
        return Some(RepeatMessage(n, recent[0]));
      }
    }
    if |h| >= m * 2 {
      var hi := if m + 1 < |h| / 2 + 1 then m + 1 else |h| / 2 + 1;
      var found, c := SmallestCycle(h, hi);
      if found {
        ReportsCycle(h, n, m, c);
        return Some(CycleMessage(c));
      }
    }
    ReportsNothing(h, n, m);
    return None;
  }

  /** The `for cycle_len in range(2, hi)` loop: the first length whose two newest runs agree. */
  method SmallestCycle(h: seq<string>, hi: nat) returns (found: bool, c: nat)
    requires hi <= |h| / 2 + 1
    ensures found ==> 2 <= c < hi && CycleAt(h, c)
    ensures found ==> forall d :: 2 <= d < c ==> !CycleAt(h, d)
    ensures !found ==> forall d :: 2 <= d < hi ==> !CycleAt(h, d)
  {
    c := 2;
    while c < hi
      invariant 2 <= c
      invariant forall d :: 2 <= d < c ==> !CycleAt(h, d)
    {
      var recent := h[|h| - c * 2..];
      assert h[|h| - 2 * c..|h| - c] == recent[..c] && h[|h| - c..] == recent[c..];
      if recent[..c] == recent[c..] {
        return true, c;
      }
      c := c + 1;
    }
    return false, c;
  }

  class LoopDetector {
    const maxExactRepeats: nat
    const maxCycleLength: nat
    var history: seq<string>

    ghost predicate Valid()
      reads this
    {
      |history| <= Capacity
    }

    constructor (maxExactRepeats: nat := 3, maxCycleLength: nat := 3)
      ensures Valid() && history == []
      ensures this.maxExactRepeats == maxExactRepeats && this.maxCycleLength == maxCycleLength
    {
      this.maxExactRepeats := maxExactRepeats;
      this.maxCycleLength := maxCycleLength;
      history := [];
    }

    /** `record_action`: appends the action's signature to the bounded history. */
    method RecordAction(actionType: string, toolName: Option<string>, args: Option<Json.Value>,
                        text: Option<string>, show: Json.Value -> string)
      requires Valid()
      modifies this
      ensures Valid()
      ensures history == Pushed(old(history), Signature(actionType, toolName, args, text, show))
    {
      var signature := BuildSignature(actionType, toolName, args, text, show);
      history := Pushed(history, signature);
    }

    /** `check_for_loop`: the exact-repeat check first, then cycle lengths from 2 upwards. */
    method CheckForLoop() returns (r: Option<string>)
      ensures DescribesLoop(history, maxExactRepeats, maxCycleLength, r)
    {
      r := FindLoop(history, maxExactRepeats, maxCycleLength);
    }

    /** `clear`. */
    method Clear()
      modifies this
      ensures Valid() && history == []
    {
      history := [];
    }
  }

  /** After `clear()` nothing is reported, whatever the thresholds. */
  lemma ClearedReportsNothing(n: nat, m: nat, r: Option<string>)
    requires DescribesLoop([], n, m, r)
    ensures r == None
  {
  }

  /** Recording four actions A, B, A, B into a fresh history keeps exactly those four. */
  lemma FreshHistoryAfterFour(a: string, b: string)
    ensures Pushed(Pushed(Pushed(Pushed([], a), b), a), b) == [a, b, a, b]
  {
  }

  /**
   * With the default thresholds, A, B, A, B is not reported: four entries are too few for the
   * cycle check, and the newest three are not all the same.
   */
  lemma AlternatingFourNotReported(a: string, b: string, r: Option<string>)
    requires a != b
    requires DescribesLoop([a, b, a, b], 3, 3, r)
    ensures r == None
  {
    var h := [a, b, a, b];
    assert Recent(h, 3)[0] != Recent(h, 3)[1];
  }

  /**
   * With the default thresholds, A, B, C, A, B, C is reported as a cycle of length 3 (and,
   * by `DescribesLoopUnique`, as nothing else).
   */
  lemma ThreeCycleReported(a: string, b: string, c: string)
    requires a != b && b != c && a != c
    ensures DescribesLoop([a, b, c, a, b, c], 3, 3, Some(CycleMessage(3)))
  {
    var h := [a, b, c, a, b, c];
    assert Recent(h, 3)[1] != Recent(h, 3)[0];
    CycleByElements(h, 3);
    NoCycleAtElement(h, 2, 0);
    ReportsCycle(h, 3, 3, 3);
  }

  /** The two newest runs agree when they agree position by position. */
  lemma CycleByElements(h: seq<string>, c: nat)
    requires 2 * c <= |h|
    requires forall j | |h| - c <= j < |h| :: h[j - c] == h[j]
    ensures CycleAt(h, c)
  {
    var x, y := h[|h| - 2 * c..|h| - c], h[|h| - c..];
    forall i | 0 <= i < c
      ensures x[i] == y[i]
    {
      var j := |h| - c + i;
      assert x[i] == h[j - c] && y[i] == h[j];
    }
  }

  /** One position where the two newest runs differ rules the cycle length out. */
  lemma NoCycleAtElement(h: seq<string>, c: nat, i: nat)
    requires 2 * c <= |h| && i < c
    requires h[|h| - 2 * c + i] != h[|h| - c + i]
    ensures !CycleAt(h, c)
  {
    assert h[|h| - 2 * c..|h| - c][i] == h[|h| - 2 * c + i];
    assert h[|h| - c..][i] == h[|h| - c + i];
  }
}
