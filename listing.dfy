/**
 * The `for key, value in sorted(d.items())` listings that the memory and dependency tools print:
 * a heading, then one indented "key: value" line per entry, in increasing key order.
 */
module Listing {
  import Strings

  /** `f"  {key}: {value}"`. */
  function EntryLine(key: string, value: string): string
  {
    "  " + key + ": " + value
  }

  /** One entry line per key of `ks`, in that order. */
  function Entries(ks: seq<string>, d: map<string, string>): (r: seq<string>)
    requires forall k | k in ks :: k in d
    ensures |r| == |ks|
  {
    seq(|ks|, i requires 0 <= i < |ks| => EntryLine(ks[i], d[ks[i]]))
  }

  /** The entry lines of `sorted(d.items())`; keys are unique, so this is key order. */
  function Lines(d: map<string, string>): (r: seq<string>)
    ensures |r| == |d|
  {
    Entries(Strings.SortedKeys(d.Keys), d)
  }

  /**
   * The listing shows every entry, once, in strictly increasing key order: there is a sorted
   * enumeration `ks` of the keys, and line `i` is the entry of `ks[i]`.
   */
  lemma LinesSorted(d: map<string, string>) returns (ks: seq<string>)
    ensures Strings.StrictlySorted(ks) && |ks| == |Lines(d)|
    ensures forall k :: k in d <==> k in ks
    ensures forall i | 0 <= i < |ks| :: ks[i] in d && Lines(d)[i] == EntryLine(ks[i], d[ks[i]])
    ensures forall k | k in d :: EntryLine(k, d[k]) in Lines(d)
  {
    ks := Strings.SortedKeys(d.Keys);
    EntriesComplete(ks, d);
  }

  /** Every key of `ks` has its entry line among `Entries(ks, d)`. */
  lemma EntriesComplete(ks: seq<string>, d: map<string, string>)
    requires forall k | k in ks :: k in d
    ensures forall k | k in ks :: EntryLine(k, d[k]) in Entries(ks, d)
  {
    forall k | k in ks
      ensures EntryLine(k, d[k]) in Entries(ks, d)
    {
      var i :| 0 <= i < |ks| && ks[i] == k;
      assert Entries(ks, d)[i] == EntryLine(k, d[k]);
    }
  }

  /** The heading and the entry lines, joined by newlines. */
  function Render(heading: string, d: map<string, string>): string
  {
    Strings.Join("\n", [heading] + Lines(d))
  }

  /** `"\n".join(lines)` after the loop over `sorted(d.items())`. */
  method RenderLines(heading: string, d: map<string, string>) returns (text: string)
    ensures text == Render(heading, d)
  {
    var lines := AppendEntries([heading], Strings.SortedKeys(d.Keys), d);
    text := Strings.Join("\n", lines);
  }

  /** The loop that appends one entry line per key of `ks` to `lines`. */
  method AppendEntries(lines: seq<string>, ks: seq<string>, d: map<string, string>) returns (out: seq<string>)
    requires forall k | k in ks :: k in d
    ensures out == lines + Entries(ks, d)
  {
    out := lines;
    var i := 0;
    while i < |ks|
      invariant i <= |ks|
      invariant out == lines + Entries(ks, d)[..i]
    {
      assert Entries(ks, d)[..i + 1] == Entries(ks, d)[..i] + [EntryLine(ks[i], d[ks[i]])];
      out := out + [EntryLine(ks[i], d[ks[i]])];
      i := i + 1;
    }
    assert Entries(ks, d)[..i] == Entries(ks, d);
  }
}
