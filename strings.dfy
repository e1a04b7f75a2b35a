/**
 * The handful of Python `str` operations the core relies on, over `seq<char>`.
 * Case mapping and whitespace are the ASCII ones; Python's Unicode tables are not modelled.
 */
module Strings {

  /** `sep.join(parts)`. */
  function Join(sep: string, parts: seq<string>): (r: string)
    ensures |parts| >= 1 ==> |r| >= |parts[0]| && r[..|parts[0]|] == parts[0]
  {
    if |parts| == 0 then ""
    else if |parts| == 1 then parts[0]
    else parts[0] + sep + Join(sep, parts[1..])
  }

  lemma JoinPair(sep: string, a: string, b: string)
    ensures Join(sep, [a, b]) == a + sep + b
  {
    assert [a, b][1..] == [b];
  }

  lemma JoinTriple(sep: string, a: string, b: string, c: string)
    ensures Join(sep, [a, b, c]) == a + sep + b + sep + c
  {
    assert [a, b, c][1..] == [b, c];
    JoinPair(sep, b, c);
  }

  /** `s[:n]` for a non-negative `n`. */
  function Take(s: string, n: nat): (r: string)
    ensures |r| == if n < |s| then n else |s|
    ensures r <= s
  {
    if n < |s| then s[..n] else s
  }

  predicate OccursAt(sub: string, s: string, i: int)
  {
    0 <= i <= |s| - |sub| && s[i..i + |sub|] == sub
  }

  predicate Occurs(sub: string, s: string)
  {
    exists i | 0 <= i <= |s| - |sub| :: OccursAt(sub, s, i)
  }

  /** `sub in s`, computed by scanning from the left. */
  function Contains(s: string, sub: string): (b: bool)
    ensures b <==> Occurs(sub, s)
    decreases |s|
  {
    if |s| < |sub| then false
    else if s[..|sub|] == sub then assert OccursAt(sub, s, 0); true
    else
      var r := Contains(s[1..], sub);
      OccursShift(s, sub);
      r
  }

  lemma OccursShift(s: string, sub: string)
    requires |s| >= |sub| && s[..|sub|] != sub
    ensures Occurs(sub, s) <==> Occurs(sub, s[1..])
  {
    if Occurs(sub, s) {
      var i :| 0 <= i <= |s| - |sub| && OccursAt(sub, s, i);
      assert s[1..][i - 1..i - 1 + |sub|] == s[i..i + |sub|];
      assert OccursAt(sub, s[1..], i - 1);
    }
    if Occurs(sub, s[1..]) {
      var i :| 0 <= i <= |s[1..]| - |sub| && OccursAt(sub, s[1..], i);
      assert s[i + 1..i + 1 + |sub|] == s[1..][i..i + |sub|];
      assert OccursAt(sub, s, i + 1);
    }
  }

  /** `s.split(sep)` for a non-empty separator: left to right, non-overlapping. */
  function SplitOn(s: string, sep: string): (r: seq<string>)
    requires sep != []
    ensures |r| >= 1
    decreases |s|
  {
    if |s| < |sep| then [s]
    else if s[..|sep|] == sep then [""] + SplitOn(s[|sep|..], sep)
    else
      var rest := SplitOn(s[1..], sep);
      [[s[0]] + rest[0]] + rest[1..]
  }

  /** A text in which the separator does not occur is not split. */
  lemma SplitOnAbsent(s: string, sep: string)
    requires sep != [] && !Occurs(sep, s)
    ensures SplitOn(s, sep) == [s]
    decreases |s|
  {
    if |s| >= |sep| {
      assert s[..|sep|] != sep by {
        if s[..|sep|] == sep {
          assert OccursAt(sep, s, 0);
        }
      }
      OccursShift(s, sep);
      SplitOnAbsent(s[1..], sep);
      assert [s[0]] + s[1..] == s;
    }
  }

  /** One separator between two parts that do not hold it splits into exactly those parts. */
  lemma SplitOnAround(a: string, b: string, sep: string)
    requires sep != [] && sep[0] !in a && !Occurs(sep, b)
    ensures SplitOn(a + sep + b, sep) == [a, b]
    decreases |a|
  {
    var s := a + sep + b;
    if a == [] {
      assert s == sep + b;
      assert s[..|sep|] == sep && s[|sep|..] == b;
      SplitOnAbsent(b, sep);
    } else {
      assert s[0] == a[0] && s[..|sep|][0] != sep[0];
      assert s[1..] == a[1..] + sep + b;
      SplitOnAround(a[1..], b, sep);
      assert [a[0]] + a[1..] == a;
    }
  }

  /** The characters `str.isspace()` accepts in the ASCII range. */
  predicate IsSpace(c: char)
  {
    c == ' ' || c == '\t' || c == '\n' || c == '\r' || c == '\U{B}' || c == '\U{C}'
    || c == '\U{1C}' || c == '\U{1D}' || c == '\U{1E}' || c == '\U{1F}'
  }

  predicate IsBlank(s: string)
  {
    forall i | 0 <= i < |s| :: IsSpace(s[i])
  }

  function LStrip(s: string): (r: string)
    ensures |r| <= |s| && r == s[|s| - |r|..]
    ensures r == [] || !IsSpace(r[0])
    ensures IsBlank(s[..|s| - |r|])
  {
    if s != [] && IsSpace(s[0]) then LStrip(s[1..]) else s
  }

  function RStrip(s: string): (r: string)
    ensures r <= s
    ensures r == [] || !IsSpace(r[|r| - 1])
    ensures IsBlank(s[|r|..])
  {
    if s != [] && IsSpace(s[|s| - 1]) then RStrip(s[..|s| - 1]) else s
  }

  /** `s.strip()`. */
  function Strip(s: string): string
  {
    RStrip(LStrip(s))
  }

  lemma StripBlank(s: string)
    ensures Strip(s) == [] <==> IsBlank(s)
  {
    if IsBlank(s) {
      BlankStripsToEmpty(s);
    }
    if Strip(s) == [] {
      EmptyStripIsBlank(s);
    }
  }

  lemma BlankStripsToEmpty(s: string)
    requires IsBlank(s)
    ensures Strip(s) == []
  {
    LStripHead(s);
  }

  lemma LStripHead(s: string)
    ensures LStrip(s) != [] ==> LStrip(s)[0] == s[|s| - |LStrip(s)|]
  {
    var l := LStrip(s);
    if l != [] {
      assert l == s[|s| - |l|..];
    }
  }

  lemma EmptyStripIsBlank(s: string)
    requires Strip(s) == []
    ensures IsBlank(s)
  {
    var l := LStrip(s);
    assert IsBlank(l[|RStrip(l)|..]);
    assert l == [];
    forall i | 0 <= i < |s| ensures IsSpace(s[i]) {
      assert s[..|s| - |l|][i] == s[i];
    }
  }

  function Lower(c: char): char
  {
    if 'A' <= c <= 'Z' then (c as int + 32) as char else c
  }

  function Upper(c: char): char
  {
    if 'a' <= c <= 'z' then (c as int - 32) as char else c
  }

  /** `s.lower()`. */
  function ToLower(s: string): (r: string)
    ensures |r| == |s|
    ensures forall i | 0 <= i < |s| :: r[i] == Lower(s[i])
  {
    seq(|s|, i requires 0 <= i < |s| => Lower(s[i]))
  }

  /** `s.upper()`. */
  function ToUpper(s: string): (r: string)
    ensures |r| == |s|
    ensures forall i | 0 <= i < |s| :: r[i] == Upper(s[i])
  {
    seq(|s|, i requires 0 <= i < |s| => Upper(s[i]))
  }

  /** `s.capitalize()`: first character upper-cased, the rest lower-cased. */
  function Capitalize(s: string): string
  {
    if s == [] then [] else [Upper(s[0])] + ToLower(s[1..])
  }

  /** Length of the leading run of non-space characters. */
  function WordLength(s: string): (n: nat)
    ensures n <= |s|
    ensures forall i | 0 <= i < n :: !IsSpace(s[i])
    ensures n == |s| || IsSpace(s[n])
  {
    if s == [] || IsSpace(s[0]) then 0 else 1 + WordLength(s[1..])
  }

  /** `s.split()` without a separator: maximal runs of non-space characters. */
  function Words(s: string): (r: seq<string>)
    ensures forall i | 0 <= i < |r| :: r[i] != []
    decreases |s|
  {
    if s == [] then []
    else if IsSpace(s[0]) then Words(s[1..])
    else
      var n := WordLength(s);
      [s[..n]] + Words(s[n..])
  }

  /** `s.split()` is empty exactly for a blank text. */
  lemma WordsOfNonBlank(s: string)
    ensures Words(s) == [] <==> IsBlank(s)
  {
    if s != [] && IsSpace(s[0]) {
      assert IsBlank(s) <==> IsBlank(s[1..]) by {
        if IsBlank(s[1..]) {
          forall i | 0 <= i < |s|
            ensures IsSpace(s[i])
          {
            if i > 0 {
              assert s[1..][i - 1] == s[i];
            }
          }
        }
      }
      WordsOfNonBlank(s[1..]);
    } else if s != [] {
      assert !IsSpace(s[0]);
    }
  }

  function DigitChar(d: nat): char
    requires d < 10
  {
    ['0', '1', '2', '3', '4', '5', '6', '7', '8', '9'][d]
  }

  /** `str(n)` for a natural number. */
  function NatToString(n: nat): (r: string)
    ensures r != []
    ensures forall i | 0 <= i < |r| :: '0' <= r[i] <= '9'
    decreases n
  {
    if n < 10 then [DigitChar(n)] else NatToString(n / 10) + [DigitChar(n % 10)]
  }

  /** `str(i)` for an integer. */
  function IntToString(i: int): string
  {
    if i < 0 then "-" + NatToString(-i) else NatToString(i)
  }

  /** `f"{s:>w}"`: right-aligned in a field of width `w`, spaces on the left. */
  function PadLeft(s: string, w: nat): (r: string)
    ensures |r| == if |s| < w then w else |s|
    ensures forall i | 0 <= i < |r| - |s| :: r[i] == ' '
  {
    if |s| >= w then s else seq(w - |s|, _ => ' ') + s
  }

  /** A padded text is a run of spaces followed by the text itself. */
  lemma PadLeftSplit(s: string, w: nat) returns (spaces: string)
    ensures PadLeft(s, w) == spaces + s
    ensures forall i | 0 <= i < |spaces| :: spaces[i] == ' '
  {
    spaces := if |s| >= w then [] else seq(w - |s|, _ => ' ');
  }

  /** Lexicographic order on code points, as Python compares `str` values. */
  predicate Below(a: string, b: string)
  {
    if a == [] then true
    else if b == [] then false
    else if a[0] != b[0] then a[0] < b[0]
    else Below(a[1..], b[1..])
  }

  lemma BelowRefl(a: string)
    ensures Below(a, a)
  {
    if a != [] { BelowRefl(a[1..]); }
  }

  lemma BelowAntisym(a: string, b: string)
    requires Below(a, b) && Below(b, a)
    ensures a == b
  {
    if a != [] && b != [] && a[0] == b[0] { BelowAntisym(a[1..], b[1..]); }
  }

  lemma BelowTotal(a: string, b: string)
    ensures Below(a, b) || Below(b, a)
  {
    if a != [] && b != [] && a[0] == b[0] { BelowTotal(a[1..], b[1..]); }
  }

  lemma BelowTrans(a: string, b: string, c: string)
    requires Below(a, b) && Below(b, c)
    ensures Below(a, c)
  {
    if a != [] && b != [] && c != [] && a[0] == b[0] && b[0] == c[0] {
      BelowTrans(a[1..], b[1..], c[1..]);
    }
  }

  predicate IsLeast(k: string, ks: set<string>)
  {
    k in ks && forall j | j in ks :: Below(k, j)
  }

  lemma LeastExists(ks: set<string>)
    requires ks != {}
    ensures exists k :: IsLeast(k, ks)
  {
    var x :| x in ks;
    if ks == {x} {
      BelowRefl(x);
      assert IsLeast(x, ks);
    } else {
      LeastExists(ks - {x});
      var m :| IsLeast(m, ks - {x});
      BelowTotal(m, x);
      if Below(m, x) {
        assert IsLeast(m, ks);
      } else {
        forall j | j in ks ensures Below(x, j) {
          if j != x { BelowTrans(x, m, j); } else { BelowRefl(x); }
        }
        assert IsLeast(x, ks);
      }
    }
  }

  lemma LeastUnique(ks: set<string>)
    ensures forall a, b :: IsLeast(a, ks) && IsLeast(b, ks) ==> a == b
  {
    forall a, b | IsLeast(a, ks) && IsLeast(b, ks) ensures a == b {
      BelowAntisym(a, b);
    }
  }

  /** The smallest string of a non-empty finite set. */
  function Least(ks: set<string>): (k: string)
    requires ks != {}
    ensures IsLeast(k, ks)
  {
    LeastExists(ks);
    LeastUnique(ks);
    var k :| IsLeast(k, ks); k
  }

  predicate StrictlySorted(r: seq<string>)
  {
    forall i, j | 0 <= i < j < |r| :: Below(r[i], r[j]) && r[i] != r[j]
  }

  /** `sorted(keys)`: every key once, in increasing order. */
  function SortedKeys(ks: set<string>): (r: seq<string>)
    ensures |r| == |ks|
    ensures forall k :: k in ks <==> k in r
    ensures StrictlySorted(r)
    decreases |ks|
  {
    if ks == {} then [] else
    var k := Least(ks);
    var rest := SortedKeys(ks - {k});
    PrependLeast(k, ks, rest);
    [k] + rest
  }

  /** The least key followed by the sorted others is the sorted whole. */
  lemma PrependLeast(k: string, ks: set<string>, rest: seq<string>)
    requires IsLeast(k, ks)
    requires |rest| == |ks - {k}| && (forall x :: x in ks - {k} <==> x in rest) && StrictlySorted(rest)
    ensures |[k] + rest| == |ks| && (forall x :: x in ks <==> x in [k] + rest) && StrictlySorted([k] + rest)
  {
    var r := [k] + rest;
    forall i, j | 0 <= i < j < |r|
      ensures Below(r[i], r[j]) && r[i] != r[j]
    {
      assert r[j] == rest[j - 1];
      assert rest[j - 1] in ks - {k};
      if i > 0 {
        assert r[i] == rest[i - 1];
      }
    }
  }

  // ---------------------------------------------------------------------------------------
  // `str.splitlines` and digit runs

  /** The line boundaries of `str.splitlines`. */
  predicate IsLineBreak(c: char)
  {
    c == '\n' || c == '\r' || c == '\U{B}' || c == '\U{C}' || c == '\U{1C}' || c == '\U{1D}' || c == '\U{1E}'
    || c == '\U{85}' || c == '\U{2028}' || c == '\U{2029}'
  }

  predicate NoBreaks(s: string)
  {
    forall i | 0 <= i < |s| :: !IsLineBreak(s[i])
  }

  /** Where the first line of `s` ends. */
  function LineEnd(s: string): (i: nat)
    ensures i <= |s| && NoBreaks(s[..i]) && (i < |s| ==> IsLineBreak(s[i]))
  {
    if s == [] then 0
    else if IsLineBreak(s[0]) then 0
    else
      var k := LineEnd(s[1..]);
      assert s[..k + 1] == [s[0]] + s[1..][..k];
      k + 1
  }

  /** `s.splitlines()`: "\r\n" is one boundary, and a final boundary opens no empty line. */
  function SplitLines(s: string): (r: seq<string>)
    ensures forall j | 0 <= j < |r| :: NoBreaks(r[j])
    decreases |s|
  {
    if s == [] then []
    else
      var i := LineEnd(s);
      if i == |s| then [s]
      else
        var next := if s[i] == '\r' && i + 1 < |s| && s[i + 1] == '\n' then i + 2 else i + 1;
        [s[..i]] + SplitLines(s[next..])
  }

  lemma LineEndAt(a: string, b: string)
    requires NoBreaks(a) && (b == [] || IsLineBreak(b[0]))
    ensures LineEnd(a + b) == |a|
    decreases |a|
  {
    if a != [] {
      assert (a + b)[1..] == a[1..] + b;
      LineEndAt(a[1..], b);
    } else {
      assert a + b == b;
    }
  }

  /** Lines without boundaries, the last one non-empty, split back out of their "\n" join. */
  lemma {:induction false} SplitLinesJoin(parts: seq<string>)
    requires |parts| >= 1 && parts[|parts| - 1] != []
    requires forall j | 0 <= j < |parts| :: NoBreaks(parts[j])
    ensures SplitLines(Join("\n", parts)) == parts
  {
    if |parts| == 1 {
      LineEndAt(parts[0], []);
      assert parts[0] + [] == parts[0];
    } else {
      var rest := Join("\n", parts[1..]);
      var s := parts[0] + "\n" + rest;
      assert Join("\n", parts) == s;
      assert s == parts[0] + ("\n" + rest);
      LineEndAt(parts[0], "\n" + rest);
      assert s[..|parts[0]|] == parts[0];
      assert s[|parts[0]| + 1..] == rest;
      SplitLinesJoin(parts[1..]);
      assert parts == [parts[0]] + parts[1..];
    }
  }

  predicate IsDigit(c: char)
  {
    '0' <= c <= '9'
  }

  predicate AllDigits(s: string)
  {
    forall i | 0 <= i < |s| :: IsDigit(s[i])
  }

  /** The first index at or after `i` that does not hold a digit. */
  function DigitRun(s: string, i: nat): (j: nat)
    requires i <= |s|
    ensures i <= j <= |s| && AllDigits(s[i..j]) && (j < |s| ==> !IsDigit(s[j]))
    decreases |s| - i
  {
    if i < |s| && IsDigit(s[i]) then
      var j := DigitRun(s, i + 1);
      assert s[i..j] == [s[i]] + s[i + 1..j];
      j
    else i
  }

  /** `int(s)` on a run of decimal digits. */
  function DigitsValue(s: string): nat
    requires AllDigits(s)
  {
    if s == [] then 0 else 10 * DigitsValue(s[..|s| - 1]) + (s[|s| - 1] as int - '0' as int)
  }

  lemma DigitCharValue(d: nat)
    requires d < 10
    ensures DigitChar(d) as int - '0' as int == d
  {
  }

  /** `int(str(n)) == n`. */
  lemma {:induction false} DigitsOfNat(n: nat)
    ensures DigitsValue(NatToString(n)) == n
    decreases n
  {
    var r := NatToString(n);
    if n < 10 {
      DigitCharValue(n);
    } else {
      DigitsOfNat(n / 10);
      DigitCharValue(n % 10);
      assert r[..|r| - 1] == NatToString(n / 10);
    }
  }

  /** A digit run ends at the first non-digit. */
  lemma {:induction false} DigitRunEnds(s: string, i: nat, k: nat)
    requires i <= k <= |s| && AllDigits(s[i..k]) && (k < |s| ==> !IsDigit(s[k]))
    ensures DigitRun(s, i) == k
    decreases k - i
  {
    if i < k {
      assert s[i] == s[i..k][0];
      assert s[i + 1..k] == s[i..k][1..];
      DigitRunEnds(s, i + 1, k);
    }
  }

  /** The digit run starting a number's decimal text ends where the text does. */
  lemma DigitRunOfNat(n: nat, pre: string, post: string)
    requires post == [] || !IsDigit(post[0])
    ensures DigitRun(pre + NatToString(n) + post, |pre|) == |pre| + |NatToString(n)|
  {
    var r := NatToString(n);
    var s := pre + r + post;
    assert s[|pre|..|pre| + |r|] == r;
    assert |pre| + |r| < |s| ==> s[|pre| + |r|] == post[0];
    DigitRunEnds(s, |pre|, |pre| + |r|);
  }

  // Key orders

  /** No key occurs twice: the key order of a dict. */
  predicate Distinct(s: seq<string>)
  {
    forall i, j | 0 <= i < j < |s| :: s[i] != s[j]
  }

  /** A key order with one entry removed, as `del d[k]` leaves it. */
  function Without(s: seq<string>, x: string): (r: seq<string>)
    ensures forall y :: y in r <==> y in s && y != x
    ensures Distinct(s) ==> Distinct(r)
    ensures |r| <= |s|
  {
    if |s| == 0 then []
    else if s[0] == x then Without(s[1..], x)
    else
      var rest := Without(s[1..], x);
      assert Distinct(s) ==> s[0] !in s[1..];
      [s[0]] + rest
  }

  // Occurrences and case

  /** Some text of `subs` occurs in `text`. */
  predicate ContainsAny(text: string, entries: seq<string>)
  {
    exists i | 0 <= i < |entries| :: Contains(text, entries[i])
  }
  predicate Capital(c: char)
  {
    'A' <= c <= 'Z'
  }
  lemma LowerIsNotCapital(c: char)
    ensures !Capital(Lower(c))
  {
  }
  predicate NoCapitals(s: string)
  {
    forall k | 0 <= k < |s| :: !Capital(s[k])
  }
  lemma LowerHasNoCapitals(s: string)
    ensures NoCapitals(ToLower(s))
  {
    forall k | 0 <= k < |s|
      ensures !Capital(ToLower(s)[k])
    {
      LowerIsNotCapital(s[k]);
    }
  }
  /** A text that lacks one character of `b` does not contain `b`. */
  lemma LacksChar(s: string, b: string, c: char)
    requires c in b && c !in s
    ensures !Contains(s, b)
  {
    forall i | 0 <= i <= |s| - |b|
      ensures !OccursAt(b, s, i)
    {
      assert c !in s[i..i + |b|];
    }
  }
  /** Lower-casing distributes over concatenation. */
  lemma ToLowerAppend(a: string, b: string)
    ensures ToLower(a + b) == ToLower(a) + ToLower(b)
  {
    var l, r := ToLower(a + b), ToLower(a) + ToLower(b);
    forall k | 0 <= k < |l|
      ensures l[k] == r[k]
    {
      if k < |a| {
        assert l[k] == Lower(a[k]);
      } else {
        assert l[k] == Lower(b[k - |a|]);
      }
    }
  }
  /** Lower-casing commutes with dropping a prefix. */
  lemma ToLowerDrop(s: string, i: nat)
    requires i <= |s|
    ensures ToLower(s)[i..] == ToLower(s[i..])
  {
    var a, b := ToLower(s)[i..], ToLower(s[i..]);
    forall k | 0 <= k < |b|
      ensures a[k] == b[k]
    {
      assert a[k] == Lower(s[i + k]);
    }
  }
  /** A text without capitals is its own lower case. */
  lemma ToLowerKeeps(s: string)
    requires NoCapitals(s)
    ensures ToLower(s) == s
  {
  }
  /** Lower-casing keeps an occurrence where it was. */
  lemma LowerKeepsOccurrence(s: string, b: string, i: int)
    requires OccursAt(b, s, i)
    ensures OccursAt(ToLower(b), ToLower(s), i)
  {
    var t := ToLower(s);
    var lb := ToLower(b);
    assert t[i..i + |b|] == lb by {
      forall j | 0 <= j < |b|
        ensures t[i..i + |b|][j] == lb[j]
      {
        assert s[i..i + |b|][j] == b[j];
      }
    }
  }
}
