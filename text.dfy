/**
 * Token counting and truncation (core/utils/text.py). The encoder of the tokenizer is the
 * parameter `encode`, which answers `None` where the Python encoder raises; truncation takes
 * the resulting counter as the parameter `count`.
 */
module Text {
  import opened Wrappers
  import Strings

  const CharsPerToken: nat := 4
  const MinTokenCount: nat := 1
  const DefaultSuffix := "\n... [truncated]"

  /** `_estimate_tokens`: a quarter of the length, and never less than one. */
  function EstimateTokens(text: string): (n: nat)
    ensures n >= MinTokenCount
    ensures n * CharsPerToken <= |text| || n == MinTokenCount
    ensures |text| < (n + 1) * CharsPerToken
  {
    if |text| / CharsPerToken < MinTokenCount then MinTokenCount else |text| / CharsPerToken
  }

  /** `count_tokens`: nothing for the empty text, the encoder's length, or the estimate when it fails. */
  function CountTokens(encode: string -> Option<nat>, text: string): (n: nat)
    ensures text == [] ==> n == 0
    ensures text != [] ==> n >= 1 || encode(text) == Some(0)
    ensures text != [] && encode(text).Some? ==> n == encode(text).value
    ensures text != [] && encode(text).None? ==> n == EstimateTokens(text)
  {
    if text == [] then 0
    else match encode(text)
      case Some(k) => k
      case None => EstimateTokens(text)
  }

  // ---------------------------------------------------------------------------------------
  // Character mode

  /**
   * `low` is where the binary search of `_truncate_by_chars` can stop: the prefix of that
   * length fits (or is empty) and the one a character longer does not (or is the whole text).
   */
  predicate IsCut(count: string -> nat, text: string, target: int, low: nat)
  {
    low <= |text|
    && (low == 0 || count(text[..low]) <= target)
    && (low == |text| || count(text[..low + 1]) > target)
  }

  /** The result of character mode: a cut prefix followed by the suffix. */
  ghost predicate CharCut(count: string -> nat, text: string, target: int, suffix: string, r: string)
  {
    exists low: nat :: IsCut(count, text, target, low) && r == text[..low] + suffix
  }

  /** A counter that never decreases as a prefix of `text` grows. */
  predicate MonotoneOn(count: string -> nat, text: string)
  {
    forall i, j | 0 <= i <= j <= |text| :: count(text[..i]) <= count(text[..j])
  }

  /** `_truncate_by_chars`: the binary search over prefix lengths, then the suffix. */
  method TruncateByChars(text: string, target: int, suffix: string, count: string -> nat) returns (r: string)
    ensures CharCut(count, text, target, suffix, r)
  {
    var low, high := 0, |text|;
    while low < high
      invariant 0 <= low <= high <= |text|
      invariant low == 0 || count(text[..low]) <= target
      invariant high == |text| || count(text[..high + 1]) > target
      decreases high - low
    {
      var mid := (low + high + 1) / 2;
      if count(text[..mid]) <= target {
        low := mid;
      } else {
        high := mid - 1;
      }
    }
    assert IsCut(count, text, target, low);
    r := text[..low] + suffix;
  }

  /**
   * With a counter monotone on the prefixes of the text and an empty prefix that fits, the cut
   * is the longest prefix that fits.
   */
  lemma CutIsLongestFit(count: string -> nat, text: string, target: int, low: nat)
    requires MonotoneOn(count, text) && count(text[..0]) <= target
    requires IsCut(count, text, target, low)
    ensures count(text[..low]) <= target
    ensures forall k | low < k <= |text| :: count(text[..k]) > target
  {
    forall k | low < k <= |text|
      ensures count(text[..k]) > target
    {
      assert count(text[..low + 1]) <= count(text[..k]);
    }
  }

  /** Under a monotone counter the binary search has only one place to stop. */
  lemma CutUnique(count: string -> nat, text: string, target: int, a: nat, b: nat)
    requires MonotoneOn(count, text) && count(text[..0]) <= target
    requires IsCut(count, text, target, a) && IsCut(count, text, target, b)
    ensures a == b
  {
    CutIsLongestFit(count, text, target, a);
    CutIsLongestFit(count, text, target, b);
  }

  // ---------------------------------------------------------------------------------------
  // Line mode

  /** `text.split("\n")`. */
  function Lines(text: string): (ls: seq<string>)
    ensures |ls| >= 1
  {
    Strings.SplitOn(text, "\n")
  }

  /** The tokens of the lines, each counted with its newline. */
  function LinesCost(count: string -> nat, lines: seq<string>): nat
  {
    if lines == [] then 0 else LinesCost(count, lines[..|lines| - 1]) + count(lines[|lines| - 1] + "\n")
  }

  lemma LinesCostStep(count: string -> nat, lines: seq<string>, i: nat)
    requires i < |lines|
    ensures LinesCost(count, lines[..i + 1]) == LinesCost(count, lines[..i]) + count(lines[i] + "\n")
  {
    assert lines[..i + 1][..i] == lines[..i];
  }

  /** Longer prefixes of the lines cost at least as much. */
  lemma {:induction false} LinesCostMonotone(count: string -> nat, lines: seq<string>, i: nat, j: nat)
    requires i <= j <= |lines|
    ensures LinesCost(count, lines[..i]) <= LinesCost(count, lines[..j])
    decreases j - i
  {
    if i < j {
      LinesCostStep(count, lines, j - 1);
      LinesCostMonotone(count, lines, i, j - 1);
    }
  }

  /** How many lines the `for line in lines` loop keeps, counting on from line `i`. */
  function KeptFrom(count: string -> nat, lines: seq<string>, target: int, i: nat): (k: nat)
    requires i <= |lines|
    ensures i <= k <= |lines|
    ensures k == |lines| || LinesCost(count, lines[..k + 1]) > target
    ensures k > i ==> LinesCost(count, lines[..k]) <= target
    decreases |lines| - i
  {
    if i < |lines| && LinesCost(count, lines[..i + 1]) <= target then KeptFrom(count, lines, target, i + 1) else i
  }

  function Kept(count: string -> nat, lines: seq<string>, target: int): nat
  {
    KeptFrom(count, lines, target, 0)
  }

  /** The kept lines are the longest prefix of the lines whose cost fits the target. */
  lemma KeptIsLongest(count: string -> nat, lines: seq<string>, target: int)
    requires target >= 0
    ensures LinesCost(count, lines[..Kept(count, lines, target)]) <= target
    ensures forall j | Kept(count, lines, target) < j <= |lines| :: LinesCost(count, lines[..j]) > target
  {
    var k := Kept(count, lines, target);
    forall j | k < j <= |lines|
      ensures LinesCost(count, lines[..j]) > target
    {
      LinesCostMonotone(count, lines, k + 1, j);
    }
  }

  /** The `for line in lines` loop of `_truncate_by_lines`, which stops at the first line that does not fit. */
  method KeepLines(lines: seq<string>, target: int, count: string -> nat) returns (resultLines: seq<string>)
    ensures resultLines == lines[..Kept(count, lines, target)]
  {
    resultLines := [];
    var current := 0;
    var i := 0;
    while i < |lines|
      invariant 0 <= i <= |lines| && resultLines == lines[..i]
      invariant current == LinesCost(count, lines[..i])
      invariant KeptFrom(count, lines, target, i) == Kept(count, lines, target)
    {
      var lineTokens := count(lines[i] + "\n");
      LinesCostStep(count, lines, i);
      if current + lineTokens > target {
        break;
      }
      assert lines[..i + 1] == lines[..i] + [lines[i]];
      resultLines := resultLines + [lines[i]];
      current := current + lineTokens;
      i := i + 1;
    }
    assert KeptFrom(count, lines, target, i) == i;
  }

  /** `_truncate_by_lines`: whole lines while they fit, else character mode. */
  method TruncateByLines(text: string, target: int, suffix: string, count: string -> nat) returns (r: string)
    ensures Kept(count, Lines(text), target) > 0 ==>
              r == Strings.Join("\n", Lines(text)[..Kept(count, Lines(text), target)]) + suffix
    ensures Kept(count, Lines(text), target) == 0 ==> CharCut(count, text, target, suffix, r)
  {
    var lines := Strings.SplitOn(text, "\n");
    var resultLines := KeepLines(lines, target, count);
    if |resultLines| == 0 {
      r := TruncateByChars(text, target, suffix, count);
    } else {
      r := Strings.Join("\n", resultLines) + suffix;
    }
  }

  // ---------------------------------------------------------------------------------------
  // truncate

  /** What the truncation modes produce for a positive `target`. */
  ghost predicate Truncated(count: string -> nat, text: string, target: int, suffix: string, preserveLines: bool, r: string)
  {
    if preserveLines && Kept(count, Lines(text), target) > 0
    then r == Strings.Join("\n", Lines(text)[..Kept(count, Lines(text), target)]) + suffix
    else CharCut(count, text, target, suffix, r)
  }

  /** The outcome of `truncate`: the text itself when it fits, the stripped suffix when only the suffix could, else a mode. */
  ghost predicate Truncation(count: string -> nat, text: string, maxTokens: int, suffix: string, preserveLines: bool, r: string)
  {
    && (count(text) <= maxTokens ==> r == text)
    && (count(text) > maxTokens && maxTokens - count(suffix) <= 0 ==> r == Strings.Strip(suffix))
    && (count(text) > maxTokens && maxTokens - count(suffix) > 0 ==>
          Truncated(count, text, maxTokens - count(suffix), suffix, preserveLines, r))
  }

  /** `truncate`. */
  method Truncate(text: string, maxTokens: int, suffix: string, preserveLines: bool, count: string -> nat)
    returns (r: string)
    ensures Truncation(count, text, maxTokens, suffix, preserveLines, r)
  {
    var currentTokens := count(text);
    if currentTokens <= maxTokens {
      return text;
    }
    var suffixTokens := count(suffix);
    var targetTokens := maxTokens - suffixTokens;
    if targetTokens <= 0 {
      return Strings.Strip(suffix);
    }
    if preserveLines {
      r := TruncateByLines(text, targetTokens, suffix, count);
    } else {
      r := TruncateByChars(text, targetTokens, suffix, count);
    }
  }

  /** Joining the first `k` fields of a split gives back a prefix of the text. */
  lemma {:induction false} JoinedLinesArePrefix(s: string, k: nat)
    requires 1 <= k <= |Lines(s)|
    ensures Strings.Join("\n", Lines(s)[..k]) <= s
    decreases |s|
  {
    var parts := Lines(s);
    if |s| < 1 {
      assert parts == [s];
    } else if s[..1] == "\n" {
      var rest := Lines(s[1..]);
      assert parts == [""] + rest;
      if k > 1 {
        JoinedLinesArePrefix(s[1..], k - 1);
        assert parts[..k] == [""] + rest[..k - 1];
        assert Strings.Join("\n", parts[..k]) == "\n" + Strings.Join("\n", rest[..k - 1]);
        assert s == "\n" + s[1..];
      }
    } else {
      var rest := Lines(s[1..]);
      assert parts == [[s[0]] + rest[0]] + rest[1..];
      JoinedLinesArePrefix(s[1..], k);
      assert parts[..k] == [[s[0]] + rest[0]] + rest[1..k];
      assert rest[..k] == [rest[0]] + rest[1..k];
      JoinConsHead(s[0], rest[0], rest[1..k]);
      assert s == [s[0]] + s[1..];
    }
  }

  lemma JoinConsHead(c: char, p: string, ps: seq<string>)
    ensures Strings.Join("\n", [[c] + p] + ps) == [c] + Strings.Join("\n", [p] + ps)
  {
    if ps != [] {
      assert ([[c] + p] + ps)[1..] == ps && ([p] + ps)[1..] == ps;
    }
  }

  /** Truncation only ever keeps a prefix of the text, followed by the suffix. */
  lemma TruncatedKeepsPrefix(count: string -> nat, text: string, target: int, suffix: string, preserveLines: bool, r: string)
    requires Truncated(count, text, target, suffix, preserveLines, r)
    ensures exists p: string :: p <= text && r == p + suffix
  {
    var lines := Lines(text);
    var k := Kept(count, lines, target);
    if preserveLines && k > 0 {
      JoinedLinesArePrefix(text, k);
      var p := Strings.Join("\n", lines[..k]);
      assert p <= text && r == p + suffix;
    } else {
      var low: nat :| IsCut(count, text, target, low) && r == text[..low] + suffix;
      assert text[..low] <= text;
    }
  }
}
