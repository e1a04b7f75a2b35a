/**
 * The edit tool (core/tools/builtin/edit_file.py): exact-text replacement in one file, the
 * confirmation diff shown beforehand, and the "not found" message that lists similar lines.
 * What `path.exists()` and `read_text` report is the input `file`; a failing `read_text` is the
 * input `readError` and a failing write (`ensure_parent_directory` or `write_text`) the input
 * `writeError`, each the text of the `OSError`.
 */
module EditFile {
  import opened Wrappers
  import Strings
  import Json
  import Paths
  import ToolModels

  const Name := "edit"

  datatype FileState = Missing | Present(content: string)

  /** `EditParams` after validation; `path` is the path string as `pathlib` parses it. */
  datatype EditParams = EditParams(path: Paths.Path, oldString: string, newString: string, replaceAll: bool)

  // Counting and replacing

  /** `s.count(sub)` for a non-empty `sub`: non-overlapping occurrences, scanning from the left. */
  function Count(s: string, sub: string): nat
    requires sub != []
    decreases |s|
  {
    if |s| < |sub| then 0
    else if s[..|sub|] == sub then 1 + Count(s[|sub|..], sub)
    else Count(s[1..], sub)
  }

  /** The count is zero exactly when the text does not occur. */
  lemma {:induction false} CountZeroIff(s: string, sub: string)
    requires sub != []
    ensures Count(s, sub) == 0 <==> !Strings.Occurs(sub, s)
    decreases |s|
  {
    if |s| >= |sub| {
      if s[..|sub|] == sub {
        assert Strings.OccursAt(sub, s, 0);
      } else {
        Strings.OccursShift(s, sub);
        CountZeroIff(s[1..], sub);
      }
    }
  }

  /**
   * `s.replace(find, repl)`: every non-overlapping occurrence, left to right. An empty `find`
   * puts `repl` before every character and at the end.
   */
  function ReplaceAll(s: string, find: string, repl: string): string
    decreases |s|
  {
    if find == [] then (if s == [] then repl else repl + [s[0]] + ReplaceAll(s[1..], find, repl))
    else if |s| < |find| then s
    else if s[..|find|] == find then repl + ReplaceAll(s[|find|..], find, repl)
    else [s[0]] + ReplaceAll(s[1..], find, repl)
  }

  /** `s.replace(find, repl, 1)`: the first occurrence only; an empty `find` puts `repl` in front. */
  function ReplaceFirst(s: string, find: string, repl: string): string
    decreases |s|
  {
    if find == [] then repl + s
    else if |s| < |find| then s
    else if s[..|find|] == find then repl + s[|find|..]
    else [s[0]] + ReplaceFirst(s[1..], find, repl)
  }

  /** The content both the confirmation and the edit compute. */
  function NewContent(content: string, find: string, repl: string, all: bool): string
  {
    if all then ReplaceAll(content, find, repl) else ReplaceFirst(content, find, repl)
  }

  /**
   * Replacing every occurrence keeps the length when both texts are equally long; a longer
   * replacement lengthens and a shorter one shortens any text in which it occurs.
   */
  lemma {:induction false} ReplaceAllLength(s: string, find: string, repl: string)
    requires find != []
    ensures |repl| == |find| ==> |ReplaceAll(s, find, repl)| == |s|
    ensures |repl| > |find| ==> |ReplaceAll(s, find, repl)| >= |s| + (if Count(s, find) > 0 then 1 else 0)
    ensures |repl| < |find| ==> |ReplaceAll(s, find, repl)| + (if Count(s, find) > 0 then 1 else 0) <= |s|
    decreases |s|
  {
    if |s| < |find| {
    } else if s[..|find|] == find {
      ReplaceAllLength(s[|find|..], find, repl);
    } else {
      ReplaceAllLength(s[1..], find, repl);
    }
  }

  /** Text without an occurrence comes back unchanged from either replacement. */
  lemma {:induction false} ReplaceAbsent(s: string, find: string, repl: string)
    requires find != [] && Count(s, find) == 0
    ensures ReplaceAll(s, find, repl) == s && ReplaceFirst(s, find, repl) == s
    decreases |s|
  {
    if |s| >= |find| {
      ReplaceAbsent(s[1..], find, repl);
      assert s == [s[0]] + s[1..];
    }
  }

  lemma {:induction false} OccursAtTail(s: string, find: string, j: int)
    requires s != [] && j > 0
    ensures Strings.OccursAt(find, s, j) <==> Strings.OccursAt(find, s[1..], j - 1)
  {
    if j <= |s| - |find| {
      var here, there := s[j..j + |find|], s[1..][j - 1..j - 1 + |find|];
      forall k | 0 <= k < |find|
        ensures here[k] == there[k]
      {
        assert there[k] == s[1..][j - 1 + k] == s[j + k];
      }
      assert here == there;
    }
  }

  /**
   * `replace(find, repl, 1)` rewrites exactly the leftmost occurrence: the text before it,
   * then `repl`, then the text after it.
   */
  lemma {:induction false} ReplaceFirstAt(s: string, find: string, repl: string) returns (i: nat)
    requires find != [] && Count(s, find) >= 1
    ensures Strings.OccursAt(find, s, i)
    ensures forall j | 0 <= j < i :: !Strings.OccursAt(find, s, j)
    ensures ReplaceFirst(s, find, repl) == s[..i] + repl + s[i + |find|..]
    decreases |s|
  {
    if s[..|find|] == find {
      i := 0;
    } else {
      var k := ReplaceFirstAt(s[1..], find, repl);
      i := k + 1;
      ReplaceFirstShift(s, find, repl, k);
    }
  }

  /** The step of `ReplaceFirstAt` past a first character that does not start `find`. */
  lemma {:induction false} ReplaceFirstShift(s: string, find: string, repl: string, k: nat)
    requires find != [] && |s| >= |find| && s[..|find|] != find
    requires Strings.OccursAt(find, s[1..], k)
    requires forall j | 0 <= j < k :: !Strings.OccursAt(find, s[1..], j)
    requires ReplaceFirst(s[1..], find, repl) == s[1..][..k] + repl + s[1..][k + |find|..]
    ensures Strings.OccursAt(find, s, k + 1)
    ensures forall j | 0 <= j < k + 1 :: !Strings.OccursAt(find, s, j)
    ensures ReplaceFirst(s, find, repl) == s[..k + 1] + repl + s[k + 1 + |find|..]
  {
    OccursAtTail(s, find, k + 1);
    forall j | 0 < j < k + 1
      ensures !Strings.OccursAt(find, s, j)
    {
      OccursAtTail(s, find, j);
    }
    assert !Strings.OccursAt(find, s, 0) by {
      assert s[0..|find|] == s[..|find|];
    }
    calc {
      ReplaceFirst(s, find, repl);
      [s[0]] + ReplaceFirst(s[1..], find, repl);
      [s[0]] + (s[1..][..k] + repl + s[1..][k + |find|..]);
      { assert [s[0]] + s[1..][..k] == s[..k + 1]; assert s[1..][k + |find|..] == s[k + 1 + |find|..]; }
      s[..k + 1] + repl + s[k + 1 + |find|..];
    }
  }

  /** With a single occurrence, replacing all and replacing the first agree. */
  lemma {:induction false} ReplaceUnique(s: string, find: string, repl: string)
    requires find != [] && Count(s, find) == 1
    ensures ReplaceAll(s, find, repl) == ReplaceFirst(s, find, repl)
    decreases |s|
  {
    if s[..|find|] == find {
      ReplaceAbsent(s[|find|..], find, repl);
    } else {
      ReplaceUnique(s[1..], find, repl);
    }
  }

  /** Replacing a text by itself changes nothing. */
  lemma {:induction false} ReplaceBySelf(s: string, find: string)
    requires find != []
    ensures ReplaceAll(s, find, find) == s && ReplaceFirst(s, find, find) == s
    decreases |s|
  {
    if |s| >= |find| {
      if s[..|find|] == find {
        ReplaceBySelf(s[|find|..], find);
        assert s == s[..|find|] + s[|find|..];
      } else {
        ReplaceBySelf(s[1..], find);
        assert s == [s[0]] + s[1..];
      }
    }
  }

  /** Same-length replacements of a present text by a different one change the text. */
  lemma {:induction false} ReplaceAllChanges(s: string, find: string, repl: string)
    requires find != [] && Count(s, find) >= 1 && |repl| == |find| && repl != find
    ensures ReplaceAll(s, find, repl) != s
    decreases |s|
  {
    if s[..|find|] == find {
      assert ReplaceAll(s, find, repl)[..|find|] == repl;
    } else {
      ReplaceAllChanges(s[1..], find, repl);
      assert ReplaceAll(s, find, repl)[1..] == ReplaceAll(s[1..], find, repl);
    }
  }

  /**
   * Where the text occurs, the edit leaves the content as it was exactly when `old_string`
   * equals `new_string`: the "No change made" error fires for that case and only for it.
   */
  lemma {:induction false} NoChangeExactlyWhenEqual(s: string, find: string, repl: string, all: bool)
    requires find != [] && Count(s, find) >= 1
    ensures NewContent(s, find, repl, all) == s <==> repl == find
  {
    if repl == find {
      ReplaceBySelf(s, find);
    } else if all {
      ReplaceAllLength(s, find, repl);
      if |repl| == |find| {
        ReplaceAllChanges(s, find, repl);
      }
    } else {
      var i := ReplaceFirstAt(s, find, repl);
      if |repl| == |find| {
        assert ReplaceFirst(s, find, repl)[i..i + |find|] == repl;
        assert s[i..i + |find|] == find;
      } else {
        assert |ReplaceFirst(s, find, repl)| != |s|;
      }
    }
  }

  // The "not found" message

  const PreviewWidth: nat := 80
  const MaxSuggestions: nat := 3

  /** `line.strip()[:80]`. */
  function Preview(line: string): (p: string)
    ensures |p| <= PreviewWidth
  {
    Strings.Take(Strings.Strip(line), PreviewWidth)
  }

  /**
   * Every line `keep` accepts, with its 1-based number and `show` of it, in file order; the
   * tool keeps the lines containing the search term and shows their previews.
   */
  function Hits(lines: seq<string>, keep: string -> bool, show: string -> string): (h: seq<(nat, string)>)
    ensures |h| <= |lines|
  {
    if lines == [] then []
    else
      var init := Hits(lines[..|lines| - 1], keep, show);
      var last := lines[|lines| - 1];
      if keep(last) then init + [(|lines|, show(last))] else init
  }

  /** The test `first_term in line`. */
  function HasTerm(term: string): string -> bool
  {
    line => Strings.Contains(line, term)
  }

  /** The lines `_no_match_error` lists: the first three that contain the term. */
  function Suggestions(lines: seq<string>, term: string): seq<(nat, string)>
  {
    Front(Hits(lines, HasTerm(term), Preview), MaxSuggestions)
  }

  /** The search term: the first whitespace-separated word of `old_string`, if it has one. */
  function FirstTerm(find: string): Option<string>
  {
    var words := Strings.Words(find);
    if words == [] then None else Some(words[0])
  }

  function SuggestionLine(hit: (nat, string)): string
  {
    "\n  Line " + Strings.NatToString(hit.0) + ": " + hit.1
  }

  /** The suggestion lines, in order, each on a line of its own. */
  function SuggestionText(hits: seq<(nat, string)>): string
  {
    if hits == [] then "" else SuggestionText(hits[..|hits| - 1]) + SuggestionLine(hits[|hits| - 1])
  }

  const SimilarHeading := "\n\nPossible similar lines:"
  const SimilarAdvice := "\n\nMake sure old_string matches exactly (including whitespace and indentation)."
  const GeneralAdvice := " Make sure the text matches exactly, including:\n- All whitespace and indentation\n"
                         + "- Line breaks\n- Any invisible characters\n"
                         + "Try re-reading the file using read_file tool and then editing."

  /** The whole "old_string not found" error text. */
  function NoMatchMessage(find: string, content: string, path: Paths.Path): string
  {
    var term := FirstTerm(find);
    var hits := if term.Some? then Suggestions(Strings.SplitLines(content), term.value) else [];
    var head := "old_string not found in " + Paths.Show(path) + ".";
    if hits != [] then head + SimilarHeading + SuggestionText(hits) + SimilarAdvice else head + GeneralAdvice
  }

  lemma {:induction false} HitsStep(lines: seq<string>, i: nat, keep: string -> bool, show: string -> string)
    requires i < |lines|
    ensures Hits(lines[..i + 1], keep, show)
            == Hits(lines[..i], keep, show) + (if keep(lines[i]) then [(i + 1, show(lines[i]))] else [])
  {
    var next := lines[..i + 1];
    assert next[..|next| - 1] == lines[..i] && next[|next| - 1] == lines[i];
  }

  /** The hits among the first `k` lines are the first hits of the whole file. */
  lemma {:induction false} HitsPrefix(lines: seq<string>, k: nat, keep: string -> bool, show: string -> string)
    requires k <= |lines|
    ensures Hits(lines[..k], keep, show) <= Hits(lines, keep, show)
    decreases |lines| - k
  {
    if k < |lines| {
      HitsPrefix(lines, k + 1, keep, show);
      HitsStep(lines, k, keep, show);
    } else {
      assert lines[..k] == lines;
    }
  }

  /** Each hit names a line `keep` accepts, with `show` of that line. */
  lemma {:induction false} HitsAccepted(lines: seq<string>, keep: string -> bool, show: string -> string)
    ensures forall j | 0 <= j < |Hits(lines, keep, show)| ::
              var hit := Hits(lines, keep, show)[j];
              1 <= hit.0 <= |lines| && keep(lines[hit.0 - 1]) && hit.1 == show(lines[hit.0 - 1])
  {
    if lines != [] {
      var init := lines[..|lines| - 1];
      HitsAccepted(init, keep, show);
      var hi := Hits(init, keep, show);
      var h := Hits(lines, keep, show);
      forall j | 0 <= j < |h|
        ensures 1 <= h[j].0 <= |lines| && keep(lines[h[j].0 - 1]) && h[j].1 == show(lines[h[j].0 - 1])
      {
        if j < |hi| {
          assert h[j] == hi[j];
          assert init[hi[j].0 - 1] == lines[hi[j].0 - 1];
        }
      }
    }
  }

  /** The hits come in increasing line order. */
  lemma {:induction false} HitsIncreasing(lines: seq<string>, keep: string -> bool, show: string -> string)
    ensures forall j, k | 0 <= j < k < |Hits(lines, keep, show)| :: Hits(lines, keep, show)[j].0 < Hits(lines, keep, show)[k].0
  {
    if lines != [] {
      var init := lines[..|lines| - 1];
      HitsIncreasing(init, keep, show);
      HitsAccepted(init, keep, show);
      var hi := Hits(init, keep, show);
      var h := Hits(lines, keep, show);
      assert forall j | 0 <= j < |hi| :: h[j] == hi[j];
      assert forall j | 0 <= j < |hi| :: hi[j].0 <= |init|;
    }
  }

  /** Every line `keep` accepts is among the hits. */
  lemma {:induction false} HitsComplete(lines: seq<string>, keep: string -> bool, show: string -> string)
    ensures forall i | 0 <= i < |lines| && keep(lines[i]) :: ((i + 1) as nat, show(lines[i])) in Hits(lines, keep, show)
  {
    if lines != [] {
      var init := lines[..|lines| - 1];
      HitsComplete(init, keep, show);
      forall i | 0 <= i < |init| && keep(lines[i])
        ensures ((i + 1) as nat, show(lines[i])) in Hits(lines, keep, show)
      {
        assert init[i] == lines[i];
      }
    }
  }

  /** At most the first `m` entries of `h`. */
  function Front<T>(h: seq<T>, m: nat): (s: seq<T>)
    ensures |s| <= m && s <= h
    ensures |s| < m ==> s == h
  {
    if |h| <= m then h else h[..m]
  }

  /** No accepted line is skipped before the last of the first `m` hits, nor at all if there are fewer. */
  lemma {:induction false} FrontComplete(lines: seq<string>, keep: string -> bool, show: string -> string, m: nat)
    requires m >= 1
    ensures forall i | 0 <= i < |lines| && keep(lines[i])
                       && (|Front(Hits(lines, keep, show), m)| < m || i < Front(Hits(lines, keep, show), m)[m - 1].0) ::
              ((i + 1) as nat, show(lines[i])) in Front(Hits(lines, keep, show), m)
  {
    HitsIncreasing(lines, keep, show);
    HitsComplete(lines, keep, show);
    var h := Hits(lines, keep, show);
    var s := Front(h, m);
    forall i | 0 <= i < |lines| && keep(lines[i]) && (|s| < m || i < s[m - 1].0)
      ensures ((i + 1) as nat, show(lines[i])) in s
    {
      var j :| 0 <= j < |h| && h[j] == ((i + 1) as nat, show(lines[i]));
      assert h[j] == s[j];
    }
  }

  /**
   * The suggestions are at most three lines containing the term, in file order, each with its
   * 1-based number and preview; no such line is skipped before the last one listed, and with
   * fewer than three every such line is listed.
   */
  lemma {:induction false} SuggestionsAreHits(lines: seq<string>, term: string)
    ensures |Suggestions(lines, term)| <= MaxSuggestions
    ensures forall j | 0 <= j < |Suggestions(lines, term)| ::
              var hit := Suggestions(lines, term)[j];
              1 <= hit.0 <= |lines| && Strings.Contains(lines[hit.0 - 1], term) && hit.1 == Preview(lines[hit.0 - 1])
  {
    var keep := HasTerm(term);
    FrontAccepted(lines, keep, Preview, MaxSuggestions);
    var s := Suggestions(lines, term);
    forall j | 0 <= j < |s|
      ensures 1 <= s[j].0 <= |lines| && Strings.Contains(lines[s[j].0 - 1], term) && s[j].1 == Preview(lines[s[j].0 - 1])
    {
      assert keep(lines[s[j].0 - 1]);
    }
  }

  /** Each of the first `m` hits names a line `keep` accepts, with `show` of that line. */
  lemma FrontAccepted(lines: seq<string>, keep: string -> bool, show: string -> string, m: nat)
    ensures forall j | 0 <= j < |Front(Hits(lines, keep, show), m)| ::
              var hit := Front(Hits(lines, keep, show), m)[j];
              1 <= hit.0 <= |lines| && keep(lines[hit.0 - 1]) && hit.1 == show(lines[hit.0 - 1])
  {
    HitsAccepted(lines, keep, show);
    var h := Hits(lines, keep, show);
    var s := Front(h, m);
    assert forall j | 0 <= j < |s| :: s[j] == h[j];
  }

  /** The suggestions come in file order. */
  lemma {:induction false} SuggestionsInOrder(lines: seq<string>, term: string)
    ensures forall j, k | 0 <= j < k < |Suggestions(lines, term)| :: Suggestions(lines, term)[j].0 < Suggestions(lines, term)[k].0
  {
    var keep := HasTerm(term);
    HitsIncreasing(lines, keep, Preview);
    var h := Hits(lines, keep, Preview);
    var s := Suggestions(lines, term);
    forall j, k | 0 <= j < k < |s|
      ensures s[j].0 < s[k].0
    {
      assert s[j] == h[j] && s[k] == h[k];
    }
  }

  /** No line with the term is passed over: all of them when there are fewer than three. */
  lemma {:induction false} SuggestionsFirst(lines: seq<string>, term: string)
    ensures forall i | 0 <= i < |lines| && Strings.Contains(lines[i], term)
                       && (|Suggestions(lines, term)| < MaxSuggestions || i < Suggestions(lines, term)[MaxSuggestions - 1].0) ::
              ((i + 1) as nat, Preview(lines[i])) in Suggestions(lines, term)
  {
    var keep := HasTerm(term);
    FrontComplete(lines, keep, Preview, MaxSuggestions);
    var s := Suggestions(lines, term);
    forall i | 0 <= i < |lines| && Strings.Contains(lines[i], term) && (|s| < MaxSuggestions || i < s[MaxSuggestions - 1].0)
      ensures ((i + 1) as nat, Preview(lines[i])) in s
    {
      assert keep(lines[i]);
    }
  }

  /**
   * The `for i, line in enumerate(lines, 1)` search, stopping at the third hit; `keep` is the
   * test `first_term in line` and `show` the preview.
   */
  method SimilarLines(lines: seq<string>, keep: string -> bool, show: string -> string) returns (matches: seq<(nat, string)>)
    ensures matches == Front(Hits(lines, keep, show), MaxSuggestions)
  {
    matches := [];
    var i: nat := 0;
    while i < |lines|
      invariant i <= |lines|
      invariant matches == Hits(lines[..i], keep, show)
      invariant |matches| < MaxSuggestions
    {
      HitsStep(lines, i, keep, show);
      if keep(lines[i]) {
        matches := matches + [(i + 1, show(lines[i]))];
        if |matches| >= MaxSuggestions {
          HitsPrefix(lines, i + 1, keep, show);
          return;
        }
      }
      i := i + 1;
    }
    assert lines[..i] == lines;
  }

  /** The `for line_num, line_preview in partial_matches` loop appending one line per hit. */
  method AppendSuggestions(prefix: string, hits: seq<(nat, string)>) returns (msg: string)
    ensures msg == prefix + SuggestionText(hits)
  {
    msg := prefix;
    var j := 0;
    while j < |hits|
      invariant j <= |hits|
      invariant msg == prefix + SuggestionText(hits[..j])
    {
      assert hits[..j + 1][..j] == hits[..j];
      msg := msg + SuggestionLine(hits[j]);
      j := j + 1;
    }
    assert hits[..j] == hits;
  }

  /** `_no_match_error`. */
  method NoMatchError(find: string, content: string, path: Paths.Path) returns (r: ToolModels.ToolResult)
    ensures r == ToolModels.ErrorResult(NoMatchMessage(find, content, path))
  {
    var lines := Strings.SplitLines(content);
    var hits: seq<(nat, string)> := [];
    var term := FirstTerm(find);
    if term.Some? {
      hits := SimilarLines(lines, HasTerm(term.value), Preview);
    }
    var msg := "old_string not found in " + Paths.Show(path) + ".";
    if hits != [] {
      msg := AppendSuggestions(msg + SimilarHeading, hits);
      msg := msg + SimilarAdvice;
    } else {
      msg := msg + GeneralAdvice;
    }
    r := ToolModels.ErrorResult(msg);
  }

  // Confirmation and execution

  /** `get_confirmation`: the diff of a new file, or of the replacement the edit would make. */
  function GetConfirmation(inv: ToolModels.ToolInvocation, p: EditParams, resolve: Paths.Path -> Paths.Path,
                           file: FileState): (c: ToolModels.ToolConfirmation)
    ensures c.toolName == Name && c.params == inv.params && c.diff.Some? && !c.isDangerous && c.command == None
    ensures c.affectedPaths == [Paths.ResolvePath(inv.cwd, p.path, resolve)]
    ensures c.diff.value.isNewFile <==> file.Missing?
    ensures file.Missing? ==> c.diff.value.oldContent == "" && c.diff.value.newContent == p.newString
    ensures file.Present? ==> c.diff.value.oldContent == file.content
                              && c.diff.value.newContent == NewContent(file.content, p.oldString, p.newString, p.replaceAll)
  {
    var path := Paths.ResolvePath(inv.cwd, p.path, resolve);
    match file
    case Missing =>
      ToolModels.ToolConfirmation(Name, inv.params, "Create new file: " + Paths.Show(path),
                                  Some(ToolModels.FileDiff(path, "", p.newString, true, false)), [path], None, false)
    case Present(content) =>
      ToolModels.ToolConfirmation(Name, inv.params, "Edit file: " + Paths.Show(path),
                                  Some(ToolModels.FileDiff(path, content, NewContent(content, p.oldString, p.newString, p.replaceAll),
                                                           false, false)),
                                  [path], None, false)
  }

  /** The " (+n lines)" / " (n lines)" note: empty when the line count is unchanged. */
  function LineDiffNote(lineDiff: int): (s: string)
    ensures s == "" <==> lineDiff == 0
  {
    if lineDiff > 0 then " (+" + Strings.IntToString(lineDiff) + " lines)"
    else if lineDiff < 0 then " (" + Strings.IntToString(lineDiff) + " lines)"
    else ""
  }

  function UniqueMessage(count: nat, path: Paths.Path): string
  {
    "old_string found " + Strings.NatToString(count) + " times in " + Paths.Show(path) + ". Either: \n"
    + "1. Provide more context to make the match unique or\n"
    + "2. Set replace_all=true to replace all occurrences"
  }

  const MissingFileAdvice := ". To create a new file, use an empty old_string."
  const EmptyOldString := "old_string is empty but file exists. Provide old_string to edit, or use write_file to overwrite."
  const NoChange := "No change made - old_string equals new_string"

  /**
   * What the tool reports and writes for an existing file and a non-empty `old_string`: the
   * not-found message, the uniqueness error with the count, or the edit itself.
   */
  predicate EditsExisting(path: Paths.Path, content: string, p: EditParams, writeError: Option<string>,
                          r: ToolModels.ToolResult, written: Option<string>)
    requires p.oldString != ""
  {
    var n := Count(content, p.oldString);
    if n == 0 then written == None && r == ToolModels.ErrorResult(NoMatchMessage(p.oldString, content, path))
    else if n > 1 && !p.replaceAll then
      written == None && r == ToolModels.ErrorResult(UniqueMessage(n, path)).(metadata := map["occurrence_count" := Json.Num(n)])
    else Replaces(path, content, p, writeError, n, r, written)
  }

  /**
   * The edit of `n` occurrences: the no-change error, the write failure, or the new content
   * written with the number of replacements and the change in line count.
   */
  predicate Replaces(path: Paths.Path, content: string, p: EditParams, writeError: Option<string>, n: nat,
                     r: ToolModels.ToolResult, written: Option<string>)
  {
    var next := NewContent(content, p.oldString, p.newString, p.replaceAll);
    if p.newString == p.oldString then written == None && r == ToolModels.ErrorResult(NoChange)
    else if writeError.Some? then written == None && r == ToolModels.ErrorResult("Failed to write file: " + writeError.value)
    else written == Some(next) && r == Edited(path, content, next, if p.replaceAll then n else 1)
  }

  /**
   * The result of a successful edit: the diff from `content` to `next`, the number of
   * replacements and the change in the number of lines.
   */
  function Edited(path: Paths.Path, content: string, next: string, replaced: nat): ToolModels.ToolResult
  {
    var lineDiff := |Strings.SplitLines(next)| - |Strings.SplitLines(content)|;
    ToolModels.ToolResult(
      true,
      "Edited " + Paths.Show(path) + ": replaced " + Strings.NatToString(replaced) + " occurrence(s)" + LineDiffNote(lineDiff),
      None,
      map["path" := Json.Str(Paths.Show(path)), "replaced_count" := Json.Num(replaced), "line_diff" := Json.Num(lineDiff)],
      false,
      Some(ToolModels.FileDiff(path, content, next, false, false)),
      None)
  }

  /** The part of `execute` after the file has been read and `old_string` found non-empty. */
  method EditExisting(path: Paths.Path, content: string, p: EditParams, writeError: Option<string>)
    returns (r: ToolModels.ToolResult, written: Option<string>)
    requires p.oldString != ""
    ensures EditsExisting(path, content, p, writeError, r, written)
  {
    written := None;
    var n := Count(content, p.oldString);
    if n == 0 {
      r := NoMatchError(p.oldString, content, path);
      return;
    }
    if n > 1 && !p.replaceAll {
      r := ToolModels.ErrorResult(UniqueMessage(n, path)).(metadata := map["occurrence_count" := Json.Num(n)]);
      return;
    }
    r, written := Replace(path, content, p, writeError, n);
  }

  /** The replacement, the no-change check and the write. */
  method Replace(path: Paths.Path, content: string, p: EditParams, writeError: Option<string>, n: nat)
    returns (r: ToolModels.ToolResult, written: Option<string>)
    requires p.oldString != "" && n == Count(content, p.oldString) && n >= 1
    ensures Replaces(path, content, p, writeError, n, r, written)
  {
    written := None;
    var next := NewContent(content, p.oldString, p.newString, p.replaceAll);
    var replaced: nat := if p.replaceAll then n else 1;
    NoChangeExactlyWhenEqual(content, p.oldString, p.newString, p.replaceAll);
    if next == content {
      r := ToolModels.ErrorResult(NoChange);
      return;
    }
    assert p.newString != p.oldString;
    if writeError.Some? {
      r := ToolModels.ErrorResult("Failed to write file: " + writeError.value);
      return;
    }
    written := Some(next);
    r := Edited(path, content, next, replaced);
  }

  /**
   * `EditTool.execute`. `written` is what the file holds afterwards when the tool writes it.
   * Whenever it writes, it writes exactly the content its confirmation showed. `readError` is
   * the text of an `OSError` raised by `read_text`; raised there, or by `ensure_parent_directory`
   * or `write_text` on a new file, the error escapes `execute` (`Err`), since only the write of
   * an edit is guarded.
   */
  method Execute(inv: ToolModels.ToolInvocation, p: EditParams, resolve: Paths.Path -> Paths.Path,
                 file: FileState, readError: Option<string>, writeError: Option<string>)
    returns (r: Result<ToolModels.ToolResult, string>, written: Option<string>)
    ensures var c := GetConfirmation(inv, p, resolve, file);
            written.Some? ==> r.Ok? && written.value == c.diff.value.newContent && (r.value.success ==> r.value.diff == c.diff)
    ensures var path := Paths.ResolvePath(inv.cwd, p.path, resolve);
            && (file.Missing? && p.oldString != "" ==>
                  written == None && r == Ok(ToolModels.ErrorResult("File does not exist: " + Paths.Show(path) + MissingFileAdvice)))
            && (file.Missing? && p.oldString == "" && writeError.Some? ==> written == None && r == Err(writeError.value))
            && (file.Missing? && p.oldString == "" && writeError.None? ==>
                  written == Some(p.newString) && r.Ok? && r.value.success
                  && r.value.output == "Created " + Paths.Show(path) + " " + Strings.NatToString(|Strings.SplitLines(p.newString)|) + " lines"
                  && r.value.metadata == map["path" := Json.Str(Paths.Show(path)), "is_new_file" := Json.Bool(true),
                                             "lines" := Json.Num(|Strings.SplitLines(p.newString)|)])
            && (file.Present? && readError.Some? ==> written == None && r == Err(readError.value))
            && (file.Present? && readError.None? && p.oldString == "" ==>
                  written == None && r == Ok(ToolModels.ErrorResult(EmptyOldString)))
            && (file.Present? && readError.None? && p.oldString != "" ==>
                  r.Ok? && EditsExisting(path, file.content, p, writeError, r.value, written))
  {
    var path := Paths.ResolvePath(inv.cwd, p.path, resolve);
    written := None;
    if file.Missing? {
      if p.oldString != "" {
        r := Ok(ToolModels.ErrorResult("File does not exist: " + Paths.Show(path) + MissingFileAdvice));
        return;
      }
      if writeError.Some? {
        r := Err(writeError.value);
        return;
      }
      written := Some(p.newString);
      var lineCount := |Strings.SplitLines(p.newString)|;
      r := Ok(ToolModels.SuccessResult("Created " + Paths.Show(path) + " " + Strings.NatToString(lineCount) + " lines")
              .(diff := Some(ToolModels.FileDiff(path, "", p.newString, true, false)),
                metadata := map["path" := Json.Str(Paths.Show(path)), "is_new_file" := Json.Bool(true),
                                "lines" := Json.Num(lineCount)]));
      return;
    }
    if readError.Some? {
      r := Err(readError.value);
      return;
    }
    if p.oldString == "" {
      r := Ok(ToolModels.ErrorResult(EmptyOldString));
      return;
    }
    var result;
    result, written := EditExisting(path, file.content, p, writeError);
    r := Ok(result);
  }
}
