/**
 * UI helpers (core/ui/helpers.py): parsing read_file output back into code, the language of a
 * path's suffix, and the display order of a tool's arguments. The two regular expressions of
 * `extract_code_from_read_file_output` are written out as scans; `\s` and `\d` are taken in their
 * ASCII sense.
 */
module UiHelpers {
  import opened Wrappers
  import Strings
  import Json
  import Paths
  import ReadFile

  /** `display_path_rel_to_cwd`: the path as given without a cwd, else relative to the cwd when under it. */
  function DisplayPathRelToCwd(path: Paths.Path, cwd: Option<Paths.Path>, processCwd: Paths.Path): (s: string)
    ensures cwd.None? ==> s == Paths.Show(path)
    ensures cwd.Some? && Paths.IsRelativeTo(path, cwd.value) ==> s == Paths.Show(Paths.RelativeTo(path, cwd.value).value)
    ensures cwd.Some? && !Paths.IsRelativeTo(path, cwd.value) ==> s == Paths.Show(path)
  {
    if cwd.None? then Paths.Show(path) else Paths.DisplayPathRelativeToCwd(path, cwd, processCwd)
  }

  // ---------------------------------------------------------------------------------------
  // extract_code_from_read_file_output

  const HeaderStart := "Showing lines "

  /** The first index at or after `i` that is not whitespace. */
  function SpaceRun(s: string, i: nat): (j: nat)
    requires i <= |s|
    ensures i <= j <= |s| && (forall k | i <= k < j :: Strings.IsSpace(s[k])) && (j < |s| ==> !Strings.IsSpace(s[j]))
    decreases |s| - i
  {
    if i < |s| && Strings.IsSpace(s[i]) then SpaceRun(s, i + 1) else i
  }

  /** `text[i:]` starts with `p`. */
  predicate StartsAt(text: string, i: nat, p: string)
  {
    i + |p| <= |text| && text[i..i + |p|] == p
  }

  /** Where a non-empty run of digits at `i` followed by `lit` ends, or 0 when there is none. */
  function Field(text: string, i: nat, lit: string): (n: nat)
    requires i <= |text|
    ensures n == 0 || i < n <= |text|
  {
    var e := Strings.DigitRun(text, i);
    if e == i || !StartsAt(text, e, lit) then 0 else e + |lit|
  }

  /**
   * The length of the `^Showing lines (\d+)-(\d+) of (\d+)\n\n` match at the start of `text`, or 0
   * when it does not match. Each digit group ends at the first non-digit, so the match is unique.
   */
  function HeaderLength(text: string): (n: nat)
    ensures n <= |text|
    ensures n > 0 ==> StartsAt(text, 0, HeaderStart)
  {
    if !StartsAt(text, 0, HeaderStart) then 0
    else
      var p := Field(text, |HeaderStart|, "-");
      if p == 0 then 0
      else
        var q := Field(text, p, " of ");
        if q == 0 then 0 else Field(text, q, "\n\n")
  }

  /** `^\s*(\d+)\|(.*)$` on one line: its number and the rest after the bar. */
  function ParseLine(line: string): (r: Option<(nat, string)>)
  {
    var a := SpaceRun(line, 0);
    var b := Strings.DigitRun(line, a);
    if b > a && b < |line| && line[b] == '|' then Some((Strings.DigitsValue(line[a..b]), line[b + 1..]))
    else None
  }

  /** Every line parsed, or `None` as soon as one does not. */
  function ParseAll<T>(lines: seq<string>, parse: string -> Option<T>): (r: Option<seq<T>>)
    ensures r.Some? ==> |r.value| == |lines|
  {
    if lines == [] then Some([])
    else
      var init := ParseAll(lines[..|lines| - 1], parse);
      var last := parse(lines[|lines| - 1]);
      if init.None? || last.None? then None else Some(init.value + [last.value])
  }

  /** The lines parse exactly when each of them does, and then to what each parses to. */
  lemma {:induction false} ParseAllSpec<T>(lines: seq<string>, parse: string -> Option<T>)
    ensures ParseAll(lines, parse).None? <==> exists i | 0 <= i < |lines| :: parse(lines[i]).None?
    ensures ParseAll(lines, parse).Some? ==> forall i | 0 <= i < |lines| :: Some(ParseAll(lines, parse).value[i]) == parse(lines[i])
  {
    if lines != [] {
      var init := lines[..|lines| - 1];
      ParseAllSpec(init, parse);
      assert forall i | 0 <= i < |init| :: init[i] == lines[i];
      if ParseAll(init, parse).None? {
        var i :| 0 <= i < |init| && parse(init[i]).None?;
        assert parse(lines[i]).None?;
      }
    }
  }

  /** One more line extends the parse by what that line parses to. */
  lemma ParseAllStep<T>(lines: seq<string>, parse: string -> Option<T>, i: nat)
    requires i < |lines| && ParseAll(lines[..i], parse).Some?
    ensures parse(lines[i]).None? ==> ParseAll(lines[..i + 1], parse).None?
    ensures parse(lines[i]).Some? ==> ParseAll(lines[..i + 1], parse) == Some(ParseAll(lines[..i], parse).value + [parse(lines[i]).value])
  {
    assert lines[..i + 1][..i] == lines[..i];
  }

  /** Lines that each parse to the matching entry of `ps` parse to `ps`. */
  lemma ParseAllOf<T>(lines: seq<string>, parse: string -> Option<T>, ps: seq<T>)
    requires |lines| == |ps| && forall i | 0 <= i < |lines| :: parse(lines[i]) == Some(ps[i])
    ensures ParseAll(lines, parse) == Some(ps)
  {
    ParseAllSpec(lines, parse);
    var r := ParseAll(lines, parse).value;
    assert forall i | 0 <= i < |lines| :: r[i] == ps[i];
    assert r == ps;
  }

  function Codes(ps: seq<(nat, string)>): (r: seq<string>)
    ensures |r| == |ps| && forall i | 0 <= i < |ps| :: r[i] == ps[i].1
  {
    seq(|ps|, i requires 0 <= i < |ps| => ps[i].1)
  }

  lemma CodesAppend(ps: seq<(nat, string)>, p: (nat, string))
    ensures Codes(ps + [p]) == Codes(ps) + [p.1]
  {
    assert Codes(ps + [p]) == Codes(ps) + [p.1];
  }

  /** What `extract_code_from_read_file_output` returns. */
  function Extracted(text: string): Option<(nat, string)>
  {
    var body := text[HeaderLength(text)..];
    match ParseAll(Strings.SplitLines(body), ParseLine)
    case None => None
    case Some(ps) => if ps == [] then None else Some((ps[0].0, Strings.Join("\n", Codes(ps))))
  }

  /** `extract_code_from_read_file_output`: the loop over the body's lines, stopping at the first that does not parse. */
  method ExtractCode(text: string) returns (r: Option<(nat, string)>)
    ensures r == Extracted(text)
  {
    var body := text[HeaderLength(text)..];
    var lines := Strings.SplitLines(body);
    var codeLines: seq<string> := [];
    var startLine: Option<nat> := None;
    var i := 0;
    while i < |lines|
      invariant 0 <= i <= |lines|
      invariant ParseAll(lines[..i], ParseLine).Some?
      invariant codeLines == Codes(ParseAll(lines[..i], ParseLine).value)
      invariant startLine.None? <==> i == 0
      invariant i > 0 ==> startLine == Some(ParseAll(lines[..i], ParseLine).value[0].0)
    {
      var m := ParseLine(lines[i]);
      ParseAllStep(lines, ParseLine, i);
      if m.None? {
        ParseAllSpec(lines, ParseLine);
        return None;
      }
      var (lineNo, code) := m.value;
      if startLine.None? {
        startLine := Some(lineNo);
      }
      CodesAppend(ParseAll(lines[..i], ParseLine).value, (lineNo, code));
      codeLines := codeLines + [code];
      i := i + 1;
    }
    assert lines[..i] == lines;
    if startLine.None? {
      return None;
    }
    r := Some((startLine.value, Strings.Join("\n", codeLines)));
  }

  /** The output reads as no code exactly when its body has no lines or some line is not a numbered line. */
  lemma ExtractedNone(text: string)
    ensures var lines := Strings.SplitLines(text[HeaderLength(text)..]);
            Extracted(text).None? <==> lines == [] || exists i | 0 <= i < |lines| :: ParseLine(lines[i]).None?
    ensures var lines := Strings.SplitLines(text[HeaderLength(text)..]);
            Extracted(text).Some? ==> lines != [] && ParseLine(lines[0]).Some?
                                      && Extracted(text).value.0 == ParseLine(lines[0]).value.0
  {
    var lines := Strings.SplitLines(text[HeaderLength(text)..]);
    ParseAllSpec(lines, ParseLine);
  }

  // ---------------------------------------------------------------------------------------
  // Reading back read_file output

  /** A line of spaces, digits, a bar and a rest parses to the digits' value and the rest. */
  lemma ParseLineOf(spaces: string, digits: string, rest: string)
    requires Strings.IsBlank(spaces) && digits != [] && Strings.AllDigits(digits)
    ensures ParseLine(spaces + digits + "|" + rest) == Some((Strings.DigitsValue(digits), rest))
  {
    var s := spaces + digits + "|" + rest;
    var a := |spaces|;
    var b := a + |digits|;
    assert s[a] == digits[0];
    SpaceRunEnds(s, 0, a);
    assert s[a..b] == digits;
    assert s[b] == '|';
    Strings.DigitRunEnds(s, a, b);
    assert s[b + 1..] == rest;
  }

  /** A numbered line parses back to its number and its text. */
  lemma ParseFormatLine(n: nat, line: string)
    ensures ParseLine(ReadFile.FormatLine(n, line)) == Some((n, line))
  {
    var spaces := ReadFile.FormatLineSplit(n, line);
    ParseLineOf(spaces, Strings.NatToString(n), line);
    Strings.DigitsOfNat(n);
  }

  lemma {:induction false} SpaceRunEnds(s: string, i: nat, k: nat)
    requires i <= k <= |s| && (forall m | i <= m < k :: Strings.IsSpace(s[m])) && (k < |s| ==> !Strings.IsSpace(s[k]))
    ensures SpaceRun(s, i) == k
    decreases k - i
  {
    if i < k {
      SpaceRunEnds(s, i + 1, k);
    }
  }

  lemma NoBreaksOf(spaces: string, digits: string, line: string)
    requires (forall i | 0 <= i < |spaces| :: spaces[i] == ' ') && Strings.AllDigits(digits) && Strings.NoBreaks(line)
    ensures Strings.NoBreaks(spaces + digits + "|" + line)
  {
    var s := spaces + digits + "|" + line;
    forall k | 0 <= k < |s|
      ensures !Strings.IsLineBreak(s[k])
    {
      if k < |spaces| {
        assert s[k] == spaces[k];
      } else if k < |spaces| + |digits| {
        assert s[k] == digits[k - |spaces|];
      } else if k == |spaces| + |digits| {
        assert s[k] == '|';
      } else {
        assert s[k] == line[k - |spaces| - |digits| - 1];
      }
    }
  }

  /** A numbered line is not empty, and has no line boundary unless its text has one. */
  lemma FormatLineHasNoBreaks(n: nat, line: string)
    requires Strings.NoBreaks(line)
    ensures Strings.NoBreaks(ReadFile.FormatLine(n, line)) && ReadFile.FormatLine(n, line) != []
  {
    var spaces := ReadFile.FormatLineSplit(n, line);
    NoBreaksOf(spaces, Strings.NatToString(n), line);
  }

  /** Without a header that starts the text, there is none to strip. */
  lemma NoHeaderOnNumberedText(lines: seq<string>, first: nat)
    requires |lines| >= 1
    ensures HeaderLength(Strings.Join("\n", ReadFile.Numbered(lines, first))) == 0
  {
    var t := Strings.Join("\n", ReadFile.Numbered(lines, first));
    ReadFile.NumberedAt(lines, first, 0);
    var spaces := ReadFile.FormatLineSplit(first, lines[0]);
    var digits := Strings.NatToString(first);
    var f := spaces + digits + "|" + lines[0];
    assert t[..|f|] == f;
    assert t[0] == f[0];
    assert f[0] == ' ' || f[0] == digits[0];
    assert HeaderStart[0] == 'S';
  }

  /** A digit run followed by a non-digit literal is a field. */
  lemma FieldOf(t: string, i: nat, digits: string, lit: string)
    requires digits != [] && Strings.AllDigits(digits) && lit != [] && !Strings.IsDigit(lit[0])
    requires i + |digits| + |lit| <= |t| && t[i..i + |digits|] == digits && t[i + |digits|..i + |digits| + |lit|] == lit
    ensures Field(t, i, lit) == i + |digits| + |lit|
  {
    var e := i + |digits|;
    assert t[e] == lit[0];
    Strings.DigitRunEnds(t, i, e);
  }

  /** A text whose slices are the header's frame around three digit runs is a header of that length. */
  lemma HeaderAt(t: string, a: string, b: string, c: string)
    requires a != [] && b != [] && c != [] && Strings.AllDigits(a) && Strings.AllDigits(b) && Strings.AllDigits(c)
    requires var i := |HeaderStart|; var j := i + |a|; var k := j + 1 + |b|; var m := k + 4 + |c|;
             && m + 2 <= |t| && StartsAt(t, 0, HeaderStart)
             && t[i..j] == a && t[j..j + 1] == "-" && t[j + 1..k] == b && t[k..k + 4] == " of "
             && t[k + 4..m] == c && t[m..m + 2] == "\n\n"
    ensures HeaderLength(t) == |HeaderStart| + |a| + 1 + |b| + 4 + |c| + 2
  {
    var i := |HeaderStart|;
    var j := i + |a|;
    var k := j + 1 + |b|;
    FieldOf(t, i, a, "-");
    FieldOf(t, j + 1, b, " of ");
    FieldOf(t, k + 4, c, "\n\n");
  }

  /** Three digit runs in the header's frame make a header of the frame's length. */
  lemma HeaderOf(a: string, b: string, c: string, rest: string)
    requires a != [] && b != [] && c != [] && Strings.AllDigits(a) && Strings.AllDigits(b) && Strings.AllDigits(c)
    ensures HeaderLength(HeaderStart + a + "-" + b + " of " + c + "\n\n" + rest)
            == |HeaderStart| + |a| + 1 + |b| + 4 + |c| + 2
  {
    var t := HeaderStart + a + "-" + b + " of " + c + "\n\n" + rest;
    var i := |HeaderStart|;
    var j := i + |a|;
    var k := j + 1 + |b|;
    var m := k + 4 + |c|;
    assert t[0..i] == HeaderStart;
    assert t[i..j] == a && t[j..j + 1] == "-";
    assert t[j + 1..k] == b && t[k..k + 4] == " of ";
    assert t[k + 4..m] == c && t[m..m + 2] == "\n\n";
    HeaderAt(t, a, b, c);
  }

  /** A header is recognised, and its whole length stripped. */
  lemma HeaderRecognised(start: nat, end: nat, total: nat, rest: string)
    requires start > 0 || end < total
    ensures HeaderLength(ReadFile.Header(start, end, total) + rest) == |ReadFile.Header(start, end, total)|
  {
    var a := Strings.NatToString(start + 1);
    var b := Strings.NatToString(end);
    var c := Strings.NatToString(total);
    assert ReadFile.Header(start, end, total) + rest == HeaderStart + a + "-" + b + " of " + c + "\n\n" + rest;
    HeaderOf(a, b, c, rest);
  }

  /** Line `i` of numbered lines parses back to its number and text. */
  lemma ParseNumberedAt(lines: seq<string>, first: nat, i: nat)
    requires i < |lines|
    ensures ParseLine(ReadFile.Numbered(lines, first)[i]) == Some(((first + i) as nat, lines[i]))
  {
    ReadFile.NumberedAt(lines, first, i);
    ParseFormatLine(first + i, lines[i]);
  }

  /** The texts paired with consecutive line numbers from `first`. */
  function Consecutive(lines: seq<string>, first: nat): (ps: seq<(nat, string)>)
    ensures |ps| == |lines| && forall i | 0 <= i < |lines| :: ps[i] == ((first + i) as nat, lines[i])
    ensures Codes(ps) == lines
  {
    var ps := seq(|lines|, i requires 0 <= i < |lines| => ((first + i) as nat, lines[i]));
    assert Codes(ps) == lines;
    ps
  }

  /** Numbered lines parse back to their numbers and texts. */
  lemma ParseNumbered(lines: seq<string>, first: nat)
    ensures ParseAll(ReadFile.Numbered(lines, first), ParseLine) == Some(Consecutive(lines, first))
  {
    var f := ReadFile.Numbered(lines, first);
    var ps := Consecutive(lines, first);
    forall i | 0 <= i < |f|
      ensures ParseLine(f[i]) == Some(ps[i])
    {
      ParseNumberedAt(lines, first, i);
    }
    ParseAllOf(f, ParseLine, ps);
  }

  /**
   * read_file output that was not truncated reads back as the number of the first line shown
   * and the selected lines joined by newlines.
   */
  lemma ReadBack(lines: seq<string>, start: nat, end: nat)
    requires end <= |lines| && start < end
    requires forall j | 0 <= j < |lines| :: Strings.NoBreaks(lines[j])
    ensures Extracted(ReadFile.Header(start, end, |lines|) + ReadFile.Body(lines, start, end))
            == Some((start + 1, Strings.Join("\n", lines[start..end])))
  {
    var selected := ReadFile.Selected(lines, start, end);
    assert forall j | 0 <= j < |selected| :: selected[j] == lines[start + j];
    HeaderThenBody(start, end, |lines|, selected);
    BodyReadBack(ReadFile.Header(start, end, |lines|), selected, start + 1);
  }

  /** The header, when there is one, is stripped whole from the numbered lines after it. */
  lemma HeaderThenBody(start: nat, end: nat, total: nat, selected: seq<string>)
    requires |selected| >= 1
    ensures var h := ReadFile.Header(start, end, total);
            HeaderLength(h + Strings.Join("\n", ReadFile.Numbered(selected, start + 1))) == |h|
  {
    var h := ReadFile.Header(start, end, total);
    var body := Strings.Join("\n", ReadFile.Numbered(selected, start + 1));
    if h != "" {
      HeaderRecognised(start, end, total, body);
    } else {
      NoHeaderOnNumberedText(selected, start + 1);
      assert h + body == body;
    }
  }

  /** After a stripped header, numbered lines read back as their first number and their texts. */
  lemma BodyReadBack(h: string, selected: seq<string>, first: nat)
    requires |selected| >= 1 && forall j | 0 <= j < |selected| :: Strings.NoBreaks(selected[j])
    requires HeaderLength(h + Strings.Join("\n", ReadFile.Numbered(selected, first))) == |h|
    ensures Extracted(h + Strings.Join("\n", ReadFile.Numbered(selected, first))) == Some((first, Strings.Join("\n", selected)))
  {
    var body := Strings.Join("\n", ReadFile.Numbered(selected, first));
    assert (h + body)[|h|..] == body;
    SplitNumbered(selected, first);
    ParseNumbered(selected, first);
  }

  /** The numbered lines split back out of their join. */
  lemma SplitNumbered(lines: seq<string>, first: nat)
    requires |lines| >= 1 && forall j | 0 <= j < |lines| :: Strings.NoBreaks(lines[j])
    ensures Strings.SplitLines(Strings.Join("\n", ReadFile.Numbered(lines, first))) == ReadFile.Numbered(lines, first)
  {
    var shown := ReadFile.Numbered(lines, first);
    forall j | 0 <= j < |shown|
      ensures Strings.NoBreaks(shown[j]) && shown[j] != []
    {
      ReadFile.NumberedAt(lines, first, j);
      FormatLineHasNoBreaks(first + j, lines[j]);
    }
    Strings.SplitLinesJoin(shown);
  }

  // ---------------------------------------------------------------------------------------
  // guess_language_from_path

  /** The language of each known suffix. */
  function LanguageOf(suffix: string): Option<string>
  {
    match suffix
    case ".py" => Some("python")
    case ".js" => Some("javascript")
    case ".jsx" => Some("jsx")
    case ".ts" => Some("typescript")
    case ".tsx" => Some("tsx")
    case ".json" => Some("json")
    case ".toml" => Some("toml")
    case ".yaml" => Some("yaml")
    case ".yml" => Some("yaml")
    case ".md" => Some("markdown")
    case ".sh" => Some("bash")
    case ".bash" => Some("bash")
    case ".zsh" => Some("bash")
    case ".rs" => Some("rust")
    case ".go" => Some("go")
    case ".java" => Some("java")
    case ".kt" => Some("kotlin")
    case ".swift" => Some("swift")
    case ".c" => Some("c")
    case ".h" => Some("c")
    case ".cpp" => Some("cpp")
    case ".hpp" => Some("cpp")
    case ".cc" => Some("cpp")
    case ".cxx" => Some("cpp")
    case ".css" => Some("css")
    case ".html" => Some("html")
    case ".xml" => Some("xml")
    case ".sql" => Some("sql")
    case _ => None
  }

  /** The last '.' of a name, if any. */
  function LastDot(name: string): (i: int)
    ensures -1 <= i < |name|
    ensures i >= 0 ==> name[i] == '.' && forall k | i < k < |name| :: name[k] != '.'
    ensures i < 0 ==> forall k | 0 <= k < |name| :: name[k] != '.'
  {
    if name == [] then -1
    else if name[|name| - 1] == '.' then |name| - 1
    else LastDot(name[..|name| - 1])
  }

  /** `PurePath.suffix`: from the last dot, unless the dot opens or ends the name. */
  function Suffix(name: string): (s: string)
    ensures s != [] ==> 2 <= |s| < |name| && s == name[|name| - |s|..] && s[0] == '.'
                        && forall k | 1 <= k < |s| :: s[k] != '.'
    ensures s == [] <==> LastDot(name) <= 0 || LastDot(name) == |name| - 1
  {
    var i := LastDot(name);
    if 0 < i < |name| - 1 then name[i..] else ""
  }

  /** The file name a path ends in; the empty relative path "." has none. */
  function LastName(p: Paths.Path): string
  {
    if p.parts == [] then "" else p.parts[|p.parts| - 1]
  }

  /** `guess_language_from_path`: "text" for no path, else the lower-cased suffix looked up, "text" when unknown. */
  function GuessLanguage(path: Option<Paths.Path>): (lang: string)
    ensures path.None? ==> lang == "text"
    ensures lang != "text" ==> path.Some? && Suffix(LastName(path.value)) != ""
  {
    match path
    case None => "text"
    case Some(p) =>
      LanguageOf(Strings.ToLower(Suffix(LastName(p)))).GetOr("text")
  }

  lemma LowerIsDot(c: char)
    ensures Strings.Lower(c) == '.' <==> c == '.'
  {
  }

  lemma {:induction false} LastDotLower(name: string)
    ensures LastDot(Strings.ToLower(name)) == LastDot(name)
  {
    if name != [] {
      var init := name[..|name| - 1];
      LowerIsDot(name[|name| - 1]);
      assert Strings.ToLower(name)[..|name| - 1] == Strings.ToLower(init);
      LastDotLower(init);
    }
  }

  /** Lower-casing a name and taking its suffix commute. */
  lemma SuffixLower(name: string)
    ensures Suffix(Strings.ToLower(name)) == Strings.ToLower(Suffix(name))
  {
    var lower := Strings.ToLower(name);
    LastDotLower(name);
    var i := LastDot(name);
    if 0 < i < |name| - 1 {
      assert Suffix(lower) == lower[i..] && Suffix(name) == name[i..];
      Strings.ToLowerDrop(name, i);
    } else {
      assert Suffix(lower) == [] && Suffix(name) == [];
    }
  }

  /** The language depends on the file name only up to letter case: "MAIN.PY" is Python like "main.py". */
  lemma GuessLanguageIgnoresCase(p: Paths.Path, q: Paths.Path)
    requires Strings.ToLower(LastName(p)) == Strings.ToLower(LastName(q))
    ensures GuessLanguage(Some(p)) == GuessLanguage(Some(q))
  {
    SuffixLower(LastName(p));
    SuffixLower(LastName(q));
  }

  /** The examples of the documentation. */
  lemma GuessLanguageExamples()
    ensures GuessLanguage(Some(Paths.Path(false, ["main.py"]))) == "python"
    ensures GuessLanguage(Some(Paths.Path(false, ["script.js"]))) == "javascript"
  {
    assert LastDot("main.py") == 4;
    assert Suffix("main.py") == ".py";
    assert Strings.ToLower(".py") == ".py";
    assert LastDot("script.js") == 6;
    assert Suffix("script.js") == ".js";
    assert Strings.ToLower(".js") == ".js";
  }

  // ---------------------------------------------------------------------------------------
  // order_tool_arguments

  /** The display order each builtin tool prefers for its arguments. */
  function PreferredOrder(toolName: string): (ks: seq<string>)
    ensures forall i, j | 0 <= i < j < |ks| :: ks[i] != ks[j]
  {
    match toolName
    case "read_file" => ["path", "offset", "limit"]
    case "write_file" => ["path", "create_directories", "content"]
    case "edit" => ["path", "replace_all", "old_string", "new_string"]
    case "shell" => ["command", "timeout", "cwd"]
    case "list_dir" => ["path", "include_hidden"]
    case "grep" => ["path", "case_insensitive", "pattern"]
    case "glob" => ["path", "pattern"]
    case "todos" => ["id", "action", "content"]
    case "memory" => ["action", "key", "value"]
    case _ => []
  }

  /** The preferred keys the arguments hold, in preferred order. */
  function PresentKeys(preferred: seq<string>, args: map<string, Json.Value>): (ks: seq<string>)
    ensures forall i | 0 <= i < |ks| :: ks[i] in args && ks[i] in preferred
    ensures forall k | k in args && k in preferred :: k in ks
  {
    if preferred == [] then []
    else
      var init := PresentKeys(preferred[..|preferred| - 1], args);
      var k := preferred[|preferred| - 1];
      assert forall x | x in preferred :: x in preferred[..|preferred| - 1] || x == k;
      if k in args then init + [k] else init
  }

  predicate Distinct(ks: seq<string>)
  {
    forall i, j | 0 <= i < j < |ks| :: ks[i] != ks[j]
  }

  lemma {:induction false} PresentKeysDistinct(preferred: seq<string>, args: map<string, Json.Value>)
    requires Distinct(preferred)
    ensures Distinct(PresentKeys(preferred, args))
  {
    if preferred != [] {
      var init := preferred[..|preferred| - 1];
      assert Distinct(init);
      PresentKeysDistinct(init, args);
      var k := preferred[|preferred| - 1];
      var ks := PresentKeys(init, args);
      forall i | 0 <= i < |ks|
        ensures ks[i] != k
      {
        assert ks[i] in init;
      }
    }
  }

  /** The keys with their values, in the keys' order. */
  function Pairs(ks: seq<string>, args: map<string, Json.Value>): (r: seq<(string, Json.Value)>)
    requires forall i | 0 <= i < |ks| :: ks[i] in args
    ensures |r| == |ks| && forall i | 0 <= i < |ks| :: r[i] == (ks[i], args[ks[i]])
  {
    seq(|ks|, i requires 0 <= i < |ks| => (ks[i], args[ks[i]]))
  }

  /** The keys not among the preferred ones, in the order they are listed after them. */
  function Remaining(args: map<string, Json.Value>, present: seq<string>): (r: seq<string>)
    ensures forall k :: k in r <==> k in args && k !in present
    ensures Distinct(r)
  {
    Strings.SortedKeys(args.Keys - (set k | k in present))
  }

  /** The display order: the preferred keys present, then the remaining keys. */
  function OrderedKeys(toolName: string, args: map<string, Json.Value>): (ks: seq<string>)
    ensures forall i | 0 <= i < |ks| :: ks[i] in args
  {
    var present := PresentKeys(PreferredOrder(toolName), args);
    present + Remaining(args, present)
  }

  /** What `order_tool_arguments` returns. */
  function Ordered(toolName: string, args: map<string, Json.Value>): seq<(string, Json.Value)>
  {
    Pairs(OrderedKeys(toolName, args), args)
  }

  /**
   * `order_tool_arguments`: the preferred keys present, in preferred order, then the remaining
   * keys. Python iterates the remaining keys as a `set`, whose order is unspecified; here they
   * come in sorted order.
   */
  method OrderToolArguments(toolName: string, args: map<string, Json.Value>) returns (ordered: seq<(string, Json.Value)>)
    ensures ordered == Ordered(toolName, args)
  {
    var preferred := PreferredOrder(toolName);
    var seen;
    ordered, seen := PreferredPairs(preferred, args);
    ghost var present := PresentKeys(preferred, args);
    var remaining := Strings.SortedKeys(args.Keys - seen);
    assert remaining == Remaining(args, present);
    ordered := AppendPairs(ordered, remaining, args);
    PairsAppend(present, remaining, args);
  }

  /** The "add preferred keys first" loop: the preferred keys present, with their values, and the set of them. */
  method PreferredPairs(preferred: seq<string>, args: map<string, Json.Value>)
    returns (ordered: seq<(string, Json.Value)>, seen: set<string>)
    ensures ordered == Pairs(PresentKeys(preferred, args), args)
    ensures seen == set k | k in PresentKeys(preferred, args)
  {
    ordered := [];
    seen := {};
    var i := 0;
    while i < |preferred|
      invariant 0 <= i <= |preferred|
      invariant ordered == Pairs(PresentKeys(preferred[..i], args), args)
      invariant seen == set k | k in PresentKeys(preferred[..i], args)
    {
      var key := preferred[i];
      ghost var before := PresentKeys(preferred[..i], args);
      assert preferred[..i + 1][..i] == preferred[..i];
      if key in args {
        assert PresentKeys(preferred[..i + 1], args) == before + [key];
        assert Pairs(before + [key], args) == ordered + [(key, args[key])];
        ordered := ordered + [(key, args[key])];
        seen := seen + {key};
      }
      i := i + 1;
    }
    assert preferred[..i] == preferred;
  }

  /** The `ordered.extend(...)` step: the remaining keys with their values, after what is there. */
  method AppendPairs(prefix: seq<(string, Json.Value)>, remaining: seq<string>, args: map<string, Json.Value>)
    returns (ordered: seq<(string, Json.Value)>)
    requires forall i | 0 <= i < |remaining| :: remaining[i] in args
    ensures ordered == prefix + Pairs(remaining, args)
  {
    ordered := prefix;
    var j := 0;
    while j < |remaining|
      invariant 0 <= j <= |remaining|
      invariant ordered == prefix + Pairs(remaining[..j], args)
    {
      var key := remaining[j];
      assert remaining[..j + 1] == remaining[..j] + [key];
      assert Pairs(remaining[..j + 1], args) == Pairs(remaining[..j], args) + [(key, args[key])];
      ordered := ordered + [(key, args[key])];
      j := j + 1;
    }
    assert remaining[..j] == remaining;
  }

  lemma PairsAppend(a: seq<string>, b: seq<string>, args: map<string, Json.Value>)
    requires (forall i | 0 <= i < |a| :: a[i] in args) && (forall i | 0 <= i < |b| :: b[i] in args)
    ensures forall i | 0 <= i < |a + b| :: (a + b)[i] in args
    ensures Pairs(a + b, args) == Pairs(a, args) + Pairs(b, args)
  {
    assert forall i | 0 <= i < |a + b| :: (a + b)[i] == if i < |a| then a[i] else b[i - |a|];
  }

  /**
   * Every argument is listed exactly once with its value, and the preferred keys come first,
   * in preferred order.
   */
  lemma OrderedFacts(toolName: string, args: map<string, Json.Value>)
    ensures var ks := OrderedKeys(toolName, args);
            && Distinct(ks) && |ks| == |args| && (forall k | k in args :: k in ks)
            && Ordered(toolName, args) == Pairs(ks, args)
            && var present := PresentKeys(PreferredOrder(toolName), args);
               |present| <= |ks| && ks[..|present|] == present
  {
    var present := PresentKeys(PreferredOrder(toolName), args);
    PresentKeysDistinct(PreferredOrder(toolName), args);
    ThenRemaining(present, args);
    var ks := OrderedKeys(toolName, args);
    assert ks[..|present|] == present;
  }

  /** Distinct argument keys followed by the others list every argument key once. */
  lemma ThenRemaining(present: seq<string>, args: map<string, Json.Value>)
    requires Distinct(present) && forall i | 0 <= i < |present| :: present[i] in args
    ensures var ks := present + Remaining(args, present);
            Distinct(ks) && |ks| == |args| && forall k | k in args :: k in ks
  {
    var remaining := Remaining(args, present);
    var ks := present + remaining;
    forall a, b | 0 <= a < b < |ks|
      ensures ks[a] != ks[b]
    {
      if b < |present| {
        assert ks[a] == present[a] && ks[b] == present[b];
      } else if a >= |present| {
        assert ks[a] == remaining[a - |present|] && ks[b] == remaining[b - |present|];
      } else {
        assert ks[a] == present[a];
        assert ks[b] == remaining[b - |present|];
      }
    }
    forall k | k in args
      ensures k in ks
    {
      if k !in present {
        assert k in remaining;
      }
    }
    DistinctCard(ks);
    assert (set k | k in ks) == args.Keys;
  }

  lemma {:induction false} DistinctCard(ks: seq<string>)
    requires Distinct(ks)
    ensures |set k | k in ks| == |ks|
  {
    if ks != [] {
      var init := ks[..|ks| - 1];
      assert Distinct(init);
      DistinctCard(init);
      assert (set k | k in ks) == (set k | k in init) + {ks[|ks| - 1]};
      assert ks[|ks| - 1] !in (set k | k in init) by {
        forall i | 0 <= i < |init|
          ensures init[i] != ks[|ks| - 1]
        {
          assert init[i] == ks[i];
        }
      }
    }
  }
}
