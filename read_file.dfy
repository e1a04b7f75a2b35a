/**
 * The read_file tool (core/tools/builtin/read_file.py): the window of lines it shows, their
 * numbering, the header and the truncation of long output. What the filesystem says about the
 * path is the input `file`; the tokenizer's count is the parameter `count`; the float formatting
 * of sizes in two error messages is the parameters `megabytes` and `sizeLabel`.
 */
module ReadFile {
  import opened Wrappers
  import Strings
  import Json
  import Paths
  import ToolModels
  import Text

  const MaxFileSize: nat := 1024 * 1024 * 10
  const MaxOutputTokens: nat := 25000
  const NumberWidth: nat := 6

  /**
   * What `path.exists()`, `is_file()`, `stat()`, `is_binary_file` and `read_text` report;
   * `Unreadable` is a file whose `read_text` raises, with the exception's text.
   */
  datatype FileState =
    | Missing
    | NotAFile
    | Present(size: nat, binary: bool, content: string)
    | Unreadable(size: nat, binary: bool, message: string)

  /**
   * `start_idx` and `end_idx`: the window starts at line `offset` (1-based) and holds `limit`
   * lines, or runs to the end, never past the last line.
   */
  function Window(total: nat, offset: int, limit: Option<int>): (w: (nat, nat))
    requires offset >= 1 && (limit.Some? ==> limit.value >= 1)
    ensures w.0 + 1 == offset
    ensures w.1 <= total && (limit.Some? ==> w.1 <= w.0 + limit.value)
    ensures w.1 == total || (limit.Some? && w.1 == w.0 + limit.value)
  {
    var start := offset - 1;
    (start, if limit.Some? && start + limit.value < total then start + limit.value else total)
  }

  /** `lines[start_idx:end_idx]`, which is empty when the window starts past the end. */
  function Selected(lines: seq<string>, start: nat, end: nat): (s: seq<string>)
    requires end <= |lines|
    ensures start < end ==> s == lines[start..end]
    ensures start >= end ==> s == []
  {
    if start < end then lines[start..end] else []
  }

  /** `f"{n:6}|{line}"`. */
  function FormatLine(n: nat, line: string): string
  {
    Strings.PadLeft(Strings.NatToString(n), NumberWidth) + "|" + line
  }

  /** A shown line is spaces, the line number's digits, a bar and the line. */
  lemma FormatLineSplit(n: nat, line: string) returns (spaces: string)
    ensures FormatLine(n, line) == spaces + Strings.NatToString(n) + "|" + line
    ensures forall i | 0 <= i < |spaces| :: spaces[i] == ' '
  {
    spaces := Strings.PadLeftSplit(Strings.NatToString(n), NumberWidth);
  }

  /** The selected lines, numbered consecutively from `first`. */
  function Numbered(lines: seq<string>, first: nat): (r: seq<string>)
    ensures |r| == |lines|
  {
    if lines == [] then []
    else Numbered(lines[..|lines| - 1], first) + [FormatLine(first + |lines| - 1, lines[|lines| - 1])]
  }

  /** Line `j` of the selection is shown with number `first + j`. */
  lemma {:induction false} NumberedAt(lines: seq<string>, first: nat, j: nat)
    requires j < |lines|
    ensures Numbered(lines, first)[j] == FormatLine(first + j, lines[j])
  {
    var init := lines[..|lines| - 1];
    assert Numbered(lines, first) == Numbered(init, first) + [FormatLine(first + |lines| - 1, lines[|lines| - 1])];
    if j < |lines| - 1 {
      NumberedAt(init, first, j);
      assert init[j] == lines[j];
    }
  }

  /** The `for i, line in enumerate(selected_lines, start=start_idx + 1)` loop. */
  method FormatLines(selected: seq<string>, first: nat) returns (formatted: seq<string>)
    ensures formatted == Numbered(selected, first)
  {
    formatted := [];
    var j := 0;
    while j < |selected|
      invariant 0 <= j <= |selected|
      invariant formatted == Numbered(selected[..j], first)
    {
      var next := selected[..j + 1];
      assert next[..|next| - 1] == selected[..j] && next[|next| - 1] == selected[j];
      assert Numbered(next, first) == Numbered(selected[..j], first) + [FormatLine(first + j, selected[j])];
      formatted := formatted + [FormatLine(first + j, selected[j])];
      j := j + 1;
    }
    assert selected[..j] == selected;
  }

  /** The numbered lines joined by newlines, before any truncation. */
  function Body(lines: seq<string>, start: nat, end: nat): string
    requires end <= |lines|
  {
    Strings.Join("\n", Numbered(Selected(lines, start, end), start + 1))
  }

  /** The "Showing lines a-b of c" header, present only for a partial view. */
  function Header(start: nat, end: nat, total: nat): (h: string)
    ensures h != "" <==> start > 0 || end < total
  {
    if start > 0 || end < total then
      "Showing lines " + Strings.NatToString(start + 1) + "-" + Strings.NatToString(end) + " of "
      + Strings.NatToString(total) + "\n\n"
    else ""
  }

  function TruncationSuffix(total: nat): string
  {
    "\n... [truncated " + Strings.NatToString(total) + " total lines]"
  }

  function Metadata(path: Paths.Path, total: nat, start: nat, end: nat): ToolModels.Metadata
  {
    map["path" := Json.Str(Paths.Show(path)), "total_lines" := Json.Num(total),
        "shown_start" := Json.Num(start + 1), "shown_end" := Json.Num(end)]
  }

  /** The file's last path component, `path.name`. */
  function Name(path: Paths.Path): string
  {
    if path.parts == [] then "" else path.parts[|path.parts| - 1]
  }

  /** A file the tool goes on to read: present, a file, small enough and not binary. */
  predicate Readable(file: FileState)
  {
    file.Present? && file.size <= MaxFileSize && !file.binary
  }

  /** `ReadFileTool.execute`, with the parameters already validated (`offset >= 1`, `limit >= 1`). */
  method Execute(cwd: Paths.Path, relPath: Paths.Path, resolve: Paths.Path -> Paths.Path, file: FileState,
                 offset: int, limit: Option<int>, count: string -> nat,
                 megabytes: nat -> string, sizeLabel: nat -> string)
    returns (r: ToolModels.ToolResult)
    requires offset >= 1 && (limit.Some? ==> limit.value >= 1)
    ensures var path := Paths.ResolvePath(cwd, relPath, resolve);
            && (file.Missing? ==> r == ToolModels.ErrorResult("File not found: " + Paths.Show(path)))
            && (file.NotAFile? ==> r == ToolModels.ErrorResult("Path is not a file: " + Paths.Show(path)))
            && ((file.Present? || file.Unreadable?) && file.size > MaxFileSize ==>
                  r == ToolModels.ErrorResult("File too large (" + megabytes(file.size) + "MB). Maximum is 10MB."))
            && ((file.Present? || file.Unreadable?) && file.size <= MaxFileSize && file.binary ==>
                  !r.success && r.error == Some("Cannot read binary file: " + Name(path) + " (" + sizeLabel(file.size)
                                                + ") This tool only reads text files."))
            && (file.Unreadable? && file.size <= MaxFileSize && !file.binary ==>
                  r == ToolModels.ErrorResult("Failed to read file: " + file.message))
    ensures Readable(file) && Strings.SplitLines(file.content) == [] ==>
              r.success && r.output == "File is empty." && r.metadata == map["lines" := Json.Num(0)] && !r.truncated
    ensures Readable(file) && Strings.SplitLines(file.content) != [] ==>
              var path := Paths.ResolvePath(cwd, relPath, resolve);
              var lines := Strings.SplitLines(file.content);
              var w := Window(|lines|, offset, limit);
              var body := Body(lines, w.0, w.1);
              && r.success && r.error == None
              && r.metadata == Metadata(path, |lines|, w.0, w.1)
              && (r.truncated <==> count(body) > MaxOutputTokens)
              && (!r.truncated ==> r.output == Header(w.0, w.1, |lines|) + body)
              && (r.truncated ==> exists t :: r.output == Header(w.0, w.1, |lines|) + t
                                   && Text.Truncation(count, body, MaxOutputTokens, TruncationSuffix(|lines|), true, t))
  {
    var path := Paths.ResolvePath(cwd, relPath, resolve);
    if file.Missing? {
      return ToolModels.ErrorResult("File not found: " + Paths.Show(path));
    }
    if file.NotAFile? {
      return ToolModels.ErrorResult("Path is not a file: " + Paths.Show(path));
    }
    if file.size > MaxFileSize {
      return ToolModels.ErrorResult("File too large (" + megabytes(file.size) + "MB). Maximum is 10MB.");
    }
    if file.binary {
      return ToolModels.ErrorResult("Cannot read binary file: " + Name(path) + " (" + sizeLabel(file.size)
                                    + ") This tool only reads text files.");
    }
    if file.Unreadable? {
      return ToolModels.ErrorResult("Failed to read file: " + file.message);
    }
    var lines := Strings.SplitLines(file.content);
    var total := |lines|;
    if total == 0 {
      return ToolModels.SuccessResult("File is empty.").(metadata := map["lines" := Json.Num(0)]);
    }
    r := ShowLines(path, lines, offset, limit, count);
  }

  /** The rest of `execute` for a file with lines: the window, the numbered lines, the truncation and the header. */
  method ShowLines(path: Paths.Path, lines: seq<string>, offset: int, limit: Option<int>, count: string -> nat)
    returns (r: ToolModels.ToolResult)
    requires offset >= 1 && (limit.Some? ==> limit.value >= 1) && lines != []
    ensures var w := Window(|lines|, offset, limit);
            var body := Body(lines, w.0, w.1);
            && r.success && r.error == None
            && r.metadata == Metadata(path, |lines|, w.0, w.1)
            && (r.truncated <==> count(body) > MaxOutputTokens)
            && (!r.truncated ==> r.output == Header(w.0, w.1, |lines|) + body)
            && (r.truncated ==> exists t :: r.output == Header(w.0, w.1, |lines|) + t
                                 && Text.Truncation(count, body, MaxOutputTokens, TruncationSuffix(|lines|), true, t))
  {
    var total := |lines|;
    var w := Window(total, offset, limit);
    var start, end := w.0, w.1;
    var formatted := FormatLines(Selected(lines, start, end), start + 1);
    var output := Strings.Join("\n", formatted);
    var truncated := false;
    if count(output) > MaxOutputTokens {
      var t := Text.Truncate(output, MaxOutputTokens, TruncationSuffix(total), true, count);
      output := t;
      truncated := true;
    }
    output := Header(start, end, total) + output;
    r := ToolModels.SuccessResult(output).(truncated := truncated, metadata := Metadata(path, total, start, end));
  }
}
