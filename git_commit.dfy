/**
 * The git_commit tool (core/tools/builtin/git_commit.py): stages the listed files, or every
 * change, and commits them. Its confirmation marks a commit dangerous by the words of its
 * message and lists the paths the commit will touch.
 */
module GitCommit {
  import opened Wrappers
  import Strings
  import Json
  import Paths
  import Process
  import ToolModels
  import Workspace

  const Name := "git_commit"

  /** `DANGEROUS_PATTERNS`: phrases that make a commit message dangerous, all in lower case. */
  const DangerousPatterns: seq<string> :=
    ["force", "reset", "delete", "remove all", "wipe", "destroy", "drop database", "rm -rf"]

  /** `GitCommitParams` after validation. */
  datatype CommitParams = CommitParams(path: Option<string>, message: string, files: Option<seq<string>>,
                                       allowEmpty: bool, amend: bool)

  /** `if params.files`: a list was given and it is not empty. */
  predicate HasFiles(p: CommitParams)
  {
    p.files.Some? && p.files.value != []
  }

  /** `is_mutating`: a commit always changes the repository, whatever its parameters. */
  function IsMutating(params: map<string, Json.Value>): (m: bool)
    ensures m
  {
    true
  }

  /** `any(pattern in message.lower() for pattern in DANGEROUS_PATTERNS)`. */
  predicate IsDangerous(message: string)
  {
    Strings.ContainsAny(Strings.ToLower(message), DangerousPatterns)
  }

  /** A dangerous message holds one of the patterns at a known place of its lower case. */
  lemma DangerousHasPattern(message: string) returns (k: nat, i: nat)
    requires IsDangerous(message)
    ensures k < |DangerousPatterns| && Strings.OccursAt(DangerousPatterns[k], Strings.ToLower(message), i)
  {
    var lower := Strings.ToLower(message);
    k :| 0 <= k < |DangerousPatterns| && Strings.Contains(lower, DangerousPatterns[k]);
    i :| 0 <= i <= |lower| - |DangerousPatterns[k]| && Strings.OccursAt(DangerousPatterns[k], lower, i);
  }

  /** A pattern written in any mix of cases still makes the message dangerous. */
  lemma DangerousInAnyCase(message: string, b: string, i: int, k: int)
    requires 0 <= k < |DangerousPatterns| && Strings.ToLower(b) == DangerousPatterns[k]
    requires Strings.OccursAt(b, message, i)
    ensures IsDangerous(message)
  {
    Strings.LowerKeepsOccurrence(message, b, i);
    assert Strings.Contains(Strings.ToLower(message), DangerousPatterns[k]);
  }

  /** Lower-casing the message first changes nothing. */
  lemma DangerIgnoresCase(message: string)
    ensures IsDangerous(Strings.ToLower(message)) == IsDangerous(message)
  {
    Strings.LowerHasNoCapitals(message);
    Strings.ToLowerKeeps(Strings.ToLower(message));
  }

  lemma ForceLowered()
    ensures Strings.ToLower("FORCE") == "force"
  {
    var s := "FORCE";
    assert s[1..] == "ORCE" && s[2..] == "RCE" && s[3..] == "CE" && s[4..] == "E";
  }

  /** "FORCE push" is dangerous though the pattern is "force". */
  lemma ShoutedForceIsDangerous()
    ensures IsDangerous("FORCE push")
  {
    ForceLowered();
    var m := "FORCE push";
    assert m[0..5] == "FORCE";
    DangerousInAnyCase(m, "FORCE", 0, 0);
  }

  // The confirmation

  const Head := "Commit changes with message: "
  const AmendNote := " (amending previous commit)"

  /** The line naming the listed files. */
  function FilesNote(p: CommitParams): string
  {
    if HasFiles(p) then "\nFiles: " + Strings.Join(", ", p.files.value) else ""
  }

  /** The note when amending. */
  function AmendPart(p: CommitParams): string
  {
    if p.amend then AmendNote else ""
  }

  /** What the description adds after the message. */
  function Notes(p: CommitParams): string
  {
    AmendPart(p) + FilesNote(p)
  }

  /** The description: the message, a note when amending, and the files when listed. */
  function Description(p: CommitParams): string
  {
    Head + p.message + Notes(p)
  }

  /** The description opens with the message, and the notes follow it. */
  lemma DescriptionOpens(p: CommitParams)
    ensures |Head + p.message| <= |Description(p)|
    ensures Description(p)[..|Head + p.message|] == Head + p.message
    ensures Description(p)[|Head + p.message|..] == Notes(p)
  {
  }

  /** The notes start with " (" exactly when the commit amends. */
  lemma AmendNoted(p: CommitParams)
    ensures p.amend <==> |Notes(p)| >= 2 && Notes(p)[..2] == " ("
  {
    if p.amend {
      assert Notes(p)[..2] == AmendNote[..2];
    } else if HasFiles(p) {
      assert Notes(p)[0] == '\n';
    }
  }

  /** The notes hold a line break exactly when files are listed, and then end with the list. */
  lemma FilesNoted(p: CommitParams)
    ensures HasFiles(p) <==> '\n' in Notes(p)
    ensures HasFiles(p) ==> var j := Strings.Join(", ", p.files.value);
                            |j| <= |Notes(p)| && Notes(p)[|Notes(p)| - |j|..] == j
  {
    assert '\n' !in AmendNote;
    if HasFiles(p) {
      var j := Strings.Join(", ", p.files.value);
      assert Notes(p) == (AmendPart(p) + "\nFiles: ") + j;
      assert Notes(p)[|AmendPart(p)|] == '\n';
    }
  }

  /** The file a listed name stands for: `resolve_path(repo_path, file)`. */
  function FileTarget(repo: Paths.Path, file: string, parse: string -> Paths.Path,
                      resolve: Paths.Path -> Paths.Path): Paths.Path
  {
    Paths.ResolvePath(repo, parse(file), resolve)
  }

  /** The listed files that exist, in their order. */
  function ExistingFiles(repo: Paths.Path, files: seq<string>, parse: string -> Paths.Path,
                         resolve: Paths.Path -> Paths.Path, entry: Paths.Path -> Process.Entry): seq<Paths.Path>
  {
    if files == [] then []
    else
      var fp := FileTarget(repo, files[|files| - 1], parse, resolve);
      ExistingFiles(repo, files[..|files| - 1], parse, resolve, entry) + (if entry(fp) != Process.Absent then [fp] else [])
  }

  /** A path is affected exactly when it is a listed file that exists. */
  lemma {:induction false} ExistingFilesExactly(repo: Paths.Path, files: seq<string>, parse: string -> Paths.Path,
                                               resolve: Paths.Path -> Paths.Path, entry: Paths.Path -> Process.Entry,
                                               x: Paths.Path)
    ensures x in ExistingFiles(repo, files, parse, resolve, entry) <==>
            entry(x) != Process.Absent && exists f | f in files :: x == FileTarget(repo, f, parse, resolve)
  {
    if files != [] {
      var init := files[..|files| - 1];
      var last := files[|files| - 1];
      ExistingFilesExactly(repo, init, parse, resolve, entry, x);
      assert files == init + [last];
      if x == FileTarget(repo, last, parse, resolve) && entry(x) != Process.Absent {
        assert x in ExistingFiles(repo, files, parse, resolve, entry);
      }
      if x in ExistingFiles(repo, files, parse, resolve, entry) && x !in ExistingFiles(repo, init, parse, resolve, entry) {
        assert x == FileTarget(repo, last, parse, resolve);
      }
      forall f | f in files
        ensures f in init || f == last
      {
      }
    }
  }

  /** `repo_path / line[3:].strip()` for one line of `git status --porcelain`. */
  function StatusTarget(repo: Paths.Path, line: string, parse: string -> Paths.Path): Paths.Path
  {
    Paths.JoinPath(repo, parse(Strings.Strip(if |line| >= 3 then line[3..] else "")))
  }

  /** `if line.strip()`. */
  predicate NonBlank(line: string)
  {
    Strings.Strip(line) != ""
  }

  /** The path a status line names, when the line is not blank. */
  function StatusEntry(repo: Paths.Path, line: string, parse: string -> Paths.Path): Option<Paths.Path>
  {
    if NonBlank(line) then Some(StatusTarget(repo, line, parse)) else None
  }

  /** The paths that the lines name and that exist, in their order. */
  function Kept(lines: seq<string>, named: string -> Option<Paths.Path>, entry: Paths.Path -> Process.Entry): seq<Paths.Path>
  {
    if lines == [] then []
    else
      var n := named(lines[|lines| - 1]);
      Kept(lines[..|lines| - 1], named, entry) + (if n.Some? && entry(n.value) != Process.Absent then [n.value] else [])
  }

  /** A path is kept exactly when some line names it and it exists. */
  lemma {:induction false} KeptExactly(lines: seq<string>, named: string -> Option<Paths.Path>,
                                      entry: Paths.Path -> Process.Entry, x: Paths.Path)
    ensures x in Kept(lines, named, entry) <==> entry(x) != Process.Absent && exists l | l in lines :: named(l) == Some(x)
  {
    if lines != [] {
      var init := lines[..|lines| - 1];
      var last := lines[|lines| - 1];
      KeptExactly(init, named, entry, x);
      forall l | l in lines
        ensures l in init || l == last
      {
        var j :| 0 <= j < |lines| && lines[j] == l;
        if j < |lines| - 1 {
          assert init[j] == l;
        }
      }
      forall l | l in init
        ensures l in lines
      {
        var j :| 0 <= j < |init| && init[j] == l;
        assert lines[j] == l;
      }
    }
  }

  /** The paths named by the non-blank status lines that exist, in their order. */
  function StatusPaths(repo: Paths.Path, lines: seq<string>, parse: string -> Paths.Path,
                       entry: Paths.Path -> Process.Entry): seq<Paths.Path>
  {
    Kept(lines, line => StatusEntry(repo, line, parse), entry)
  }

  /** A path is affected exactly when a non-blank status line names it and it exists. */
  lemma StatusPathsExactly(repo: Paths.Path, lines: seq<string>, parse: string -> Paths.Path,
                           entry: Paths.Path -> Process.Entry, x: Paths.Path)
    ensures x in StatusPaths(repo, lines, parse, entry) <==>
            entry(x) != Process.Absent && exists l | l in lines :: StatusEntry(repo, l, parse) == Some(x)
  {
    KeptExactly(lines, line => StatusEntry(repo, line, parse), entry, x);
  }

  /** `git status --porcelain`, asked only when no files are listed. */
  function StatusCall(repo: Paths.Path): Process.Call
  {
    Workspace.Git(["status", "--porcelain"], repo, 10)
  }

  /** The paths the commit touches; a status that fails or raises yields none. */
  function Affected(repo: Paths.Path, p: CommitParams, parse: string -> Paths.Path, resolve: Paths.Path -> Paths.Path,
                    entry: Paths.Path -> Process.Entry, run: Process.Call -> Process.Outcome): seq<Paths.Path>
  {
    if HasFiles(p) then ExistingFiles(repo, p.files.value, parse, resolve, entry)
    else
      var o := run(StatusCall(repo));
      if o.Ran? && o.code == 0 then StatusPaths(repo, Strings.SplitLines(o.stdout), parse, entry) else []
  }

  /** The repository the tool works in. */
  function Repo(inv: ToolModels.ToolInvocation, p: CommitParams, parse: string -> Paths.Path,
                resolve: Paths.Path -> Paths.Path): Paths.Path
  {
    Workspace.ProjectPath(inv.cwd, p.path, parse, resolve)
  }

  /** A confirmation and the commands asked on the way to it. */
  datatype Asked = Asked(confirmation: ToolModels.ToolConfirmation, calls: seq<Process.Call>)

  /** `get_confirmation`. */
  function Asking(inv: ToolModels.ToolInvocation, p: CommitParams, parse: string -> Paths.Path,
                  resolve: Paths.Path -> Paths.Path, entry: Paths.Path -> Process.Entry,
                  run: Process.Call -> Process.Outcome): Asked
  {
    var repo := Repo(inv, p, parse, resolve);
    var c := ToolModels.Confirmation(Name, inv.params, Description(p));
    Asked(c.(affectedPaths := Affected(repo, p, parse, resolve, entry, run), isDangerous := IsDangerous(p.message)),
          if HasFiles(p) then [] else [StatusCall(repo)])
  }

  /** The loop over the listed files. */
  method ExistingTargets(repo: Paths.Path, files: seq<string>, parse: string -> Paths.Path,
                         resolve: Paths.Path -> Paths.Path, entry: Paths.Path -> Process.Entry)
    returns (affected: seq<Paths.Path>)
    ensures affected == ExistingFiles(repo, files, parse, resolve, entry)
  {
    affected := [];
    var i := 0;
    while i < |files|
      invariant 0 <= i <= |files|
      invariant affected == ExistingFiles(repo, files[..i], parse, resolve, entry)
    {
      var fp := FileTarget(repo, files[i], parse, resolve);
      if entry(fp) != Process.Absent {
        affected := affected + [fp];
      }
      assert files[..i + 1][..i] == files[..i];
      i := i + 1;
    }
    assert files[..i] == files;
  }

  lemma KeptStep(lines: seq<string>, i: nat, named: string -> Option<Paths.Path>, entry: Paths.Path -> Process.Entry)
    requires i < |lines|
    ensures Kept(lines[..i + 1], named, entry)
            == Kept(lines[..i], named, entry)
               + (if named(lines[i]).Some? && entry(named(lines[i]).value) != Process.Absent then [named(lines[i]).value] else [])
  {
    assert lines[..i + 1][..i] == lines[..i];
  }

  /** The loop over the lines of `git status --porcelain`. */
  method StatusTargets(repo: Paths.Path, lines: seq<string>, parse: string -> Paths.Path,
                       entry: Paths.Path -> Process.Entry)
    returns (affected: seq<Paths.Path>)
    ensures affected == StatusPaths(repo, lines, parse, entry)
  {
    ghost var named := line => StatusEntry(repo, line, parse);
    affected := [];
    var i := 0;
    while i < |lines|
      invariant 0 <= i <= |lines|
      invariant affected == Kept(lines[..i], named, entry)
    {
      var fp := StatusEntry(repo, lines[i], parse);
      if fp.Some? && entry(fp.value) != Process.Absent {
        affected := affected + [fp.value];
      }
      KeptStep(lines, i, named, entry);
      i := i + 1;
    }
    assert lines[..i] == lines;
  }

  /** `get_confirmation`, building the list of affected paths file by file or line by line. */
  method GetConfirmation(inv: ToolModels.ToolInvocation, p: CommitParams, parse: string -> Paths.Path,
                         resolve: Paths.Path -> Paths.Path, entry: Paths.Path -> Process.Entry,
                         run: Process.Call -> Process.Outcome)
    returns (c: ToolModels.ToolConfirmation, calls: seq<Process.Call>)
    ensures Asked(c, calls) == Asking(inv, p, parse, resolve, entry, run)
  {
    var repo := Workspace.ProjectPath(inv.cwd, p.path, parse, resolve);
    var dangerous := IsDangerous(p.message);
    var affected;
    affected, calls := AffectedTargets(repo, p, parse, resolve, entry, run);
    var description := Describe(p);
    c := ToolModels.Confirmation(Name, inv.params, description).(affectedPaths := affected, isDangerous := dangerous);
  }

  /** The affected paths of `get_confirmation`, and the status command asked for them. */
  method AffectedTargets(repo: Paths.Path, p: CommitParams, parse: string -> Paths.Path, resolve: Paths.Path -> Paths.Path,
                         entry: Paths.Path -> Process.Entry, run: Process.Call -> Process.Outcome)
    returns (affected: seq<Paths.Path>, calls: seq<Process.Call>)
    ensures affected == Affected(repo, p, parse, resolve, entry, run)
    ensures calls == if HasFiles(p) then [] else [StatusCall(repo)]
  {
    affected := [];
    calls := [];
    if HasFiles(p) {
      affected := ExistingTargets(repo, p.files.value, parse, resolve, entry);
    } else {
      calls := [StatusCall(repo)];
      var o := run(StatusCall(repo));
      if o.Ran? && o.code == 0 {
        affected := StatusTargets(repo, Strings.SplitLines(o.stdout), parse, entry);
      }
    }
  }

  /** The description of `get_confirmation`, extended note by note. */
  method Describe(p: CommitParams) returns (description: string)
    ensures description == Description(p)
  {
    var opening := Head + p.message;
    description := opening;
    if p.amend {
      description := description + AmendNote;
    }
    if HasFiles(p) {
      description := description + "\nFiles: " + Strings.Join(", ", p.files.value);
    }
    assert description == opening + Notes(p);
  }

  /** Every confirmation is dangerous exactly when the message is, and lists only paths that exist. */
  lemma ConfirmationFacts(inv: ToolModels.ToolInvocation, p: CommitParams, parse: string -> Paths.Path,
                          resolve: Paths.Path -> Paths.Path, entry: Paths.Path -> Process.Entry,
                          run: Process.Call -> Process.Outcome)
    ensures var a := Asking(inv, p, parse, resolve, entry, run);
            && a.confirmation.toolName == Name && a.confirmation.description == Description(p)
            && (a.confirmation.isDangerous <==> IsDangerous(p.message))
            && (forall x | x in a.confirmation.affectedPaths :: entry(x) != Process.Absent)
            && (HasFiles(p) <==> a.calls == [])
  {
    var a := Asking(inv, p, parse, resolve, entry, run);
    var repo := Repo(inv, p, parse, resolve);
    forall x | x in a.confirmation.affectedPaths
      ensures entry(x) != Process.Absent
    {
      if HasFiles(p) {
        ExistingFilesExactly(repo, p.files.value, parse, resolve, entry, x);
      } else {
        var o := run(StatusCall(repo));
        StatusPathsExactly(repo, Strings.SplitLines(o.stdout), parse, entry, x);
      }
    }
  }

  // Execution

  const Handlers := Workspace.Handlers("Git commit command timed out", "Failed to create git commit: ")

  /** How far staging got: the result that ended `execute` early, if any, and the commands it ran. */
  datatype Staged = Staged(stop: Option<ToolModels.ToolResult>, calls: seq<Process.Call>)

  /**
   * Staging one listed file: a missing file ends `execute` before anything is run for it; a file
   * outside the repository makes `relative_to` raise, whose text is `outside(fp)`; otherwise
   * `git add` of its path relative to the repository, which has to exit with 0.
   */
  function StageFile(repo: Paths.Path, file: string, parse: string -> Paths.Path, resolve: Paths.Path -> Paths.Path,
                     entry: Paths.Path -> Process.Entry, run: Process.Call -> Process.Outcome,
                     outside: Paths.Path -> string): Staged
  {
    var fp := FileTarget(repo, file, parse, resolve);
    if entry(fp) == Process.Absent then Staged(Some(ToolModels.ErrorResult("File not found: " + file)), [])
    else
      match Paths.RelativeTo(fp, repo)
      case None => Staged(Some(ToolModels.ErrorResult(Handlers.failed + outside(fp))), [])
      case Some(rel) =>
        var call := Workspace.Git(["add", Paths.Show(rel)], repo, 30);
        var o := run(call);
        if !o.Ran? then Staged(Some(Workspace.Caught(o, Handlers)), [call])
        else if o.code != 0 then Staged(Some(ToolModels.ErrorResult("Failed to stage file " + file + ": " + o.stderr)), [call])
        else Staged(None, [call])
  }

  /** The staging loop over the listed files, which stops at the first file that fails. */
  function StageFiles(repo: Paths.Path, files: seq<string>, parse: string -> Paths.Path, resolve: Paths.Path -> Paths.Path,
                      entry: Paths.Path -> Process.Entry, run: Process.Call -> Process.Outcome,
                      outside: Paths.Path -> string): Staged
  {
    if files == [] then Staged(None, [])
    else
      var before := StageFiles(repo, files[..|files| - 1], parse, resolve, entry, run, outside);
      if before.stop.Some? then before
      else
        var s := StageFile(repo, files[|files| - 1], parse, resolve, entry, run, outside);
        Staged(s.stop, before.calls + s.calls)
  }

  /** `git add -A`, when no files are listed. */
  function StageAll(repo: Paths.Path, run: Process.Call -> Process.Outcome): Staged
  {
    var call := Workspace.Git(["add", "-A"], repo, 30);
    var o := run(call);
    if !o.Ran? then Staged(Some(Workspace.Caught(o, Handlers)), [call])
    else if o.code != 0 then Staged(Some(ToolModels.ErrorResult("Failed to stage changes: " + o.stderr)), [call])
    else Staged(None, [call])
  }

  function Staging(repo: Paths.Path, p: CommitParams, parse: string -> Paths.Path, resolve: Paths.Path -> Paths.Path,
                   entry: Paths.Path -> Process.Entry, run: Process.Call -> Process.Outcome,
                   outside: Paths.Path -> string): Staged
  {
    if HasFiles(p) then StageFiles(repo, p.files.value, parse, resolve, entry, run, outside) else StageAll(repo, run)
  }

  const NothingStaged := "No changes staged for commit. Use allow_empty=true to create an empty commit."

  /** `git diff --cached --quiet`: exit 0 means nothing is staged. */
  function DiffCall(repo: Paths.Path): Process.Call
  {
    Workspace.Git(["diff", "--cached", "--quiet"], repo, 10)
  }

  /** The commit command: the message, then "--amend" and "--allow-empty" when asked for. */
  function CommitArgv(p: CommitParams): seq<string>
  {
    ["git", "commit", "-m", p.message] + (if p.amend then ["--amend"] else []) + (if p.allowEmpty then ["--allow-empty"] else [])
  }

  function CommitCall(repo: Paths.Path, p: CommitParams): Process.Call
  {
    Process.Call(CommitArgv(p), repo, 60)
  }

  function HashCall(repo: Paths.Path): Process.Call
  {
    Workspace.Git(["rev-parse", "HEAD"], repo, 10)
  }

  /** The commit hash: the stripped output of `git rev-parse HEAD`, or "unknown" when it fails. */
  function CommitHash(code: int, stdout: string): string
  {
    if code == 0 then Strings.Strip(stdout) else "unknown"
  }

  /** The result of a commit that was made. */
  function Committed(repo: Paths.Path, p: CommitParams, stdout: string, hash: string): ToolModels.ToolResult
  {
    var output := if stdout == "" then "Commit created successfully: " + Strings.Take(hash, 8) else stdout;
    ToolModels.SuccessResult(output).(metadata := map["path" := Json.Str(Paths.Show(repo)),
                                                     "commit_hash" := Json.Str(hash),
                                                     "message" := Json.Str(p.message)])
  }

  /** Reading the hash of the commit just made; a timeout here still reports the whole command as timed out. */
  function HashReply(repo: Paths.Path, p: CommitParams, stdout: string, run: Process.Call -> Process.Outcome): Workspace.Reply
  {
    var o := run(HashCall(repo));
    Workspace.Reply(if o.Ran? then Committed(repo, p, stdout, CommitHash(o.code, o.stdout)) else Workspace.Caught(o, Handlers),
                    [HashCall(repo)])
  }

  function CommitReply(repo: Paths.Path, p: CommitParams, run: Process.Call -> Process.Outcome): Workspace.Reply
  {
    var o := run(CommitCall(repo, p));
    if !o.Ran? then Workspace.Reply(Workspace.Caught(o, Handlers), [CommitCall(repo, p)])
    else if o.code != 0 then Workspace.Reply(ToolModels.ErrorResult("Git commit failed: " + o.stderr, o.stdout), [CommitCall(repo, p)])
    else
      var h := HashReply(repo, p, o.stdout, run);
      Workspace.Reply(h.result, [CommitCall(repo, p)] + h.calls)
  }

  /** Everything after staging: the check for staged changes, the commit and its hash. */
  function Finish(repo: Paths.Path, p: CommitParams, run: Process.Call -> Process.Outcome): Workspace.Reply
  {
    var o := run(DiffCall(repo));
    if !o.Ran? then Workspace.Reply(Workspace.Caught(o, Handlers), [DiffCall(repo)])
    else if o.code == 0 && !p.allowEmpty then Workspace.Reply(ToolModels.ErrorResult(NothingStaged), [DiffCall(repo)])
    else
      var c := CommitReply(repo, p, run);
      Workspace.Reply(c.result, [DiffCall(repo)] + c.calls)
  }

  /** `execute`: the repository checks, staging, then the commit. */
  function Execution(inv: ToolModels.ToolInvocation, p: CommitParams, parse: string -> Paths.Path,
                     resolve: Paths.Path -> Paths.Path, entry: Paths.Path -> Process.Entry,
                     run: Process.Call -> Process.Outcome, outside: Paths.Path -> string): Workspace.Reply
  {
    var repo := Repo(inv, p, parse, resolve);
    var bad := Workspace.RepoError(repo, entry);
    if bad.Some? then Workspace.Reply(ToolModels.ErrorResult(bad.value), [])
    else
      var s := Staging(repo, p, parse, resolve, entry, run, outside);
      if s.stop.Some? then Workspace.Reply(s.stop.value, s.calls)
      else
        var f := Finish(repo, p, run);
        Workspace.Reply(f.result, s.calls + f.calls)
  }

  /** Once staging has stopped at some file, the files after it change nothing. */
  lemma {:induction false} StopPersists(repo: Paths.Path, files: seq<string>, j: nat, parse: string -> Paths.Path,
                                       resolve: Paths.Path -> Paths.Path, entry: Paths.Path -> Process.Entry,
                                       run: Process.Call -> Process.Outcome, outside: Paths.Path -> string)
    requires j <= |files| && StageFiles(repo, files[..j], parse, resolve, entry, run, outside).stop.Some?
    ensures StageFiles(repo, files, parse, resolve, entry, run, outside) == StageFiles(repo, files[..j], parse, resolve, entry, run, outside)
  {
    if j < |files| {
      var init := files[..|files| - 1];
      assert init[..j] == files[..j];
      StopPersists(repo, init, j, parse, resolve, entry, run, outside);
    } else {
      assert files[..j] == files;
    }
  }

  /** The staging loop, with `return` at the first file that fails. */
  method StageListed(repo: Paths.Path, files: seq<string>, parse: string -> Paths.Path, resolve: Paths.Path -> Paths.Path,
                     entry: Paths.Path -> Process.Entry, run: Process.Call -> Process.Outcome,
                     outside: Paths.Path -> string)
    returns (stop: Option<ToolModels.ToolResult>, calls: seq<Process.Call>)
    ensures Staged(stop, calls) == StageFiles(repo, files, parse, resolve, entry, run, outside)
  {
    calls := [];
    var i := 0;
    while i < |files|
      invariant 0 <= i <= |files|
      invariant Staged(None, calls) == StageFiles(repo, files[..i], parse, resolve, entry, run, outside)
    {
      assert files[..i + 1][..i] == files[..i];
      var step := StageOne(repo, files[i], parse, resolve, entry, run, outside);
      calls := calls + step.calls;
      if step.stop.Some? {
        StopPersists(repo, files, i + 1, parse, resolve, entry, run, outside);
        return step.stop, calls;
      }
      i := i + 1;
    }
    assert files[..i] == files;
    stop := None;
  }

  /** The body of the staging loop for one file. */
  method StageOne(repo: Paths.Path, file: string, parse: string -> Paths.Path, resolve: Paths.Path -> Paths.Path,
                  entry: Paths.Path -> Process.Entry, run: Process.Call -> Process.Outcome,
                  outside: Paths.Path -> string)
    returns (step: Staged)
    ensures step == StageFile(repo, file, parse, resolve, entry, run, outside)
  {
    var fp := Paths.ResolvePath(repo, parse(file), resolve);
    if entry(fp) == Process.Absent {
      return Staged(Some(ToolModels.ErrorResult("File not found: " + file)), []);
    }
    var rel := Paths.RelativeTo(fp, repo);
    if rel.None? {
      return Staged(Some(ToolModels.ErrorResult(Handlers.failed + outside(fp))), []);
    }
    var call := Process.Call(["git", "add", Paths.Show(rel.value)], repo, 30);
    assert call == Workspace.Git(["add", Paths.Show(rel.value)], repo, 30);
    var o := run(call);
    if !o.Ran? {
      return Staged(Some(Workspace.Caught(o, Handlers)), [call]);
    }
    if o.code != 0 {
      return Staged(Some(ToolModels.ErrorResult("Failed to stage file " + file + ": " + o.stderr)), [call]);
    }
    step := Staged(None, [call]);
  }

  /** The steps after staging, building `cmd` flag by flag. */
  method Commit(repo: Paths.Path, p: CommitParams, run: Process.Call -> Process.Outcome)
    returns (r: ToolModels.ToolResult, calls: seq<Process.Call>)
    ensures Workspace.Reply(r, calls) == Finish(repo, p, run)
  {
    calls := [DiffCall(repo)];
    var status := run(DiffCall(repo));
    if !status.Ran? {
      return Workspace.Caught(status, Handlers), calls;
    }
    if status.code == 0 && !p.allowEmpty {
      return ToolModels.ErrorResult(NothingStaged), calls;
    }
    var cmd := ["git", "commit", "-m", p.message];
    if p.amend {
      cmd := cmd + ["--amend"];
    }
    if p.allowEmpty {
      cmd := cmd + ["--allow-empty"];
    }
    assert cmd == CommitArgv(p);
    calls := calls + [Process.Call(cmd, repo, 60)];
    var result := run(Process.Call(cmd, repo, 60));
    if !result.Ran? {
      return Workspace.Caught(result, Handlers), calls;
    }
    if result.code != 0 {
      return ToolModels.ErrorResult("Git commit failed: " + result.stderr, result.stdout), calls;
    }
    calls := calls + [HashCall(repo)];
    r := Record(repo, p, result.stdout, run);
  }

  /** Reading the hash of the commit just made, and the result that reports it. */
  method Record(repo: Paths.Path, p: CommitParams, stdout: string, run: Process.Call -> Process.Outcome)
    returns (r: ToolModels.ToolResult)
    ensures r == HashReply(repo, p, stdout, run).result
  {
    var hashResult := run(HashCall(repo));
    if !hashResult.Ran? {
      return Workspace.Caught(hashResult, Handlers);
    }
    var hash := if hashResult.code == 0 then Strings.Strip(hashResult.stdout) else "unknown";
    var output := stdout;
    if output == "" {
      output := "Commit created successfully: " + Strings.Take(hash, 8);
    }
    r := ToolModels.SuccessResult(output).(metadata := map["path" := Json.Str(Paths.Show(repo)),
                                                          "commit_hash" := Json.Str(hash),
                                                          "message" := Json.Str(p.message)]);
  }

  /** `execute`. */
  method Execute(inv: ToolModels.ToolInvocation, p: CommitParams, parse: string -> Paths.Path,
                 resolve: Paths.Path -> Paths.Path, entry: Paths.Path -> Process.Entry,
                 run: Process.Call -> Process.Outcome, outside: Paths.Path -> string)
    returns (r: ToolModels.ToolResult, calls: seq<Process.Call>)
    ensures Workspace.Reply(r, calls) == Execution(inv, p, parse, resolve, entry, run, outside)
  {
    var repo := Workspace.ProjectPath(inv.cwd, p.path, parse, resolve);
    var bad := Workspace.RepoError(repo, entry);
    if bad.Some? {
      return ToolModels.ErrorResult(bad.value), [];
    }
    var stop: Option<ToolModels.ToolResult>;
    if HasFiles(p) {
      stop, calls := StageListed(repo, p.files.value, parse, resolve, entry, run, outside);
    } else {
      var s := StageAll(repo, run);
      stop, calls := s.stop, s.calls;
    }
    if stop.Some? {
      return stop.value, calls;
    }
    var rest;
    r, rest := Commit(repo, p, run);
    calls := calls + rest;
  }

  // What execution promises

  /** The commit command starts with the message, and carries each flag exactly when it is asked for. */
  lemma CommitFlags(p: CommitParams)
    ensures CommitArgv(p)[..4] == ["git", "commit", "-m", p.message]
    ensures |CommitArgv(p)| == 4 + (if p.amend then 1 else 0) + (if p.allowEmpty then 1 else 0)
    ensures "--amend" in CommitArgv(p)[4..] <==> p.amend
    ensures "--allow-empty" in CommitArgv(p)[4..] <==> p.allowEmpty
    ensures p.amend && p.allowEmpty ==> CommitArgv(p)[4..] == ["--amend", "--allow-empty"]
  {
    var a := if p.amend then ["--amend"] else [];
    var e := if p.allowEmpty then ["--allow-empty"] else [];
    assert CommitArgv(p) == ["git", "commit", "-m", p.message] + (a + e);
    assert CommitArgv(p)[4..] == a + e;
    assert "--amend" != "--allow-empty";
  }

  /** Every command staging runs is a `git add` of the repository, one at most per listed file. */
  lemma {:induction false} StagingAdds(repo: Paths.Path, files: seq<string>, parse: string -> Paths.Path,
                                      resolve: Paths.Path -> Paths.Path, entry: Paths.Path -> Process.Entry,
                                      run: Process.Call -> Process.Outcome, outside: Paths.Path -> string)
    ensures var s := StageFiles(repo, files, parse, resolve, entry, run, outside);
            |s.calls| <= |files| && forall c | c in s.calls :: Adds(c, repo)
  {
    if files != [] {
      StagingAdds(repo, files[..|files| - 1], parse, resolve, entry, run, outside);
    }
  }

  /** A `git add` run in the repository. */
  predicate Adds(c: Process.Call, repo: Paths.Path)
  {
    |c.argv| >= 2 && c.argv[0] == "git" && c.argv[1] == "add" && c.cwd == repo && c.timeout == 30
  }

  /** A repository check that fails stops the tool before any command runs. */
  lemma RepositoryCheckedFirst(inv: ToolModels.ToolInvocation, p: CommitParams, parse: string -> Paths.Path,
                               resolve: Paths.Path -> Paths.Path, entry: Paths.Path -> Process.Entry,
                               run: Process.Call -> Process.Outcome, outside: Paths.Path -> string)
    requires Workspace.RepoError(Repo(inv, p, parse, resolve), entry).Some?
    ensures var e := Execution(inv, p, parse, resolve, entry, run, outside);
            e.calls == [] && e.result.error == Workspace.RepoError(Repo(inv, p, parse, resolve), entry)
  {
  }

  /**
   * A listed file that does not exist ends `execute` with "File not found", after only the
   * `git add` commands of the files before it: nothing is committed.
   */
  lemma MissingFileAborts(inv: ToolModels.ToolInvocation, p: CommitParams, j: nat, parse: string -> Paths.Path,
                          resolve: Paths.Path -> Paths.Path, entry: Paths.Path -> Process.Entry,
                          run: Process.Call -> Process.Outcome, outside: Paths.Path -> string)
    requires Workspace.RepoError(Repo(inv, p, parse, resolve), entry).None?
    requires HasFiles(p) && j < |p.files.value|
    requires StageFiles(Repo(inv, p, parse, resolve), p.files.value[..j], parse, resolve, entry, run, outside).stop.None?
    requires entry(FileTarget(Repo(inv, p, parse, resolve), p.files.value[j], parse, resolve)) == Process.Absent
    ensures var e := Execution(inv, p, parse, resolve, entry, run, outside);
            && e.result == ToolModels.ErrorResult("File not found: " + p.files.value[j])
            && |e.calls| <= j && forall c | c in e.calls :: Adds(c, Repo(inv, p, parse, resolve))
  {
    var repo := Repo(inv, p, parse, resolve);
    var fs := p.files.value;
    assert fs[..j + 1][..j] == fs[..j];
    StopPersists(repo, fs, j + 1, parse, resolve, entry, run, outside);
    StagingAdds(repo, fs[..j], parse, resolve, entry, run, outside);
  }

  /** With nothing staged and no allow_empty, `execute` fails and runs no commit. */
  lemma NothingStagedNoCommit(inv: ToolModels.ToolInvocation, p: CommitParams, parse: string -> Paths.Path,
                              resolve: Paths.Path -> Paths.Path, entry: Paths.Path -> Process.Entry,
                              run: Process.Call -> Process.Outcome, outside: Paths.Path -> string)
    requires Workspace.RepoError(Repo(inv, p, parse, resolve), entry).None?
    requires Staging(Repo(inv, p, parse, resolve), p, parse, resolve, entry, run, outside).stop.None?
    requires run(DiffCall(Repo(inv, p, parse, resolve))).Ran? && run(DiffCall(Repo(inv, p, parse, resolve))).code == 0
    requires !p.allowEmpty
    ensures var e := Execution(inv, p, parse, resolve, entry, run, outside);
            && e.result == ToolModels.ErrorResult(NothingStaged)
            && e.calls == Staging(Repo(inv, p, parse, resolve), p, parse, resolve, entry, run, outside).calls
                          + [DiffCall(Repo(inv, p, parse, resolve))]
            && forall c | c in e.calls :: |c.argv| >= 2 && c.argv[1] != "commit"
  {
    var repo := Repo(inv, p, parse, resolve);
    if HasFiles(p) {
      StagingAdds(repo, p.files.value, parse, resolve, entry, run, outside);
    }
  }

  /**
   * A commit that succeeded ran the commit command, with exit 0, after a check that found staged
   * changes or an allow_empty request; it reports the hash and the message.
   */
  lemma SuccessMeansCommitted(inv: ToolModels.ToolInvocation, p: CommitParams, parse: string -> Paths.Path,
                              resolve: Paths.Path -> Paths.Path, entry: Paths.Path -> Process.Entry,
                              run: Process.Call -> Process.Outcome, outside: Paths.Path -> string)
    requires Execution(inv, p, parse, resolve, entry, run, outside).result.success
    ensures var repo := Repo(inv, p, parse, resolve);
            var d := run(DiffCall(repo));
            d.Ran? && (d.code != 0 || p.allowEmpty)
    ensures var repo := Repo(inv, p, parse, resolve);
            var c := run(CommitCall(repo, p));
            c.Ran? && c.code == 0
    ensures var repo := Repo(inv, p, parse, resolve);
            var e := Execution(inv, p, parse, resolve, entry, run, outside);
            && |e.calls| >= 3 && e.calls[|e.calls| - 2..] == [CommitCall(repo, p), HashCall(repo)]
            && "message" in e.result.metadata && e.result.metadata["message"] == Json.Str(p.message)
  {
    var repo := Repo(inv, p, parse, resolve);
    var s := Staging(repo, p, parse, resolve, entry, run, outside);
    if s.stop.Some? {
      StopFails(repo, p, parse, resolve, entry, run, outside);
    }
    var f := Finish(repo, p, run);
    var c := CommitReply(repo, p, run);
    var h := HashReply(repo, p, run(CommitCall(repo, p)).stdout, run);
    assert f.calls == [DiffCall(repo)] + c.calls;
    assert c.calls == [CommitCall(repo, p), HashCall(repo)];
    assert (s.calls + f.calls)[|s.calls + f.calls| - 2..] == [CommitCall(repo, p), HashCall(repo)];
  }

  /** Staging stops only with a failure. */
  lemma StopFails(repo: Paths.Path, p: CommitParams, parse: string -> Paths.Path,
                  resolve: Paths.Path -> Paths.Path, entry: Paths.Path -> Process.Entry,
                  run: Process.Call -> Process.Outcome, outside: Paths.Path -> string)
    ensures var s := Staging(repo, p, parse, resolve, entry, run, outside);
            s.stop.Some? ==> !s.stop.value.success
  {
    if HasFiles(p) {
      StageFilesFail(repo, p.files.value, parse, resolve, entry, run, outside);
    }
  }

  lemma {:induction false} StageFilesFail(repo: Paths.Path, files: seq<string>, parse: string -> Paths.Path,
                                         resolve: Paths.Path -> Paths.Path, entry: Paths.Path -> Process.Entry,
                                         run: Process.Call -> Process.Outcome, outside: Paths.Path -> string)
    ensures var s := StageFiles(repo, files, parse, resolve, entry, run, outside);
            s.stop.Some? ==> !s.stop.value.success
  {
    if files != [] {
      StageFilesFail(repo, files[..|files| - 1], parse, resolve, entry, run, outside);
    }
  }

  /** A commit with no output of its own reports the first 8 characters of its hash. */
  lemma ShortHashReported(repo: Paths.Path, p: CommitParams, hash: string)
    ensures var r := Committed(repo, p, "", hash);
            && |r.output| == |"Commit created successfully: "| + (if |hash| < 8 then |hash| else 8)
            && r.output[|"Commit created successfully: "|..] <= hash
            && r.metadata["commit_hash"] == Json.Str(hash)
  {
    var r := Committed(repo, p, "", hash);
    assert r.output[|"Commit created successfully: "|..] == Strings.Take(hash, 8);
  }
}
