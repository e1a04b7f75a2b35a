/**
 * The shell tool (core/tools/builtin/shell.py): the blocked-command screen of its confirmation
 * and of `execute`, the working directory, the environment handed to the child, and the
 * assembly of the result from the child's exit code and output streams. The child itself is
 * the oracle `run`; `fnmatch.fnmatch` is the oracle `fnmatch`; `Path(...)` of the cwd string is
 * `parse`; `exists()` is `present`.
 */
module Shell {
  import opened Wrappers
  import Strings
  import Json
  import Paths
  import Config
  import ToolModels
  import Process

  const Name := "shell"

  /** `BLOCKED_COMMANDS`. */
  const BlockedCommands: seq<string> := [
    "rm -rf /", "rm -rf ~", "rm -rf /*", "dd if=/dev/zero", "dd if=/dev/random", "mkfs", "fdisk", "parted",
    ":(){ :|:& };:", "chmod 777 /", "chmod -R 777", "shutdown", "reboot", "halt", "poweroff", "init 0", "init 6"]

  const MaxOutput: nat := 100 * 1024
  const TruncationNote := "\n... [output truncated]"
  const StderrHeading := "\n--- stderr ---\n"

  // The blocked-command screen

  /** The `for blocked in BLOCKED_COMMANDS: if blocked in text` search: an entry found in `text`, if any. */
  function FindBlocked(text: string, entries: seq<string>): (r: Option<string>)
    ensures r.Some? <==> Strings.ContainsAny(text, entries)
    ensures r.Some? ==> r.value in entries && Strings.Contains(text, r.value)
    decreases |entries|
  {
    if entries == [] then None
    else if Strings.Contains(text, entries[0]) then Some(entries[0])
    else
      var r := FindBlocked(text, entries[1..]);
      assert Strings.ContainsAny(text, entries[1..]) <==> Strings.ContainsAny(text, entries) by {
        if Strings.ContainsAny(text, entries) {
          var i :| 0 <= i < |entries| && Strings.Contains(text, entries[i]);
          assert entries[1..][i - 1] == entries[i];
        }
        if Strings.ContainsAny(text, entries[1..]) {
          var i :| 0 <= i < |entries| - 1 && Strings.Contains(text, entries[1..][i]);
          assert entries[i + 1] == entries[1..][i];
        }
      }
      r
  }

  /** What `get_confirmation` screens: the raw command, compared case-sensitively. */
  predicate Dangerous(command: string)
  {
    Strings.ContainsAny(command, BlockedCommands)
  }

  /** `params.command.lower().strip()`. */
  function Normalised(command: string): string
  {
    Strings.Strip(Strings.ToLower(command))
  }

  /** What `execute` screens, as written: the normalised command against the entries as they are. */
  predicate BlockedAsWritten(command: string)
  {
    Strings.ContainsAny(Normalised(command), BlockedCommands)
  }

  /** Each entry lower-cased. */
  function Lowered(entries: seq<string>): (r: seq<string>)
    ensures |r| == |entries| && forall i | 0 <= i < |entries| :: r[i] == Strings.ToLower(entries[i])
  {
    seq(|entries|, i requires 0 <= i < |entries| => Strings.ToLower(entries[i]))
  }

  /** The screen `execute` evidently intends: the normalised command against lower-cased entries. */
  predicate Blocked(command: string)
  {
    Strings.ContainsAny(Normalised(command), Lowered(BlockedCommands))
  }

  /** `get_confirmation`: "(BLOCKED)" and dangerous exactly when a blocked entry occurs in the command. */
  function GetConfirmation(inv: ToolModels.ToolInvocation, command: string): (c: ToolModels.ToolConfirmation)
    ensures c.isDangerous <==> Dangerous(command)
    ensures c.toolName == Name && c.params == inv.params && c.command == Some(command)
    ensures c.diff == None && c.affectedPaths == []
    ensures c.description == (if c.isDangerous then "Execute (BLOCKED): " else "Execute: ") + command
  {
    var found := FindBlocked(command, BlockedCommands);
    ToolModels.ToolConfirmation(Name, inv.params, (if found.Some? then "Execute (BLOCKED): " else "Execute: ") + command,
                                None, [], Some(command), found.Some?)
  }

  lemma LStripHasNoCapitals(t: string)
    requires Strings.NoCapitals(t)
    ensures Strings.NoCapitals(Strings.LStrip(t))
  {
    var l := Strings.LStrip(t);
    forall k | 0 <= k < |l|
      ensures !Strings.Capital(l[k])
    {
      assert l[k] == t[|t| - |l| + k];
    }
  }

  lemma RStripHasNoCapitals(t: string)
    requires Strings.NoCapitals(t)
    ensures Strings.NoCapitals(Strings.RStrip(t))
  {
    var r := Strings.RStrip(t);
    forall k | 0 <= k < |r|
      ensures !Strings.Capital(r[k])
    {
      assert r[k] == t[k];
    }
  }

  /** Lower-casing and stripping leave no capital letter. */
  lemma NormalisedHasNoCapitals(command: string)
    ensures Strings.NoCapitals(Normalised(command))
  {
    Strings.LowerHasNoCapitals(command);
    LStripHasNoCapitals(Strings.ToLower(command));
    RStripHasNoCapitals(Strings.LStrip(Strings.ToLower(command)));
  }

  /**
   * As written, the entry "chmod -R 777" can never stop `execute`: it holds a capital letter,
   * and the command it is compared with has none.
   */
  lemma ChmodEntryNeverMatches(command: string)
    ensures !Strings.Contains(Normalised(command), "chmod -R 777")
  {
    var n := Normalised(command);
    NormalisedHasNoCapitals(command);
    assert 'R' !in n by {
      forall k | 0 <= k < |n|
        ensures n[k] != 'R'
      {
        assert !Strings.Capital(n[k]);
      }
    }
    Strings.LacksChar(n, "chmod -R 777", 'R');
  }

  /** Lower-casing distributes over a three-part concatenation. */
  lemma ToLower3(a: string, b: string, c: string)
    ensures Strings.ToLower(a + b + c) == Strings.ToLower(a) + Strings.ToLower(b) + Strings.ToLower(c)
  {
    Strings.ToLowerAppend(a + b, c);
    Strings.ToLowerAppend(a, b);
  }

  /** A text whose lower case `t` neither starts nor ends with whitespace normalises to `t`. */
  lemma NormalisedIsLower(command: string, t: string)
    requires Strings.ToLower(command) == t && Trimmed(t)
    ensures Normalised(command) == t
  {
    assert Strings.LStrip(t) == t;
    assert Strings.RStrip(t) == t;
  }

  lemma ChmodSplit()
    ensures "chmod -R 777" == "chmod -" + "R" + " 777"
    ensures "chmod -" + "r" + " 777" == "chmod -r 777"
  {
  }

  lemma ChmodPiecesLowered()
    ensures Strings.ToLower("chmod -") == "chmod -" && Strings.ToLower(" 777") == " 777"
    ensures Strings.ToLower("R") == "r"
  {
    ChmodHeadPlain();
    Strings.ToLowerKeeps("chmod -");
    ChmodTailPlain();
    Strings.ToLowerKeeps(" 777");
  }

  lemma ChmodHeadPlain()
    ensures Strings.NoCapitals("chmod -")
  {
  }

  lemma ChmodTailPlain()
    ensures Strings.NoCapitals(" 777")
  {
  }

  lemma ChmodLowered()
    ensures Strings.ToLower("chmod -R 777") == "chmod -r 777"
  {
    ChmodSplit();
    ToLower3("chmod -", "R", " 777");
    ChmodPiecesLowered();
  }

  /** The normalised form of "chmod -R 777". */
  lemma NormaliseChmodExample()
    ensures Normalised("chmod -R 777") == "chmod -r 777"
  {
    ChmodLowered();
    ChmodTrimmed();
    NormalisedIsLower("chmod -R 777", "chmod -r 777");
  }

  lemma ChmodTrimmed()
    ensures Trimmed("chmod -r 777")
  {
  }

  /** For each entry, one of its characters that "chmod -r 777" lacks. */
  const ChmodExampleMisses := "fffiikfp:/Rueapii"

  /** No entry, as written, occurs in "chmod -r 777". */
  lemma ChmodExampleMissesAll()
    ensures forall i | 0 <= i < |BlockedCommands| :: !Strings.Contains("chmod -r 777", BlockedCommands[i])
  {
    forall i | 0 <= i < |BlockedCommands|
      ensures !Strings.Contains("chmod -r 777", BlockedCommands[i])
    {
      Strings.LacksChar("chmod -r 777", BlockedCommands[i], ChmodExampleMisses[i]);
    }
  }

  lemma ChmodExampleDangerous()
    ensures Strings.Contains("chmod -R 777", BlockedCommands[10])
  {
    assert Strings.OccursAt(BlockedCommands[10], "chmod -R 777", 0);
  }

  /** "chmod -R 777" is flagged as dangerous by the confirmation, yet `execute` as written runs it. */
  lemma ChmodSlipsThrough()
    ensures Dangerous("chmod -R 777")
    ensures !BlockedAsWritten("chmod -R 777")
  {
    ChmodFlagged();
    ChmodRuns();
  }

  lemma ChmodFlagged()
    ensures Dangerous("chmod -R 777")
  {
    ChmodExampleDangerous();
  }

  lemma ChmodRuns()
    ensures !BlockedAsWritten("chmod -R 777")
  {
    NormaliseChmodExample();
    ChmodExampleMissesAll();
  }

  /** Non-empty, and neither starting nor ending with whitespace. */
  predicate Trimmed(b: string)
  {
    b != [] && !Strings.IsSpace(b[0]) && !Strings.IsSpace(b[|b| - 1])
  }

  /** Stripping on the left keeps an occurrence of a text that starts with no whitespace. */
  lemma LStripKeepsOccurrence(s: string, b: string, i: int) returns (j: int)
    requires Strings.OccursAt(b, s, i) && Trimmed(b)
    ensures Strings.OccursAt(b, Strings.LStrip(s), j)
  {
    var d := |s| - |Strings.LStrip(s)|;
    BlankPrefix(s, d);
    FirstOfOccurrence(s, b, i);
    j := i - d;
    SliceOfDrop(s, d, j, |b|);
  }

  /** Every character of a blank prefix is whitespace. */
  lemma BlankPrefix(s: string, d: nat)
    requires d <= |s| && Strings.IsBlank(s[..d])
    ensures forall k | 0 <= k < d :: Strings.IsSpace(s[k])
  {
    forall k | 0 <= k < d
      ensures Strings.IsSpace(s[k])
    {
      assert s[..d][k] == s[k];
    }
  }

  lemma FirstOfOccurrence(s: string, b: string, i: int)
    requires Strings.OccursAt(b, s, i) && b != []
    ensures s[i] == b[0]
  {
    assert s[i..i + |b|][0] == b[0];
  }

  lemma SliceOfDrop(s: string, d: nat, x: nat, n: nat)
    requires d + x + n <= |s|
    ensures s[d..][x..x + n] == s[d + x..d + x + n]
  {
  }

  /** Stripping on the right keeps an occurrence of a text that ends with no whitespace. */
  lemma RStripKeepsOccurrence(s: string, b: string, i: int)
    requires Strings.OccursAt(b, s, i) && Trimmed(b)
    ensures Strings.OccursAt(b, Strings.RStrip(s), i)
  {
    var n := Strings.RStrip(s);
    var e := |n|;
    var last := i + |b| - 1;
    assert s[last] == b[|b| - 1] by { assert s[i..i + |b|][|b| - 1] == b[|b| - 1]; }
    assert forall k | e <= k < |s| :: Strings.IsSpace(s[k]) by {
      forall k | e <= k < |s|
        ensures Strings.IsSpace(s[k])
      {
        assert s[e..][k - e] == s[k];
      }
    }
    assert n[i..i + |b|] == s[i..i + |b|];
  }

  /** Stripping keeps an occurrence of a trimmed text. */
  lemma StripKeepsOccurrence(s: string, b: string, i: int)
    requires Strings.OccursAt(b, s, i) && Trimmed(b)
    ensures Strings.Contains(Strings.Strip(s), b)
  {
    var j := LStripKeepsOccurrence(s, b, i);
    RStripKeepsOccurrence(Strings.LStrip(s), b, j);
  }

  lemma LowerKeepsSpace(c: char)
    ensures Strings.IsSpace(Strings.Lower(c)) <==> Strings.IsSpace(c)
  {
  }

  /** Every entry is trimmed. */
  lemma EntriesTrimmed()
    ensures forall i | 0 <= i < |BlockedCommands| :: Trimmed(BlockedCommands[i])
  {
  }

  /** Lower-casing keeps a text trimmed. */
  lemma LowerTrimmed(b: string)
    requires Trimmed(b)
    ensures Trimmed(Strings.ToLower(b))
  {
    LowerKeepsSpace(b[0]);
    LowerKeepsSpace(b[|b| - 1]);
  }

  /** A trimmed entry that occurs in a command occurs, lower-cased, in the normalised command. */
  lemma MentionedIsBlocked(command: string, entries: seq<string>)
    requires forall i | 0 <= i < |entries| :: Trimmed(entries[i])
    requires Strings.ContainsAny(command, entries)
    ensures Strings.ContainsAny(Normalised(command), Lowered(entries))
  {
    var i :| 0 <= i < |entries| && Strings.Contains(command, entries[i]);
    var b := entries[i];
    var j :| 0 <= j <= |command| - |b| && Strings.OccursAt(b, command, j);
    Strings.LowerKeepsOccurrence(command, b, j);
    LowerTrimmed(b);
    StripKeepsOccurrence(Strings.ToLower(command), Strings.ToLower(b), j);
    assert Strings.Contains(Normalised(command), Lowered(entries)[i]);
  }

  /** With the intended screen, whatever the confirmation flags as dangerous `execute` refuses. */
  lemma DangerousIsBlocked(command: string)
    requires Dangerous(command)
    ensures Blocked(command)
  {
    EntriesTrimmed();
    MentionedIsBlocked(command, BlockedCommands);
  }

  /** No entry, as written, occurs in "HALT": each starts with a character the text lacks. */
  lemma ShoutedMissesAll()
    ensures forall i | 0 <= i < |BlockedCommands| :: !Strings.Contains("HALT", BlockedCommands[i])
  {
    forall i | 0 <= i < |BlockedCommands|
      ensures !Strings.Contains("HALT", BlockedCommands[i])
    {
      Strings.LacksChar("HALT", BlockedCommands[i], BlockedCommands[i][0]);
    }
  }

  lemma HaltLowered()
    ensures Strings.ToLower("HALT") == "halt"
    ensures Strings.ToLower("halt") == "halt"
  {
    Strings.ToLowerKeeps("halt");
  }

  /**
   * The converse fails: the confirmation compares case-sensitively, so "HALT" draws no warning,
   * yet `execute` as written refuses it, as the intended screen does.
   */
  lemma ShoutedIsBlockedNotDangerous()
    ensures !Dangerous("HALT")
    ensures BlockedAsWritten("HALT")
    ensures Blocked("HALT")
  {
    ShoutedNotFlagged();
    ShoutedRefusedAsWritten();
    ShoutedRefused();
  }

  /** The confirmation evidently intended: it warns exactly about the commands the intended screen refuses. */
  function IntendedConfirmation(inv: ToolModels.ToolInvocation, command: string): (c: ToolModels.ToolConfirmation)
    ensures c.isDangerous <==> Blocked(command)
    ensures c.toolName == Name && c.params == inv.params && c.command == Some(command)
    ensures c.description == (if c.isDangerous then "Execute (BLOCKED): " else "Execute: ") + command
  {
    var refused := Blocked(command);
    ToolModels.ToolConfirmation(Name, inv.params, (if refused then "Execute (BLOCKED): " else "Execute: ") + command,
                                None, [], Some(command), refused)
  }

  /** The intended confirmation warns about everything the written one does, and also about "HALT". */
  lemma IntendedConfirmationWarnsMore(inv: ToolModels.ToolInvocation, command: string)
    ensures GetConfirmation(inv, command).isDangerous ==> IntendedConfirmation(inv, command).isDangerous
    ensures IntendedConfirmation(inv, "HALT").isDangerous && !GetConfirmation(inv, "HALT").isDangerous
  {
    if Dangerous(command) {
      DangerousIsBlocked(command);
    }
    ShoutedIsBlockedNotDangerous();
  }

  lemma ShoutedNotFlagged()
    ensures !Dangerous("HALT")
  {
    ShoutedMissesAll();
  }

  lemma ShoutedRefusedAsWritten()
    ensures BlockedAsWritten("HALT")
  {
    assert BlockedCommands[13] == "halt";
  }

  lemma ShoutedRefused()
    ensures Blocked("HALT")
  {
    HaltNormalised();
    HaltEntryLowered();
    assert Strings.Contains(Normalised("HALT"), Lowered(BlockedCommands)[13]);
  }

  lemma HaltNormalised()
    ensures Normalised("HALT") == "halt"
  {
    HaltLowered();
    HaltTrimmed();
    NormalisedIsLower("HALT", "halt");
  }

  lemma HaltTrimmed()
    ensures Trimmed("halt")
  {
  }

  lemma HaltEntryLowered()
    ensures Lowered(BlockedCommands)[13] == "halt"
    ensures Strings.Contains("halt", "halt")
  {
    HaltLowered();
    assert Strings.OccursAt("halt", "halt", 0);
  }

  // The working directory and the environment

  /** `Path(params.cwd)`, joined onto the invocation's cwd unless absolute; the invocation's cwd when not given. */
  function WorkingDirectory(base: Paths.Path, cwd: Option<string>, parse: string -> Paths.Path): (dir: Paths.Path)
    ensures !ToolModels.Given(cwd) ==> dir == base
    ensures ToolModels.Given(cwd) && parse(cwd.value).absolute ==> dir == parse(cwd.value)
    ensures ToolModels.Given(cwd) && !parse(cwd.value).absolute ==>
              dir.absolute == base.absolute && dir.parts == base.parts + parse(cwd.value).parts
  {
    if ToolModels.Given(cwd) then Paths.JoinPath(base, parse(cwd.value)) else base
  }

  /** Some of the exclude patterns match the variable's name, both upper-cased. */
  predicate Excluded(key: string, patterns: seq<string>, fnmatch: (string, string) -> bool)
  {
    exists p | p in patterns :: fnmatch(Strings.ToUpper(key), Strings.ToUpper(p))
  }

  /** The variables no pattern of `patterns` excludes. */
  function Kept(environ: map<string, string>, patterns: seq<string>, fnmatch: (string, string) -> bool)
    : map<string, string>
  {
    map k | k in environ && !Excluded(k, patterns, fnmatch) :: environ[k]
  }

  /** `_build_environment`: the process environment less the excluded names, then `set_vars` on top. */
  function Environment(environ: map<string, string>, policy: Config.ShellEnvironmentPolicy,
                       fnmatch: (string, string) -> bool): map<string, string>
  {
    (if policy.ignoreDefaultExcludes then environ else Kept(environ, policy.excludePatterns, fnmatch)) + policy.setVars
  }

  /**
   * A variable reaches the child exactly when `set_vars` names it, or it is in the process
   * environment and not excluded; `set_vars` wins over the process environment.
   */
  lemma EnvironmentContents(environ: map<string, string>, policy: Config.ShellEnvironmentPolicy,
                            fnmatch: (string, string) -> bool, k: string)
    ensures var env := Environment(environ, policy, fnmatch);
            && (k in env <==> k in policy.setVars
                              || (k in environ && (policy.ignoreDefaultExcludes || !Excluded(k, policy.excludePatterns, fnmatch))))
            && (k in policy.setVars ==> env[k] == policy.setVars[k])
            && (k in env && k !in policy.setVars ==> env[k] == environ[k])
  {
  }

  /** Under the default policy, a variable whose name matches "*TOKEN*" is not passed on unless set explicitly. */
  lemma DefaultHidesTokens(environ: map<string, string>, fnmatch: (string, string) -> bool, k: string)
    requires k in environ && fnmatch(Strings.ToUpper(k), "*TOKEN*")
    ensures k !in Environment(environ, Config.DefaultShellEnvironment, fnmatch)
  {
    TokenPatternUpper();
    assert Config.DefaultShellEnvironment.excludePatterns[1] == "*TOKEN*";
    ExcludedIsHidden(environ, Config.DefaultShellEnvironment, fnmatch, k, "*TOKEN*");
  }

  lemma TokenPatternUpper()
    ensures Strings.ToUpper("*TOKEN*") == "*TOKEN*"
  {
    var t := "*TOKEN*";
    var u := Strings.ToUpper(t);
    assert forall i | 0 <= i < |t| :: u[i] == Strings.Upper(t[i]) == t[i];
  }

  /** A variable matched by an exclude pattern of a policy that applies them, and not set explicitly, is not passed on. */
  lemma ExcludedIsHidden(environ: map<string, string>, policy: Config.ShellEnvironmentPolicy,
                         fnmatch: (string, string) -> bool, k: string, p: string)
    requires !policy.ignoreDefaultExcludes && p in policy.excludePatterns && k !in policy.setVars
    requires fnmatch(Strings.ToUpper(k), Strings.ToUpper(p))
    ensures k !in Environment(environ, policy, fnmatch)
  {
    assert Excluded(k, policy.excludePatterns, fnmatch);
  }

  /** Removing the names one more pattern matches. */
  lemma KeptStep(environ: map<string, string>, patterns: seq<string>, p: string, fnmatch: (string, string) -> bool)
    ensures Kept(environ, patterns + [p], fnmatch)
            == Kept(environ, patterns, fnmatch) - (set k | k in Kept(environ, patterns, fnmatch) && fnmatch(Strings.ToUpper(k), Strings.ToUpper(p)))
  {
    var ps := patterns + [p];
    forall k
      ensures Excluded(k, ps, fnmatch) <==> Excluded(k, patterns, fnmatch) || fnmatch(Strings.ToUpper(k), Strings.ToUpper(p))
    {
      if Excluded(k, patterns, fnmatch) {
        var q :| q in patterns && fnmatch(Strings.ToUpper(k), Strings.ToUpper(q));
        assert q in ps;
      }
      if fnmatch(Strings.ToUpper(k), Strings.ToUpper(p)) {
        assert p in ps;
      }
      if Excluded(k, ps, fnmatch) {
        var q :| q in ps && fnmatch(Strings.ToUpper(k), Strings.ToUpper(q));
        assert q in patterns || q == p;
      }
    }
  }

  /** The `for pattern in exclude_patterns` loop, deleting the matching keys, then `env.update(set_vars)`. */
  method BuildEnvironment(environ: map<string, string>, policy: Config.ShellEnvironmentPolicy,
                          fnmatch: (string, string) -> bool)
    returns (env: map<string, string>)
    ensures env == Environment(environ, policy, fnmatch)
  {
    env := environ;
    if !policy.ignoreDefaultExcludes {
      var patterns := policy.excludePatterns;
      assert Kept(environ, patterns[..0], fnmatch) == environ;
      var i := 0;
      while i < |patterns|
        invariant i <= |patterns|
        invariant env == Kept(environ, patterns[..i], fnmatch)
      {
        var pattern := Strings.ToUpper(patterns[i]);
        var remove := set k | k in env && fnmatch(Strings.ToUpper(k), pattern);
        KeptStep(environ, patterns[..i], patterns[i], fnmatch);
        assert patterns[..i + 1] == patterns[..i] + [patterns[i]];
        env := env - remove;
        i := i + 1;
      }
      assert patterns[..i] == patterns;
    }
    env := env + policy.setVars;
  }

  // The result

  /** The program and arguments the child is started with. */
  function Argv(windows: bool, command: string): seq<string>
  {
    if windows then ["cmd.exe", "/c", command] else ["/bin/bash", "-c", command]
  }

  /** How the child is started: program and arguments, directory, environment and timeout. */
  datatype Launch = Launch(argv: seq<string>, cwd: Paths.Path, env: map<string, string>, timeout: int)

  /** The standard output, stripped on the right, when it is not blank. */
  function StdoutSection(stdout: string): string
  {
    if Strings.Strip(stdout) != "" then Strings.RStrip(stdout) else ""
  }

  /** The standard error under its heading, when it is not blank. */
  function StderrSection(stderr: string): string
  {
    if Strings.Strip(stderr) != "" then StderrHeading + Strings.RStrip(stderr) else ""
  }

  /** `f"\nExit code: {exit_code}"`. */
  function ExitNote(code: int): string
  {
    "\nExit code: " + Strings.IntToString(code)
  }

  /** The exit code, when it is not 0. */
  function ExitSection(code: int): string
  {
    if code != 0 then ExitNote(code) else ""
  }

  /** The output built from the streams and the exit code, before truncation. */
  function Assembled(stdout: string, stderr: string, code: int): string
  {
    StdoutSection(stdout) + StderrSection(stderr) + ExitSection(code)
  }

  /** A text with something besides whitespace keeps it when stripped on the right. */
  lemma RStripNonBlank(s: string)
    requires Strings.Strip(s) != ""
    ensures Strings.RStrip(s) != ""
  {
    if Strings.RStrip(s) == "" {
      assert s[|Strings.RStrip(s)|..] == s;
      Strings.StripBlank(s);
    }
  }

  /** The output is empty exactly when both streams are blank and the command exited with 0. */
  lemma AssembledEmptyIff(stdout: string, stderr: string, code: int)
    ensures Assembled(stdout, stderr, code) == "" <==> Strings.IsBlank(stdout) && Strings.IsBlank(stderr) && code == 0
  {
    Strings.StripBlank(stdout);
    Strings.StripBlank(stderr);
    if Strings.Strip(stdout) != "" {
      RStripNonBlank(stdout);
    }
  }

  /** The output begins with the standard output, stripped on the right, when that is not blank. */
  lemma AssembledStartsWithStdout(stdout: string, stderr: string, code: int)
    ensures !Strings.IsBlank(stdout) ==> Strings.RStrip(stdout) <= Assembled(stdout, stderr, code)
  {
    if !Strings.IsBlank(stdout) {
      Strings.StripBlank(stdout);
      var first := StdoutSection(stdout);
      assert first == Strings.RStrip(stdout);
      PrefixOfAppend3(first, StderrSection(stderr), ExitSection(code));
    }
  }

  /** A failure ends the output with its exit code. */
  lemma AssembledEndsWithExit(stdout: string, stderr: string, code: int)
    ensures code != 0 ==>
              var note := ExitNote(code);
              var out := Assembled(stdout, stderr, code);
              |note| <= |out| && out[|out| - |note|..] == note
  {
    var head := StdoutSection(stdout) + StderrSection(stderr);
    assert (head + ExitSection(code))[|head|..] == ExitSection(code);
  }

  lemma PrefixOfAppend3(a: string, b: string, c: string)
    ensures a <= a + b + c
  {
    assert (a + b + c)[..|a|] == a;
  }

  /** `output[:100 * 1024] + "\n... [output truncated]"` for output over the limit. */
  function Truncated(output: string): (t: string)
    ensures |output| <= MaxOutput ==> t == output
    ensures |output| > MaxOutput ==> |t| == MaxOutput + |TruncationNote| && t[..MaxOutput] == output[..MaxOutput]
  {
    if |output| > MaxOutput then output[..MaxOutput] + TruncationNote else output
  }

  /** Truncating twice is truncating once: the note is cut off and put back. */
  lemma TruncatedIdempotent(output: string)
    ensures Truncated(Truncated(output)) == Truncated(output)
  {
    if |output| > MaxOutput {
      var t := Truncated(output);
      assert t[..MaxOutput] == output[..MaxOutput];
    }
  }

  /** The result of a child that exited; `truncated` stays false even when the output was cut. */
  function Completed(code: int, stdout: string, stderr: string): (r: ToolModels.ToolResult)
    ensures r.success <==> code == 0
    ensures r.error.Some? <==> code != 0
    ensures r.error.Some? ==> r.error.value == stderr
    ensures r.exitCode == Some(code) && r.metadata == map[] && !r.truncated && r.diff == None
    ensures r.output == Truncated(Assembled(stdout, stderr, code))
  {
    ToolModels.ToolResult(code == 0, Truncated(Assembled(stdout, stderr, code)), if code != 0 then Some(stderr) else None,
                          map[], false, None, Some(code))
  }

  /** The result once the child has ended; an error raised while running it escapes `execute`. */
  function Finished(outcome: Process.Outcome, timeout: int): Result<ToolModels.ToolResult, string>
  {
    match outcome
    case Ran(code, stdout, stderr) => Ok(Completed(code, stdout, stderr))
    case TimedOut => Ok(ToolModels.ErrorResult("Command timed out after " + Strings.IntToString(timeout) + "s"))
    case Raised(_, message) => Err(message)
  }

  function BlockedResult(command: string): ToolModels.ToolResult
  {
    ToolModels.ErrorResult("Command blocked for safety: " + command).(metadata := map["blocked" := Json.Bool(true)])
  }

  /** The `for blocked in BLOCKED_COMMANDS: if blocked in command` loop of `execute`. */
  method Screen(text: string, entries: seq<string>) returns (refused: bool)
    ensures refused <==> Strings.ContainsAny(text, entries)
  {
    var i := 0;
    while i < |entries|
      invariant i <= |entries|
      invariant forall j | 0 <= j < i :: !Strings.Contains(text, entries[j])
    {
      if Strings.Contains(text, entries[i]) {
        return true;
      }
      i := i + 1;
    }
    return false;
  }

  /**
   * `ShellTool.execute`, screening as written: the lower-cased, stripped command against the
   * entries as they stand, so "chmod -R 777" can never match. `launched` is how the child was
   * started, when it was; the result is then what its outcome gives.
   */
  method Execute(inv: ToolModels.ToolInvocation, command: string, timeout: int, cwd: Option<string>,
                 parse: string -> Paths.Path, present: Paths.Path -> bool, environ: map<string, string>,
                 policy: Config.ShellEnvironmentPolicy, fnmatch: (string, string) -> bool, windows: bool,
                 run: Launch -> Process.Outcome)
    returns (r: Result<ToolModels.ToolResult, string>, launched: Option<Launch>)
    ensures BlockedAsWritten(command) ==> r == Ok(BlockedResult(command)) && launched == None
    ensures !BlockedAsWritten(command) && !present(WorkingDirectory(inv.cwd, cwd, parse)) ==>
              launched == None
              && r == Ok(ToolModels.ErrorResult("Working directory doesn't exist: " + Paths.Show(WorkingDirectory(inv.cwd, cwd, parse))))
    ensures !BlockedAsWritten(command) && present(WorkingDirectory(inv.cwd, cwd, parse)) ==>
              launched == Some(Launch(Argv(windows, command), WorkingDirectory(inv.cwd, cwd, parse),
                                      Environment(environ, policy, fnmatch), timeout))
              && r == Finished(run(launched.value), timeout)
  {
    launched := None;
    var refused := Screen(Strings.Strip(Strings.ToLower(command)), BlockedCommands);
    if refused {
      return Ok(BlockedResult(command)), None;
    }
    var dir := WorkingDirectory(inv.cwd, cwd, parse);
    if !present(dir) {
      return Ok(ToolModels.ErrorResult("Working directory doesn't exist: " + Paths.Show(dir))), None;
    }
    var env := BuildEnvironment(environ, policy, fnmatch);
    var launch := Launch(Argv(windows, command), dir, env, timeout);
    launched := Some(launch);
    var outcome := run(launch);
    r := Conclude(outcome, timeout);
  }

  /** What `execute` returns once the child has ended, output truncated as it goes. */
  method Conclude(outcome: Process.Outcome, timeout: int) returns (r: Result<ToolModels.ToolResult, string>)
    ensures r == Finished(outcome, timeout)
  {
    match outcome {
      case TimedOut =>
        r := Ok(ToolModels.ErrorResult("Command timed out after " + Strings.IntToString(timeout) + "s"));
      case Raised(_, message) =>
        r := Err(message);
      case Ran(code, stdout, stderr) =>
        var output := AssembleOutput(stdout, stderr, code);
        if |output| > MaxOutput {
          output := output[..MaxOutput] + TruncationNote;
        }
        r := Ok(ToolModels.ToolResult(code == 0, output, if code != 0 then Some(stderr) else None, map[], false, None, Some(code)));
    }
  }

  /** The step-by-step `output +=` of `execute`. */
  method AssembleOutput(stdout: string, stderr: string, code: int) returns (output: string)
    ensures output == Assembled(stdout, stderr, code)
  {
    output := "";
    if Strings.Strip(stdout) != "" {
      output := output + Strings.RStrip(stdout);
    }
    assert output == StdoutSection(stdout);
    ghost var head := output;
    if Strings.Strip(stderr) != "" {
      output := output + StderrHeading;
      output := output + Strings.RStrip(stderr);
      Regrouped(head, StderrHeading, Strings.RStrip(stderr));
    } else {
      assert head + StderrSection(stderr) == head;
    }
    ghost var body := output;
    if code != 0 {
      output := output + ExitNote(code);
    } else {
      assert body + ExitSection(code) == body;
    }
  }

  /** Appending two pieces one after the other appends their concatenation. */
  lemma Regrouped(a: string, b: string, c: string)
    ensures a + b + c == a + (b + c)
  {
  }
}
