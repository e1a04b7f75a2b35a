/**
 * The git_stash tool (core/tools/builtin/git_stash.py): lists, saves, applies, pops and drops
 * stashes. As in git_branch, the confirmation looks at the action as given and `execute` at
 * its lower case.
 */
module GitStash {
  import opened Wrappers
  import Strings
  import Json
  import Paths
  import Process
  import ToolModels
  import Workspace
  import Approval
  import Config

  const Name := "git_stash"

  /** `GitStashParams` after validation. */
  datatype StashParams = StashParams(path: Option<string>, action: string, message: Option<string>, stashIndex: Option<int>)

  /** `is_mutating`: `params.get("action", "")` is anything but "list", a missing action included. */
  predicate IsMutating(params: map<string, Json.Value>)
  {
    !("action" in params && params["action"] == Json.Str("list"))
  }

  const DropWarning := "\n\U{26A0}\U{FE0F}  This will permanently delete the stash"
  const PopWarning := "\n\U{26A0}\U{FE0F}  This will apply and delete the stash"
  const ApplyWarning := "\n\U{26A0}\U{FE0F}  This will apply stash changes (may cause conflicts)"

  /** `str(params.stash_index) if params.stash_index is not None else "0"`. */
  function IndexText(index: Option<int>): string
  {
    if index.Some? then Strings.IntToString(index.value) else "0"
  }

  /** What `get_confirmation` adds after "<Action> stash". */
  function Detail(p: StashParams): string
  {
    if p.action == "drop" then " (index: " + IndexText(p.stashIndex) + ")" + DropWarning
    else if p.action == "pop" then PopWarning
    else if p.action == "apply" then ApplyWarning
    else ""
  }

  function Description(p: StashParams): string
  {
    Strings.Capitalize(p.action) + " stash" + Detail(p)
  }

  /** `get_confirmation`: every action but "list" asks, and only drop is dangerous. */
  function GetConfirmation(inv: ToolModels.ToolInvocation, p: StashParams): (c: Option<ToolModels.ToolConfirmation>)
    ensures c.None? <==> p.action == "list"
    ensures c.Some? ==> (c.value.isDangerous <==> p.action == "drop")
    ensures c.Some? ==> c.value.toolName == Name && c.value.params == inv.params && c.value.description == Description(p)
    ensures c.Some? ==> c.value.diff == None && c.value.affectedPaths == [] && c.value.command == None
  {
    if p.action == "list" then None
    else Some(ToolModels.Confirmation(Name, inv.params, Description(p)).(isDangerous := p.action == "drop"))
  }

  /** The parameters were validated from the invocation: its "action" is the action string. */
  predicate ParsedFrom(inv: ToolModels.ToolInvocation, p: StashParams)
  {
    "action" in inv.params && inv.params["action"] == Json.Str(p.action)
  }

  /** The tool asks for confirmation exactly when it calls itself mutating. */
  lemma MutatingIffConfirmation(inv: ToolModels.ToolInvocation, p: StashParams)
    requires ParsedFrom(inv, p)
    ensures IsMutating(inv.params) <==> GetConfirmation(inv, p).Some?
  {
  }

  lemma DropCapitalised()
    ensures Strings.Capitalize("drop") == "Drop"
  {
    var s := "drop";
    assert s[1..] == "rop";
  }

  lemma PopCapitalised()
    ensures Strings.Capitalize("pop") == "Pop"
  {
    var s := "pop";
    assert s[1..] == "op";
  }

  lemma ApplyCapitalised()
    ensures Strings.Capitalize("apply") == "Apply"
  {
    var s := "apply";
    assert s[1..] == "pply";
  }

  /** Dropping names the index, 0 when none is given, and warns that the stash is deleted. */
  lemma DropDescription(p: StashParams)
    requires p.action == "drop"
    ensures Description(p) == "Drop stash (index: " + IndexText(p.stashIndex) + ")" + DropWarning
  {
    DropCapitalised();
    assert Strings.Capitalize(p.action) + " stash" == "Drop stash";
    assert Detail(p) == " (index: " + IndexText(p.stashIndex) + ")" + DropWarning;
    assert "Drop stash" + " (index: " == "Drop stash (index: ";
  }

  lemma PopDescription(p: StashParams)
    requires p.action == "pop"
    ensures Description(p) == "Pop stash" + PopWarning
  {
    PopCapitalised();
    assert Strings.Capitalize(p.action) + " stash" == "Pop stash";
    assert Detail(p) == PopWarning;
  }

  lemma ApplyDescription(p: StashParams)
    requires p.action == "apply"
    ensures Description(p) == "Apply stash" + ApplyWarning
  {
    ApplyCapitalised();
    assert Strings.Capitalize(p.action) + " stash" == "Apply stash";
    assert Detail(p) == ApplyWarning;
  }

  // Execution

  const Handlers := Workspace.Handlers("Git stash command timed out", "Failed to perform git stash operation: ")

  /** `f"stash@{{{params.stash_index}}}" if params.stash_index is not None else "stash@{0}"`. */
  function StashRef(index: Option<int>): string
  {
    if index.Some? then "stash@{" + Strings.IntToString(index.value) + "}" else "stash@{0}"
  }

  lemma ZeroText()
    ensures Strings.IntToString(0) == "0"
  {
  }

  /** The reference names the given index, or 0: the same index the metadata reports. */
  lemma StashRefDefaultsToZero(index: Option<int>)
    ensures StashRef(index) == "stash@{" + Strings.IntToString(index.GetOr(0)) + "}"
  {
    if index.None? {
      ZeroText();
      assert "stash@{" + "0" + "}" == "stash@{0}";
    }
  }

  /** `len(output.splitlines())` of the listing, "No stashes found." when git printed nothing. */
  function ListResult(stdout: string): ToolModels.ToolResult
  {
    var output := if stdout == "" then "No stashes found." else stdout;
    ToolModels.SuccessResult(output).(metadata := map["count" := Json.Num(|Strings.SplitLines(output)|)])
  }

  function ListReply(repo: Paths.Path, run: Process.Call -> Process.Outcome): Workspace.Reply
  {
    var call := Workspace.Git(["stash", "list"], repo, 30);
    Workspace.Reply(Workspace.Checked(run(call), Handlers, "Git stash list failed: ", ListResult(Workspace.Stdout(run(call)))), [call])
  }

  /** `cmd` for save: "-m" and the message when one is given. */
  function SaveArgv(message: Option<string>): seq<string>
  {
    ["git", "stash", "push"] + (if ToolModels.Given(message) then ["-m", message.value] else [])
  }

  /** The output of a save that succeeded, and its `{"message": ...}`. */
  function SaveResult(stdout: string, message: Option<string>): ToolModels.ToolResult
  {
    var output := (if stdout == "" then "Changes stashed successfully" else stdout)
                  + (if ToolModels.Given(message) then "\nMessage: " + message.value else "");
    ToolModels.SuccessResult(output).(metadata := map["message" := if message.Some? then Json.Str(message.value) else Json.Null])
  }

  function SaveReply(repo: Paths.Path, message: Option<string>, run: Process.Call -> Process.Outcome): Workspace.Reply
  {
    var call := Process.Call(SaveArgv(message), repo, 60);
    Workspace.Reply(Workspace.Checked(run(call), Handlers, "Failed to save stash: ", SaveResult(Workspace.Stdout(run(call)), message)),
                    [call])
  }

  /** The commands that act on one stash: apply and pop wait 60 seconds, drop 30. */
  predicate Targeted(action: string)
  {
    action == "apply" || action == "pop" || action == "drop"
  }

  function Timeout(action: string): int
  {
    if action == "drop" then 30 else 60
  }

  function Failure(action: string): string
  {
    if action == "apply" then "Failed to apply stash: "
    else if action == "pop" then "Failed to pop stash: "
    else "Failed to drop stash: "
  }

  function Done(action: string, ref: string): string
  {
    if action == "apply" then "Stash applied successfully"
    else if action == "pop" then "Stash popped successfully (applied and removed)"
    else "Stash " + ref + " dropped successfully"
  }

  /** `git stash <action> stash@{N}` and its `{"stash_index": params.stash_index or 0}`. */
  function TargetReply(repo: Paths.Path, action: string, index: Option<int>, run: Process.Call -> Process.Outcome)
    : Workspace.Reply
  {
    var ref := StashRef(index);
    var call := Workspace.Git(["stash", action, ref], repo, Timeout(action));
    var done := ToolModels.SuccessResult(Done(action, ref)).(metadata := map["stash_index" := Json.Num(index.GetOr(0))]);
    Workspace.Reply(Workspace.Checked(run(call), Handlers, Failure(action), done), [call])
  }

  const ValidActions := "Valid actions: list, save, apply, pop, drop"

  /** The `try` block for the lower-cased action, once the repository checks have passed. */
  function ActionReply(repo: Paths.Path, action: string, p: StashParams, run: Process.Call -> Process.Outcome)
    : Workspace.Reply
  {
    if action == "list" then ListReply(repo, run)
    else if action == "save" then SaveReply(repo, p.message, run)
    else if Targeted(action) then TargetReply(repo, action, p.stashIndex, run)
    else Workspace.Reply(ToolModels.ErrorResult("Unknown action: " + action + ". " + ValidActions), [])
  }

  /** The repository the tool works in. */
  function Repo(inv: ToolModels.ToolInvocation, p: StashParams, parse: string -> Paths.Path,
                resolve: Paths.Path -> Paths.Path): Paths.Path
  {
    Workspace.ProjectPath(inv.cwd, p.path, parse, resolve)
  }

  /** `execute`: the repository checks, then the lower-cased action. */
  function Execution(inv: ToolModels.ToolInvocation, p: StashParams, parse: string -> Paths.Path,
                     resolve: Paths.Path -> Paths.Path, entry: Paths.Path -> Process.Entry,
                     run: Process.Call -> Process.Outcome): Workspace.Reply
  {
    var repo := Repo(inv, p, parse, resolve);
    var bad := Workspace.RepoError(repo, entry);
    if bad.Some? then Workspace.Reply(ToolModels.ErrorResult(bad.value), [])
    else ActionReply(repo, Strings.ToLower(p.action), p, run)
  }

  /** `execute`, extending `cmd` and `output` for save, and running each command through `run`. */
  method Execute(inv: ToolModels.ToolInvocation, p: StashParams, parse: string -> Paths.Path,
                 resolve: Paths.Path -> Paths.Path, entry: Paths.Path -> Process.Entry,
                 run: Process.Call -> Process.Outcome)
    returns (r: ToolModels.ToolResult, calls: seq<Process.Call>)
    ensures Workspace.Reply(r, calls) == Execution(inv, p, parse, resolve, entry, run)
  {
    var repo := Repo(inv, p, parse, resolve);
    var bad := Workspace.RepoError(repo, entry);
    if bad.Some? {
      return ToolModels.ErrorResult(bad.value), [];
    }
    var action := Strings.ToLower(p.action);
    if action != "save" {
      var reply := ActionReply(repo, action, p, run);
      return reply.result, reply.calls;
    }
    r := Save(repo, p.message, run);
    calls := [Process.Call(SaveArgv(p.message), repo, 60)];
  }

  /** The save branch of `execute`. */
  method Save(repo: Paths.Path, message: Option<string>, run: Process.Call -> Process.Outcome)
    returns (r: ToolModels.ToolResult)
    ensures r == SaveReply(repo, message, run).result
  {
    var cmd := ["git", "stash", "push"];
    if ToolModels.Given(message) {
      cmd := cmd + ["-m", message.value];
    }
    assert cmd == SaveArgv(message);
    var o := run(Process.Call(cmd, repo, 60));
    if !o.Ran? {
      return Workspace.Caught(o, Handlers);
    }
    if o.code != 0 {
      return ToolModels.ErrorResult("Failed to save stash: " + o.stderr, o.stdout);
    }
    var output := o.stdout;
    if output == "" {
      output := "Changes stashed successfully";
    }
    if ToolModels.Given(message) {
      output := output + "\nMessage: " + message.value;
    }
    r := ToolModels.SuccessResult(output).(metadata := map["message" := if message.Some? then Json.Str(message.value) else Json.Null]);
  }

  // What execution promises

  /** A path that is not a git repository stops the tool before any command runs. */
  lemma RepositoryCheckedFirst(inv: ToolModels.ToolInvocation, p: StashParams, parse: string -> Paths.Path,
                               resolve: Paths.Path -> Paths.Path, entry: Paths.Path -> Process.Entry,
                               run: Process.Call -> Process.Outcome)
    requires Workspace.RepoError(Repo(inv, p, parse, resolve), entry).Some?
    ensures var e := Execution(inv, p, parse, resolve, entry, run);
            e.calls == [] && !e.result.success
            && e.result.error == Workspace.RepoError(Repo(inv, p, parse, resolve), entry)
  {
  }

  /**
   * Apply, pop and drop run one `git stash <action> stash@{N}`, N the given index or 0, and a
   * success reports that same N as its stash_index.
   */
  lemma TargetsIndexOrZero(inv: ToolModels.ToolInvocation, p: StashParams, parse: string -> Paths.Path,
                           resolve: Paths.Path -> Paths.Path, entry: Paths.Path -> Process.Entry,
                           run: Process.Call -> Process.Outcome)
    requires Workspace.RepoError(Repo(inv, p, parse, resolve), entry).None? && Targeted(Strings.ToLower(p.action))
    ensures var e := Execution(inv, p, parse, resolve, entry, run);
            var n := p.stashIndex.GetOr(0);
            && e.calls == [Workspace.Git(["stash", Strings.ToLower(p.action), "stash@{" + Strings.IntToString(n) + "}"],
                                        Repo(inv, p, parse, resolve), Timeout(Strings.ToLower(p.action)))]
            && (e.result.success ==> e.result.metadata == map["stash_index" := Json.Num(n)])
  {
    StashRefDefaultsToZero(p.stashIndex);
  }

  /** Save passes "-m" and the message exactly when a message is given, and echoes it in the output. */
  lemma SaveMessage(inv: ToolModels.ToolInvocation, p: StashParams, parse: string -> Paths.Path,
                    resolve: Paths.Path -> Paths.Path, entry: Paths.Path -> Process.Entry,
                    run: Process.Call -> Process.Outcome)
    requires Workspace.RepoError(Repo(inv, p, parse, resolve), entry).None? && Strings.ToLower(p.action) == "save"
    ensures var e := Execution(inv, p, parse, resolve, entry, run);
            && |e.calls| == 1 && e.calls[0].timeout == 60
            && (ToolModels.Given(p.message) ==> e.calls[0].argv == ["git", "stash", "push", "-m", p.message.value])
            && (!ToolModels.Given(p.message) ==> e.calls[0].argv == ["git", "stash", "push"])
            && (e.result.success && ToolModels.Given(p.message) ==>
                  var tail := "\nMessage: " + p.message.value;
                  |tail| <= |e.result.output| && e.result.output[|e.result.output| - |tail|..] == tail)
  {
  }

  lemma NoStashesIsOneLine()
    ensures |Strings.SplitLines("No stashes found.")| == 1
  {
    Strings.SplitLinesJoin(["No stashes found."]);
  }

  /** An empty listing reads "No stashes found." and counts as one line. */
  lemma EmptyListing(inv: ToolModels.ToolInvocation, p: StashParams, parse: string -> Paths.Path,
                     resolve: Paths.Path -> Paths.Path, entry: Paths.Path -> Process.Entry,
                     run: Process.Call -> Process.Outcome)
    requires Workspace.RepoError(Repo(inv, p, parse, resolve), entry).None? && Strings.ToLower(p.action) == "list"
    requires run(Workspace.Git(["stash", "list"], Repo(inv, p, parse, resolve), 30)).Ran?
    requires run(Workspace.Git(["stash", "list"], Repo(inv, p, parse, resolve), 30)).code == 0
    requires run(Workspace.Git(["stash", "list"], Repo(inv, p, parse, resolve), 30)).stdout == ""
    ensures var e := Execution(inv, p, parse, resolve, entry, run);
            && e.result.success && e.result.output == "No stashes found."
            && e.result.metadata == map["count" := Json.Num(1)]
  {
    NoStashesIsOneLine();
  }

  /** Any other action is an error naming the valid ones, and runs nothing. */
  lemma UnknownAction(inv: ToolModels.ToolInvocation, p: StashParams, parse: string -> Paths.Path,
                      resolve: Paths.Path -> Paths.Path, entry: Paths.Path -> Process.Entry,
                      run: Process.Call -> Process.Outcome)
    requires Workspace.RepoError(Repo(inv, p, parse, resolve), entry).None?
    requires Strings.ToLower(p.action) !in {"list", "save", "apply", "pop", "drop"}
    ensures Execution(inv, p, parse, resolve, entry, run)
            == Workspace.Reply(ToolModels.ErrorResult("Unknown action: " + Strings.ToLower(p.action) + ". " + ValidActions), [])
  {
  }

  lemma ListLowered()
    ensures Strings.ToLower("List") == "list"
  {
    var s := Strings.ToLower("List");
    assert |s| == 4 && s[0] == 'l';
    assert s[1..] == Strings.ToLower("ist");
  }

  /** The `ApprovalContext` the registry builds from a confirmation: no command, no paths, its danger flag. */
  function Judged(inv: ToolModels.ToolInvocation, c: ToolModels.ToolConfirmation, mutating: bool): (ctx: Approval.ApprovalContext)
    ensures ctx.toolName == Name && ctx.params == inv.params && ctx.isMutating == mutating
    ensures ctx.affectedPaths == c.affectedPaths && ctx.command == c.command && ctx.isDangerous == c.isDangerous
  {
    Approval.ApprovalContext(Name, inv.params, mutating, c.affectedPaths, c.command, c.isDangerous)
  }

  /**
   * `check_approval` never rejects a git_stash confirmation, and puts the question to the user
   * only for "drop" outside YOLO: save, apply, pop and any other action are approved without asking.
   */
  lemma OnlyDropIsAsked(inv: ToolModels.ToolInvocation, p: StashParams, m: Approval.ApprovalManager,
                        dangerous: string -> bool, safe: string -> bool)
    requires ParsedFrom(inv, p) && GetConfirmation(inv, p).Some?
    ensures var d := Approval.CheckApproval(m, Judged(inv, GetConfirmation(inv, p).value, IsMutating(inv.params)), dangerous, safe);
            && d != Approval.Rejected
            && (d == Approval.NeedsConfirmation <==> p.action == "drop" && m.policy != Config.Yolo)
  {
    MutatingIffConfirmation(inv, p);
  }

  /**
   * A capitalised "List" gets a confirmation, which `check_approval` approves without asking,
   * and `execute` only lists.
   */
  lemma CapitalisedListAsks(inv: ToolModels.ToolInvocation, p: StashParams, parse: string -> Paths.Path,
                            resolve: Paths.Path -> Paths.Path, entry: Paths.Path -> Process.Entry,
                            run: Process.Call -> Process.Outcome, m: Approval.ApprovalManager,
                            dangerous: string -> bool, safe: string -> bool)
    requires ParsedFrom(inv, p) && p.action == "List"
    requires Workspace.RepoError(Repo(inv, p, parse, resolve), entry).None?
    ensures IsMutating(inv.params) && GetConfirmation(inv, p).Some? && !GetConfirmation(inv, p).value.isDangerous
    ensures Approval.CheckApproval(m, Judged(inv, GetConfirmation(inv, p).value, IsMutating(inv.params)), dangerous, safe)
            == Approval.Approved
    ensures Execution(inv, p, parse, resolve, entry, run).calls == [Workspace.Git(["stash", "list"], Repo(inv, p, parse, resolve), 30)]
  {
    ListLowered();
    assert "List" != "list" && "List" != "drop" by { assert "List"[0] != "list"[0]; }
  }

  /** The `is_mutating` evidently intended: only a listing, in any case, leaves the repository as it is. */
  predicate IsMutatingLowered(params: map<string, Json.Value>)
  {
    !("action" in params && params["action"].Str? && Strings.ToLower(params["action"].s) == "list")
  }

  /**
   * The `get_confirmation` evidently intended: the action lower-cased before it is compared, as
   * `execute` dispatches on it.
   */
  function GetConfirmationLowered(inv: ToolModels.ToolInvocation, p: StashParams): (c: Option<ToolModels.ToolConfirmation>)
    ensures c.None? <==> Strings.ToLower(p.action) == "list"
    ensures c.Some? ==> (c.value.isDangerous <==> Strings.ToLower(p.action) == "drop")
    ensures c.Some? ==> c.value.toolName == Name && c.value.params == inv.params
                        && c.value.description == Description(p.(action := Strings.ToLower(p.action)))
    ensures c.Some? ==> c.value.diff == None && c.value.affectedPaths == [] && c.value.command == None
  {
    GetConfirmation(inv, p.(action := Strings.ToLower(p.action)))
  }

  /** On an action already in lower case the intended confirmation is the one written. */
  lemma LoweredAgreesOnLowerCase(inv: ToolModels.ToolInvocation, p: StashParams)
    requires Strings.ToLower(p.action) == p.action
    ensures GetConfirmationLowered(inv, p) == GetConfirmation(inv, p)
  {
    assert p.(action := Strings.ToLower(p.action)) == p;
  }

  /** Under the intended definitions the tool asks exactly when it calls itself mutating. */
  lemma MutatingLoweredIffConfirmation(inv: ToolModels.ToolInvocation, p: StashParams)
    requires ParsedFrom(inv, p)
    ensures IsMutatingLowered(inv.params) <==> GetConfirmationLowered(inv, p).Some?
  {
  }

  /** Under the intended check a capitalised "List" is no mutation and gets no confirmation. */
  lemma CapitalisedListUnconfirmedLowered(inv: ToolModels.ToolInvocation, p: StashParams)
    requires ParsedFrom(inv, p) && p.action == "List"
    ensures !IsMutatingLowered(inv.params) && GetConfirmationLowered(inv, p).None?
  {
    ListLowered();
  }

  /** Under the intended check, a call that asks nothing is a listing: it runs `git stash list` and nothing else. */
  lemma UnconfirmedOnlyLists(inv: ToolModels.ToolInvocation, p: StashParams, parse: string -> Paths.Path,
                             resolve: Paths.Path -> Paths.Path, entry: Paths.Path -> Process.Entry,
                             run: Process.Call -> Process.Outcome)
    requires GetConfirmationLowered(inv, p).None?
    requires Workspace.RepoError(Repo(inv, p, parse, resolve), entry).None?
    ensures Execution(inv, p, parse, resolve, entry, run).calls == [Workspace.Git(["stash", "list"], Repo(inv, p, parse, resolve), 30)]
  {
  }
}
