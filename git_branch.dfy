/**
 * The git_branch tool (core/tools/builtin/git_branch.py): lists, creates, deletes and switches
 * branches, or shows the current one. The confirmation looks at the action as given; `execute`
 * lower-cases it first.
 */
module GitBranch {
  import opened Wrappers
  import Strings
  import Json
  import Paths
  import Process
  import ToolModels
  import Workspace
  import Approval
  import Config

  const Name := "git_branch"

  /** `GitBranchParams` after validation; `path` is the path string, parsed by `parse`. */
  datatype BranchParams = BranchParams(path: Option<string>, action: string, branchName: Option<string>, force: bool)

  const MutatingActions := {"create", "delete", "switch"}

  /** `is_mutating`: `params.get("action", "")` is create, delete or switch. */
  predicate IsMutating(params: map<string, Json.Value>)
  {
    "action" in params && params["action"].Str? && params["action"].s in MutatingActions
  }

  const DeleteWarning := "\n\U{26A0}\U{FE0F}  This will delete the branch permanently"
  const SwitchWarning := "\n\U{26A0}\U{FE0F}  This will switch branches (uncommitted changes may be lost)"

  /** The line below the description that `get_confirmation` adds for delete and switch. */
  function Warning(action: string): string
  {
    if action == "delete" then DeleteWarning else if action == "switch" then SwitchWarning else ""
  }

  /** `": {branch_name}"` when a branch name is given. */
  function NamePart(name: Option<string>): string
  {
    if ToolModels.Given(name) then ": " + name.value else ""
  }

  /** `f"{action.capitalize()} branch"`, the branch name and the warning. */
  function Description(p: BranchParams): string
  {
    Strings.Capitalize(p.action) + " branch" + NamePart(p.branchName) + Warning(p.action)
  }

  /** `get_confirmation`: only create, delete and switch ask, and only delete is dangerous. */
  function GetConfirmation(inv: ToolModels.ToolInvocation, p: BranchParams): (c: Option<ToolModels.ToolConfirmation>)
    ensures c.Some? <==> p.action in MutatingActions
    ensures c.Some? ==> (c.value.isDangerous <==> p.action == "delete")
    ensures c.Some? ==> c.value.toolName == Name && c.value.params == inv.params && c.value.description == Description(p)
    ensures c.Some? ==> c.value.diff == None && c.value.affectedPaths == [] && c.value.command == None
  {
    if p.action !in MutatingActions then None
    else Some(ToolModels.Confirmation(Name, inv.params, Description(p)).(isDangerous := p.action == "delete"))
  }

  /** The parameters were validated from the invocation: its "action" is the action string. */
  predicate ParsedFrom(inv: ToolModels.ToolInvocation, p: BranchParams)
  {
    "action" in inv.params && inv.params["action"] == Json.Str(p.action)
  }

  /** The tool asks for confirmation exactly when it calls itself mutating. */
  lemma MutatingIffConfirmation(inv: ToolModels.ToolInvocation, p: BranchParams)
    requires ParsedFrom(inv, p)
    ensures IsMutating(inv.params) <==> GetConfirmation(inv, p).Some?
  {
  }

  lemma CreateCapitalised()
    ensures Strings.Capitalize("create") == "Create"
  {
    var s := "create";
    assert s[1..] == "reate";
  }

  lemma DeleteCapitalised()
    ensures Strings.Capitalize("delete") == "Delete"
  {
    var s := "delete";
    assert s[1..] == "elete";
  }

  lemma SwitchCapitalised()
    ensures Strings.Capitalize("switch") == "Switch"
  {
    var s := "switch";
    assert s[1..] == "witch";
  }

  /** Deleting names the branch and warns that the deletion is permanent. */
  lemma DeleteDescription(p: BranchParams)
    requires p.action == "delete"
    ensures Description(p) == "Delete branch" + NamePart(p.branchName) + DeleteWarning
  {
    DeleteCapitalised();
    assert Strings.Capitalize(p.action) + " branch" == "Delete branch";
    assert Warning(p.action) == DeleteWarning;
  }

  /** Switching names the branch and warns about uncommitted changes. */
  lemma SwitchDescription(p: BranchParams)
    requires p.action == "switch"
    ensures Description(p) == "Switch branch" + NamePart(p.branchName) + SwitchWarning
  {
    SwitchCapitalised();
    assert Strings.Capitalize(p.action) + " branch" == "Switch branch";
    assert Warning(p.action) == SwitchWarning;
  }

  /** Creating names the branch and carries no warning. */
  lemma CreateDescription(p: BranchParams)
    requires p.action == "create"
    ensures Description(p) == "Create branch" + NamePart(p.branchName)
  {
    CreateCapitalised();
    assert Strings.Capitalize(p.action) + " branch" == "Create branch";
    assert Warning(p.action) == "";
  }

  // Execution

  const Handlers := Workspace.Handlers("Git branch command timed out", "Failed to perform git branch operation: ")

  /** The result's `{"branch_name": ...}` or `{"current_branch": ...}`. */
  function Tagged(output: string, key: string, value: string): ToolModels.ToolResult
  {
    ToolModels.SuccessResult(output).(metadata := map[key := Json.Str(value)])
  }

  /** `git branch -a`, then `git branch --show-current`, whose failure reads as "unknown". */
  function ListReply(repo: Paths.Path, run: Process.Call -> Process.Outcome): Workspace.Reply
  {
    var all := Workspace.Git(["branch", "-a"], repo, 30);
    var o := run(all);
    if !o.Ran? then Workspace.Reply(Workspace.Caught(o, Handlers), [all])
    else if o.code != 0 then Workspace.Reply(ToolModels.ErrorResult("Git branch list failed: " + o.stderr, o.stdout), [all])
    else
      var show := Workspace.Git(["branch", "--show-current"], repo, 10);
      var c := run(show);
      if !c.Ran? then Workspace.Reply(Workspace.Caught(c, Handlers), [all, show])
      else
        var current := if c.code == 0 then Strings.Strip(c.stdout) else "unknown";
        Workspace.Reply(Tagged("Current branch: " + current + "\n\n" + o.stdout, "current_branch", current), [all, show])
  }

  /** `git branch --show-current`, its output stripped. */
  function ShowReply(repo: Paths.Path, run: Process.Call -> Process.Outcome): Workspace.Reply
  {
    var call := Workspace.Git(["branch", "--show-current"], repo, 10);
    var branch := Strings.Strip(Workspace.Stdout(run(call)));
    Workspace.Reply(Workspace.Checked(run(call), Handlers, "Failed to show current branch: ",
                                      Tagged("Current branch: " + branch, "current_branch", branch)),
                    [call])
  }

  /** `cmd` for delete: `-D` when forced, `-d` otherwise. */
  function DeleteArgv(force: bool, name: string): seq<string>
  {
    ["git", "branch"] + [if force then "-D" else "-d"] + [name]
  }

  /** `cmd` for switch: `-f` only when forced. */
  function SwitchArgv(force: bool, name: string): seq<string>
  {
    ["git", "checkout"] + (if force then ["-f"] else []) + [name]
  }

  /** A branch given by name: its command, how its failure reads, and the output that reports success. */
  function NamedReply(repo: Paths.Path, run: Process.Call -> Process.Outcome, argv: seq<string>, failure: string,
                      done: string, name: string): Workspace.Reply
  {
    var call := Process.Call(argv, repo, 30);
    Workspace.Reply(Workspace.Checked(run(call), Handlers, failure, Tagged(done, "branch_name", name)), [call])
  }

  const ValidActions := "Valid actions: list, create, delete, switch, show"

  /** The `try` block for the lower-cased action, once the repository checks have passed. */
  function ActionReply(repo: Paths.Path, action: string, p: BranchParams, run: Process.Call -> Process.Outcome)
    : Workspace.Reply
  {
    if action == "list" then ListReply(repo, run)
    else if action in MutatingActions && !ToolModels.Given(p.branchName) then
      Workspace.Reply(ToolModels.ErrorResult("Branch name is required for " + action + " action"), [])
    else if action == "create" then
      var n := p.branchName.value;
      NamedReply(repo, run, ["git", "branch", n], "Failed to create branch: ", "Branch '" + n + "' created successfully", n)
    else if action == "delete" then
      var n := p.branchName.value;
      NamedReply(repo, run, DeleteArgv(p.force, n), "Failed to delete branch: ", "Branch '" + n + "' deleted successfully", n)
    else if action == "switch" then
      var n := p.branchName.value;
      NamedReply(repo, run, SwitchArgv(p.force, n), "Failed to switch branch: ", "Switched to branch '" + n + "'", n)
    else if action == "show" then ShowReply(repo, run)
    else Workspace.Reply(ToolModels.ErrorResult("Unknown action: " + action + ". " + ValidActions), [])
  }

  /** `execute`: the repository checks, then the lower-cased action. */
  function Execution(inv: ToolModels.ToolInvocation, p: BranchParams, parse: string -> Paths.Path,
                     resolve: Paths.Path -> Paths.Path, entry: Paths.Path -> Process.Entry,
                     run: Process.Call -> Process.Outcome): Workspace.Reply
  {
    var repo := Workspace.ProjectPath(inv.cwd, p.path, parse, resolve);
    var bad := Workspace.RepoError(repo, entry);
    if bad.Some? then Workspace.Reply(ToolModels.ErrorResult(bad.value), [])
    else ActionReply(repo, Strings.ToLower(p.action), p, run)
  }

  /** `execute`, building `cmd` as it goes and running each command through `run`. */
  method Execute(inv: ToolModels.ToolInvocation, p: BranchParams, parse: string -> Paths.Path,
                 resolve: Paths.Path -> Paths.Path, entry: Paths.Path -> Process.Entry,
                 run: Process.Call -> Process.Outcome)
    returns (r: ToolModels.ToolResult, calls: seq<Process.Call>)
    ensures Workspace.Reply(r, calls) == Execution(inv, p, parse, resolve, entry, run)
  {
    var repo := Workspace.ProjectPath(inv.cwd, p.path, parse, resolve);
    var bad := Workspace.RepoError(repo, entry);
    if bad.Some? {
      return ToolModels.ErrorResult(bad.value), [];
    }
    var action := Strings.ToLower(p.action);
    if action == "list" || action == "show" || action !in MutatingActions {
      var reply := ActionReply(repo, action, p, run);
      return reply.result, reply.calls;
    }
    if !ToolModels.Given(p.branchName) {
      return ToolModels.ErrorResult("Branch name is required for " + action + " action"), [];
    }
    var n := p.branchName.value;
    var cmd: seq<string>;
    if action == "create" {
      cmd := ["git", "branch", n];
    } else if action == "delete" {
      cmd := ["git", "branch"];
      if p.force {
        cmd := cmd + ["-D"];
      } else {
        cmd := cmd + ["-d"];
      }
      cmd := cmd + [n];
    } else {
      cmd := ["git", "checkout"];
      if p.force {
        cmd := cmd + ["-f"];
      }
      cmd := cmd + [n];
      assert cmd == SwitchArgv(p.force, n);
    }
    var call := Process.Call(cmd, repo, 30);
    calls := [call];
    var o := run(call);
    if !o.Ran? {
      r := Workspace.Caught(o, Handlers);
    } else if o.code != 0 {
      var failure := if action == "create" then "Failed to create branch: "
                     else if action == "delete" then "Failed to delete branch: " else "Failed to switch branch: ";
      r := ToolModels.ErrorResult(failure + o.stderr, o.stdout);
    } else {
      var done := if action == "create" then "Branch '" + n + "' created successfully"
                  else if action == "delete" then "Branch '" + n + "' deleted successfully" else "Switched to branch '" + n + "'";
      r := Tagged(done, "branch_name", n);
    }
  }

  // What execution promises

  /** The repository the tool works in. */
  function Repo(inv: ToolModels.ToolInvocation, p: BranchParams, parse: string -> Paths.Path,
                resolve: Paths.Path -> Paths.Path): Paths.Path
  {
    Workspace.ProjectPath(inv.cwd, p.path, parse, resolve)
  }

  /** A path that is not a git repository stops the tool before any command runs. */
  lemma RepositoryCheckedFirst(inv: ToolModels.ToolInvocation, p: BranchParams, parse: string -> Paths.Path,
                               resolve: Paths.Path -> Paths.Path, entry: Paths.Path -> Process.Entry,
                               run: Process.Call -> Process.Outcome)
    requires Workspace.RepoError(Repo(inv, p, parse, resolve), entry).Some?
    ensures var e := Execution(inv, p, parse, resolve, entry, run);
            e.calls == [] && !e.result.success
            && e.result.error == Workspace.RepoError(Repo(inv, p, parse, resolve), entry)
  {
  }

  /** Create, delete and switch without a branch name fail before any git command runs. */
  lemma NameRequired(inv: ToolModels.ToolInvocation, p: BranchParams, parse: string -> Paths.Path,
                     resolve: Paths.Path -> Paths.Path, entry: Paths.Path -> Process.Entry,
                     run: Process.Call -> Process.Outcome)
    requires Workspace.RepoError(Repo(inv, p, parse, resolve), entry).None?
    requires Strings.ToLower(p.action) in MutatingActions && !ToolModels.Given(p.branchName)
    ensures Execution(inv, p, parse, resolve, entry, run)
            == Workspace.Reply(ToolModels.ErrorResult("Branch name is required for " + Strings.ToLower(p.action) + " action"), [])
  {
  }

  /** Delete runs one `git branch` whose flag is "-D" exactly when forced and "-d" otherwise. */
  lemma DeleteFlag(inv: ToolModels.ToolInvocation, p: BranchParams, parse: string -> Paths.Path,
                   resolve: Paths.Path -> Paths.Path, entry: Paths.Path -> Process.Entry,
                   run: Process.Call -> Process.Outcome)
    requires Workspace.RepoError(Repo(inv, p, parse, resolve), entry).None?
    requires Strings.ToLower(p.action) == "delete" && ToolModels.Given(p.branchName)
    ensures var calls := Execution(inv, p, parse, resolve, entry, run).calls;
            && |calls| == 1 && calls[0].cwd == Repo(inv, p, parse, resolve) && calls[0].timeout == 30
            && calls[0].argv[..2] == ["git", "branch"] && |calls[0].argv| == 4
            && (calls[0].argv[2] == "-D" <==> p.force) && (calls[0].argv[2] == "-d" <==> !p.force)
            && calls[0].argv[3] == p.branchName.value
  {
    var argv := DeleteArgv(p.force, p.branchName.value);
    assert argv == ["git", "branch", if p.force then "-D" else "-d", p.branchName.value];
    assert "-D" != "-d" by { assert "-D"[1] != "-d"[1]; }
  }

  /** Switch runs one `git checkout`, with "-f" exactly when forced, naming the branch last. */
  lemma SwitchFlag(inv: ToolModels.ToolInvocation, p: BranchParams, parse: string -> Paths.Path,
                   resolve: Paths.Path -> Paths.Path, entry: Paths.Path -> Process.Entry,
                   run: Process.Call -> Process.Outcome)
    requires Workspace.RepoError(Repo(inv, p, parse, resolve), entry).None?
    requires Strings.ToLower(p.action) == "switch" && ToolModels.Given(p.branchName)
    ensures var calls := Execution(inv, p, parse, resolve, entry, run).calls;
            && |calls| == 1 && calls[0].cwd == Repo(inv, p, parse, resolve) && calls[0].timeout == 30
            && calls[0].argv[..2] == ["git", "checkout"]
            && (p.force ==> calls[0].argv == ["git", "checkout", "-f", p.branchName.value])
            && (!p.force ==> calls[0].argv == ["git", "checkout", p.branchName.value])
  {
  }

  /** Any other action is an error naming the valid ones, and runs nothing. */
  lemma UnknownAction(inv: ToolModels.ToolInvocation, p: BranchParams, parse: string -> Paths.Path,
                      resolve: Paths.Path -> Paths.Path, entry: Paths.Path -> Process.Entry,
                      run: Process.Call -> Process.Outcome)
    requires Workspace.RepoError(Repo(inv, p, parse, resolve), entry).None?
    requires Strings.ToLower(p.action) !in {"list", "create", "delete", "switch", "show"}
    ensures Execution(inv, p, parse, resolve, entry, run)
            == Workspace.Reply(ToolModels.ErrorResult("Unknown action: " + Strings.ToLower(p.action) + ". " + ValidActions), [])
  {
  }

  /** Every command is git, run in the repository. */
  predicate GitInRepo(calls: seq<Process.Call>, repo: Paths.Path)
  {
    forall i | 0 <= i < |calls| :: |calls[i].argv| > 0 && calls[i].argv[0] == "git" && calls[i].cwd == repo
  }

  /** What every reply of the `try` block keeps to: at most two git commands, the first of which a success needs to exit with 0. */
  predicate Disciplined(e: Workspace.Reply, repo: Paths.Path, run: Process.Call -> Process.Outcome)
  {
    && |e.calls| <= 2 && GitInRepo(e.calls, repo)
    && (e.result.success ==> |e.calls| >= 1 && run(e.calls[0]).Ran? && run(e.calls[0]).code == 0)
  }

  lemma ListDisciplined(repo: Paths.Path, run: Process.Call -> Process.Outcome)
    ensures Disciplined(ListReply(repo, run), repo, run)
  {
  }

  lemma NamedDisciplined(repo: Paths.Path, run: Process.Call -> Process.Outcome, argv: seq<string>, failure: string,
                         done: string, name: string)
    requires |argv| > 0 && argv[0] == "git"
    ensures Disciplined(NamedReply(repo, run, argv, failure, done, name), repo, run)
  {
  }

  lemma ActionDisciplined(repo: Paths.Path, action: string, p: BranchParams, run: Process.Call -> Process.Outcome)
    ensures Disciplined(ActionReply(repo, action, p, run), repo, run)
  {
    if action == "list" {
      ListDisciplined(repo, run);
    } else if action in MutatingActions && !ToolModels.Given(p.branchName) {
    } else if action == "create" {
      var n := p.branchName.value;
      NamedDisciplined(repo, run, ["git", "branch", n], "Failed to create branch: ", "Branch '" + n + "' created successfully", n);
    } else if action == "delete" {
      var n := p.branchName.value;
      NamedDisciplined(repo, run, DeleteArgv(p.force, n), "Failed to delete branch: ", "Branch '" + n + "' deleted successfully", n);
    } else if action == "switch" {
      var n := p.branchName.value;
      NamedDisciplined(repo, run, SwitchArgv(p.force, n), "Failed to switch branch: ", "Switched to branch '" + n + "'", n);
    } else if action == "show" {
      ShowDisciplined(repo, run);
    } else {
      assert ActionReply(repo, action, p, run).calls == [];
    }
  }

  lemma ShowDisciplined(repo: Paths.Path, run: Process.Call -> Process.Outcome)
    ensures Disciplined(ShowReply(repo, run), repo, run)
  {
  }

  /** At most two commands run, each of them git in the repository; success needs the first to exit with 0. */
  lemma CallsAreGitInRepo(inv: ToolModels.ToolInvocation, p: BranchParams, parse: string -> Paths.Path,
                          resolve: Paths.Path -> Paths.Path, entry: Paths.Path -> Process.Entry,
                          run: Process.Call -> Process.Outcome)
    ensures Disciplined(Execution(inv, p, parse, resolve, entry, run), Repo(inv, p, parse, resolve), run)
  {
    var repo := Repo(inv, p, parse, resolve);
    if Workspace.RepoError(repo, entry).None? {
      ActionDisciplined(repo, Strings.ToLower(p.action), p, run);
    }
  }

  lemma CreateLowered()
    ensures Strings.ToLower("Create") == "create"
  {
    var s := Strings.ToLower("Create");
    assert |s| == 6 && s[0] == 'c';
    assert s[1..] == Strings.ToLower("reate");
  }

  /**
   * A capitalised "Create" is not mutating and asks for no confirmation, yet `execute`
   * lower-cases it and creates the branch.
   */
  lemma CapitalisedCreateRunsUnconfirmed(inv: ToolModels.ToolInvocation, p: BranchParams, parse: string -> Paths.Path,
                                         resolve: Paths.Path -> Paths.Path, entry: Paths.Path -> Process.Entry,
                                         run: Process.Call -> Process.Outcome)
    requires ParsedFrom(inv, p) && p.action == "Create" && ToolModels.Given(p.branchName)
    requires Workspace.RepoError(Repo(inv, p, parse, resolve), entry).None?
    ensures !IsMutating(inv.params) && GetConfirmation(inv, p).None?
    ensures Execution(inv, p, parse, resolve, entry, run).calls
            == [Process.Call(["git", "branch", p.branchName.value], Repo(inv, p, parse, resolve), 30)]
  {
    CreateLowered();
    assert "Create" !in MutatingActions by {
      assert "Create"[0] != "create"[0] && "Create"[0] != "delete"[0] && "Create"[0] != "switch"[0];
    }
  }

  /** The `is_mutating` evidently intended: the action compared in lower case, as `execute` dispatches on it. */
  predicate IsMutatingLowered(params: map<string, Json.Value>)
  {
    "action" in params && params["action"].Str? && Strings.ToLower(params["action"].s) in MutatingActions
  }

  /**
   * The `get_confirmation` evidently intended: the action lower-cased before it is tested, as
   * `execute` dispatches on it.
   */
  function GetConfirmationLowered(inv: ToolModels.ToolInvocation, p: BranchParams): (c: Option<ToolModels.ToolConfirmation>)
    ensures c.Some? <==> Strings.ToLower(p.action) in MutatingActions
    ensures c.Some? ==> (c.value.isDangerous <==> Strings.ToLower(p.action) == "delete")
    ensures c.Some? ==> c.value.toolName == Name && c.value.params == inv.params
                        && c.value.description == Description(p.(action := Strings.ToLower(p.action)))
    ensures c.Some? ==> c.value.diff == None && c.value.affectedPaths == [] && c.value.command == None
  {
    GetConfirmation(inv, p.(action := Strings.ToLower(p.action)))
  }

  /** On an action already in lower case the intended confirmation is the one written. */
  lemma LoweredAgreesOnLowerCase(inv: ToolModels.ToolInvocation, p: BranchParams)
    requires Strings.ToLower(p.action) == p.action
    ensures GetConfirmationLowered(inv, p) == GetConfirmation(inv, p)
  {
    assert p.(action := Strings.ToLower(p.action)) == p;
  }

  /** Under the intended definitions the tool asks exactly when it calls itself mutating. */
  lemma MutatingLoweredIffConfirmation(inv: ToolModels.ToolInvocation, p: BranchParams)
    requires ParsedFrom(inv, p)
    ensures IsMutatingLowered(inv.params) <==> GetConfirmationLowered(inv, p).Some?
  {
  }

  /** The `ApprovalContext` the registry builds from a confirmation: no command, no paths, its danger flag. */
  function Judged(inv: ToolModels.ToolInvocation, c: ToolModels.ToolConfirmation, mutating: bool): (ctx: Approval.ApprovalContext)
    ensures ctx.toolName == Name && ctx.params == inv.params && ctx.isMutating == mutating
    ensures ctx.affectedPaths == c.affectedPaths && ctx.command == c.command && ctx.isDangerous == c.isDangerous
  {
    Approval.ApprovalContext(Name, inv.params, mutating, c.affectedPaths, c.command, c.isDangerous)
  }

  /**
   * `check_approval` never rejects a git_branch confirmation, and puts the question to the user
   * only for "delete" outside YOLO: create and switch are approved without asking.
   */
  lemma OnlyDeleteIsAsked(inv: ToolModels.ToolInvocation, p: BranchParams, m: Approval.ApprovalManager,
                          dangerous: string -> bool, safe: string -> bool)
    requires ParsedFrom(inv, p) && GetConfirmation(inv, p).Some?
    ensures var d := Approval.CheckApproval(m, Judged(inv, GetConfirmation(inv, p).value, IsMutating(inv.params)), dangerous, safe);
            && d != Approval.Rejected
            && (d == Approval.NeedsConfirmation <==> p.action == "delete" && m.policy != Config.Yolo)
  {
    MutatingIffConfirmation(inv, p);
  }

  lemma DeleteLowered()
    ensures Strings.ToLower("Delete") == "delete"
  {
    var s := Strings.ToLower("Delete");
    assert |s| == 6 && s[0] == 'd';
    assert s[1..] == Strings.ToLower("elete");
  }

  /**
   * A capitalised "Delete" asks nothing, where "delete" is dangerous and asks the user outside
   * YOLO; yet `execute` lower-cases it and runs `git branch -d`.
   */
  lemma CapitalisedDeleteRunsUnconfirmed(inv: ToolModels.ToolInvocation, p: BranchParams, parse: string -> Paths.Path,
                                         resolve: Paths.Path -> Paths.Path, entry: Paths.Path -> Process.Entry,
                                         run: Process.Call -> Process.Outcome)
    requires ParsedFrom(inv, p) && p.action == "Delete" && ToolModels.Given(p.branchName) && !p.force
    requires Workspace.RepoError(Repo(inv, p, parse, resolve), entry).None?
    ensures !IsMutating(inv.params) && GetConfirmation(inv, p).None?
    ensures GetConfirmation(inv, p.(action := "delete")).Some? && GetConfirmation(inv, p.(action := "delete")).value.isDangerous
    ensures Execution(inv, p, parse, resolve, entry, run).calls
            == [Process.Call(["git", "branch", "-d", p.branchName.value], Repo(inv, p, parse, resolve), 30)]
  {
    DeleteLowered();
    assert "Delete" !in MutatingActions by {
      assert "Delete"[0] != "create"[0] && "Delete"[0] != "delete"[0] && "Delete"[0] != "switch"[0];
    }
    DeleteFlag(inv, p, parse, resolve, entry, run);
    var calls := Execution(inv, p, parse, resolve, entry, run).calls;
    assert calls[0].argv == ["git", "branch", "-d", p.branchName.value];
  }

  /** Under the intended check a capitalised "Create" asks first, and is not dangerous. */
  lemma CapitalisedCreateConfirmedLowered(inv: ToolModels.ToolInvocation, p: BranchParams)
    requires ParsedFrom(inv, p) && p.action == "Create"
    ensures IsMutatingLowered(inv.params)
    ensures GetConfirmationLowered(inv, p).Some? && !GetConfirmationLowered(inv, p).value.isDangerous
  {
    CreateLowered();
  }

  /**
   * Under the intended check a capitalised "Delete" is dangerous, and `check_approval` puts it to
   * the user outside YOLO.
   */
  lemma CapitalisedDeleteConfirmedLowered(inv: ToolModels.ToolInvocation, p: BranchParams, m: Approval.ApprovalManager,
                                          dangerous: string -> bool, safe: string -> bool)
    requires ParsedFrom(inv, p) && p.action == "Delete" && m.policy != Config.Yolo
    ensures IsMutatingLowered(inv.params)
    ensures GetConfirmationLowered(inv, p).Some? && GetConfirmationLowered(inv, p).value.isDangerous
    ensures Approval.CheckApproval(m, Judged(inv, GetConfirmationLowered(inv, p).value, IsMutatingLowered(inv.params)),
                                   dangerous, safe) == Approval.NeedsConfirmation
  {
    DeleteLowered();
  }

  /** Under the intended check, a call that asks nothing runs only the read-only `git branch` commands. */
  lemma UnconfirmedOnlyReads(inv: ToolModels.ToolInvocation, p: BranchParams, parse: string -> Paths.Path,
                             resolve: Paths.Path -> Paths.Path, entry: Paths.Path -> Process.Entry,
                             run: Process.Call -> Process.Outcome)
    requires GetConfirmationLowered(inv, p).None?
    ensures forall c | c in Execution(inv, p, parse, resolve, entry, run).calls ::
              c.argv == ["git", "branch", "-a"] || c.argv == ["git", "branch", "--show-current"]
  {
    var action := Strings.ToLower(p.action);
    assert action !in MutatingActions;
    var repo := Repo(inv, p, parse, resolve);
    if Workspace.RepoError(repo, entry).None? {
      assert Execution(inv, p, parse, resolve, entry, run) == ActionReply(repo, action, p, run);
    }
  }

  /** A listing starts with the current branch, which reads "unknown" when `--show-current` fails. */
  lemma ListNamesCurrent(inv: ToolModels.ToolInvocation, p: BranchParams, parse: string -> Paths.Path,
                         resolve: Paths.Path -> Paths.Path, entry: Paths.Path -> Process.Entry,
                         run: Process.Call -> Process.Outcome, listing: string, code: int, current: string)
    requires Workspace.RepoError(Repo(inv, p, parse, resolve), entry).None? && Strings.ToLower(p.action) == "list"
    requires run(Workspace.Git(["branch", "-a"], Repo(inv, p, parse, resolve), 30)).Ran?
    requires run(Workspace.Git(["branch", "-a"], Repo(inv, p, parse, resolve), 30)).code == 0
    requires run(Workspace.Git(["branch", "-a"], Repo(inv, p, parse, resolve), 30)).stdout == listing
    requires run(Workspace.Git(["branch", "--show-current"], Repo(inv, p, parse, resolve), 10)).Ran?
    requires run(Workspace.Git(["branch", "--show-current"], Repo(inv, p, parse, resolve), 10)).code == code
    requires run(Workspace.Git(["branch", "--show-current"], Repo(inv, p, parse, resolve), 10)).stdout == current
    ensures var e := Execution(inv, p, parse, resolve, entry, run);
            var shown := if code == 0 then Strings.Strip(current) else "unknown";
            && e.result.success && |e.calls| == 2
            && e.result.output == "Current branch: " + shown + "\n\n" + listing
            && e.result.metadata == map["current_branch" := Json.Str(shown)]
  {
  }
}
