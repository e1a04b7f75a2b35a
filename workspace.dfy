/**
 * What the git and dependency tools (core/tools/builtin/git_branch.py, git_stash.py,
 * git_commit.py, dependencies.py) share: the directory they work in, the checks made before
 * any command runs, and how the outcome of one `subprocess.run` becomes a result. What the
 * disk holds is the parameter `entry`, and what a command does is the parameter `run`.
 */
module Workspace {
  import opened Wrappers
  import Strings
  import Paths
  import Process
  import ToolModels

  /** `resolve_path(invocation.cwd, params.path) if params.path else invocation.cwd`. */
  function ProjectPath(cwd: Paths.Path, path: Option<string>, parse: string -> Paths.Path,
                       resolve: Paths.Path -> Paths.Path): (p: Paths.Path)
    ensures !ToolModels.Given(path) ==> p == cwd
    ensures ToolModels.Given(path) ==> p == Paths.ResolvePath(cwd, parse(path.value), resolve)
  {
    if ToolModels.Given(path) then Paths.ResolvePath(cwd, parse(path.value), resolve) else cwd
  }

  /** The `exists()` and `is_dir()` checks: `None` when the path is a directory. */
  function PathError(p: Paths.Path, entry: Paths.Path -> Process.Entry): (e: Option<string>)
    ensures e.None? <==> entry(p) == Process.Directory
    ensures entry(p) == Process.Absent ==> e == Some("Path does not exist: " + Paths.Show(p))
    ensures entry(p) == Process.File ==> e == Some("Path is not a directory: " + Paths.Show(p))
  {
    match entry(p)
    case Absent => Some("Path does not exist: " + Paths.Show(p))
    case File => Some("Path is not a directory: " + Paths.Show(p))
    case Directory => None
  }

  /** `p / name` for a plain file name. */
  function Child(p: Paths.Path, name: string): Paths.Path
  {
    Paths.JoinPath(p, Paths.Path(false, [name]))
  }

  /** `repo_path / ".git"`. */
  function GitDir(repo: Paths.Path): Paths.Path
  {
    Child(repo, ".git")
  }

  /** The three checks before any git command: the path exists, is a directory, and holds `.git`. */
  function RepoError(repo: Paths.Path, entry: Paths.Path -> Process.Entry): (e: Option<string>)
    ensures e.None? <==> entry(repo) == Process.Directory && entry(GitDir(repo)) != Process.Absent
    ensures entry(repo) != Process.Directory ==> e == PathError(repo, entry)
    ensures entry(repo) == Process.Directory && entry(GitDir(repo)) == Process.Absent ==>
              e == Some("Not a git repository: " + Paths.Show(repo))
  {
    if PathError(repo, entry).Some? then PathError(repo, entry)
    else if entry(GitDir(repo)) == Process.Absent then Some("Not a git repository: " + Paths.Show(repo))
    else None
  }

  /** `cwd` and `timeout` of a `subprocess.run(["git"] + args, ...)`. */
  function Git(args: seq<string>, repo: Paths.Path, timeout: int): (c: Process.Call)
    ensures |c.argv| == |args| + 1 && c.argv[0] == "git" && c.argv[1..] == args
  {
    Process.Call(["git"] + args, repo, timeout)
  }

  /** What one tool's `execute` returned, and the commands it ran, in order. */
  datatype Reply = Reply(result: ToolModels.ToolResult, calls: seq<Process.Call>)

  /** The wording of a tool's two `except` clauses: `TimeoutExpired`, and every other exception. */
  datatype Handlers = Handlers(timedOut: string, failed: string)

  /** The result of the `except` clause that catches a command that did not run to its end. */
  function Caught(o: Process.Outcome, h: Handlers): (r: ToolModels.ToolResult)
    requires !o.Ran?
    ensures !r.success && r.output == "" && r.metadata == map[]
    ensures o.TimedOut? ==> r.error == Some(h.timedOut)
    ensures o.Raised? ==> r.error == Some(h.failed + o.message)
  {
    if o.TimedOut? then ToolModels.ErrorResult(h.timedOut) else ToolModels.ErrorResult(h.failed + o.message)
  }

  /**
   * The usual handling of one command: a non-zero exit reports `failure` with the standard
   * error, keeping the standard output as output; exit 0 gives `success`.
   */
  function Checked(o: Process.Outcome, h: Handlers, failure: string, success: ToolModels.ToolResult)
    : (r: ToolModels.ToolResult)
    ensures !o.Ran? ==> r == Caught(o, h)
    ensures o.Ran? && o.code != 0 ==> r == ToolModels.ErrorResult(failure + o.stderr, o.stdout)
    ensures o.Ran? && o.code == 0 ==> r == success
  {
    if !o.Ran? then Caught(o, h)
    else if o.code != 0 then ToolModels.ErrorResult(failure + o.stderr, o.stdout)
    else success
  }

  /** The standard output of a command that ran, and "" otherwise. */
  function Stdout(o: Process.Outcome): string
  {
    if o.Ran? then o.stdout else ""
  }
}
