/**
 * What the shell, git and dependency tools learn from the outside world: how a child process
 * ended, and what a path names on disk. Running the process and looking at the disk are not
 * part of this model; the tools take their answers as inputs.
 */
module Process {
  import Paths

  /**
   * How `subprocess.run` or `communicate()` ended: with an exit code and the decoded output
   * streams, by exceeding its timeout, or by raising (`notFound` for `FileNotFoundError`, the
   * program not being installed).
   */
  datatype Outcome =
    | Ran(code: int, stdout: string, stderr: string)
    | TimedOut
    | Raised(notFound: bool, message: string)

  /** What `exists()` and `is_dir()` report for a path. */
  datatype Entry = Absent | File | Directory

  /** One `subprocess.run(argv, cwd=cwd, timeout=timeout)`. */
  datatype Call = Call(argv: seq<string>, cwd: Paths.Path, timeout: int)
}
