/**
 * Lexical paths (core/utils/paths.py). A path is whether it is absolute plus its components,
 * as `pathlib` holds it after construction. `Path.resolve()` consults the filesystem
 * (symlinks, the process directory), so it is the parameter `resolve`.
 */
module Paths {
  import opened Wrappers
  import Strings
  import Json
  import Errors

  datatype Path = Path(absolute: bool, parts: seq<string>)

  /** `a / b`: an absolute right operand replaces the left one. */
  function JoinPath(a: Path, b: Path): (r: Path)
    ensures b.absolute ==> r == b
    ensures !b.absolute ==> r.absolute == a.absolute && |r.parts| == |a.parts| + |b.parts| && r.parts[..|a.parts|] == a.parts && r.parts[|a.parts|..] == b.parts
  {
    if b.absolute then b else Path(a.absolute, a.parts + b.parts)
  }

  /** `p.relative_to(base)`: defined exactly when `base` is a component prefix of `p` with the same anchor. */
  function RelativeTo(p: Path, base: Path): (r: Option<Path>)
    ensures r.Some? <==> p.absolute == base.absolute && |base.parts| <= |p.parts| && p.parts[..|base.parts|] == base.parts
    ensures r.Some? ==> !r.value.absolute && base.parts + r.value.parts == p.parts
  {
    if p.absolute == base.absolute && |base.parts| <= |p.parts| && p.parts[..|base.parts|] == base.parts then
      assert base.parts + p.parts[|base.parts|..] == p.parts;
      Some(Path(false, p.parts[|base.parts|..]))
    else None
  }

  /** `p.is_relative_to(base)`. */
  predicate IsRelativeTo(p: Path, base: Path)
  {
    RelativeTo(p, base).Some?
  }

  /** `str(p)`: components joined by "/", a leading "/" when absolute, and "." for the empty relative path. */
  function Show(p: Path): string
  {
    if p.absolute then "/" + Strings.Join("/", p.parts)
    else if p.parts == [] then "."
    else Strings.Join("/", p.parts)
  }

  /** `resolve_path(base, path)`: an absolute path is resolved on its own; a relative one is joined onto the resolved base unnormalised. */
  function ResolvePath(base: Path, path: Path, resolve: Path -> Path): (r: Path)
    ensures path.absolute ==> r == resolve(path)
    ensures !path.absolute ==> r == Path(resolve(base).absolute, resolve(base).parts + path.parts)
  {
    if path.absolute then resolve(path) else JoinPath(resolve(base), path)
  }

  /** `validate_path_within_base`: the resolved path when it lies under the resolved base, else a ValidationError on field "path". */
  function ValidatePathWithinBase(path: Path, base: Path, resolve: Path -> Path): (r: Result<Path, Errors.DriftError>)
    ensures r.Ok? <==> IsRelativeTo(ResolvePath(base, path, resolve), resolve(base))
    ensures r.Ok? ==> r.value == ResolvePath(base, path, resolve)
    ensures r.Err? ==> r.error.kind == "ValidationError" && r.error.code == Errors.Validation
                       && Errors.Lookup(r.error.details, "field") == Some(Json.Str("path"))
  {
    var p := ResolvePath(base, path, resolve);
    var b := resolve(base);
    if IsRelativeTo(p, b) then Ok(p)
    else Err(Errors.ValidationError("Path " + Show(p) + " is outside base directory " + Show(b), Some("path"), None, None))
  }

  /** A relative path never fails validation: joining keeps the base as a prefix and ".." is not collapsed. */
  lemma RelativePathAlwaysWithin(path: Path, base: Path, resolve: Path -> Path)
    requires !path.absolute
    ensures ValidatePathWithinBase(path, base, resolve).Ok?
  {
    var b := resolve(base);
    assert (b.parts + path.parts)[..|b.parts|] == b.parts;
  }

  /** `display_path_relative_to_cwd`: relative to `cwd` (the process directory when absent) when under it, else the path itself. */
  function DisplayPathRelativeToCwd(path: Path, cwd: Option<Path>, processCwd: Path): (s: string)
    ensures IsRelativeTo(path, cwd.GetOr(processCwd)) ==> s == Show(RelativeTo(path, cwd.GetOr(processCwd)).value)
    ensures !IsRelativeTo(path, cwd.GetOr(processCwd)) ==> s == Show(path)
  {
    match RelativeTo(path, cwd.GetOr(processCwd))
    case Some(r) => Show(r)
    case None => Show(path)
  }
}
