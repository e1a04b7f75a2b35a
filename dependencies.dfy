/**
 * The dependency tools (core/tools/builtin/dependencies.py). list_dependencies reads the
 * project's Python manifest (requirements.txt, else pyproject.toml) or else its Node.js
 * package.json, and lists the packages in name order. check_updates asks pip or npm which
 * packages are outdated. The outside world is a set of parameters:
 * - `entry` says what a path names on disk;
 * - `read` gives a file's text, or None when `read_text` raises;
 * - `toml` and `parseJson` say what the two parsers make of a text;
 * - `show` is `str()` of a version that is not a string;
 * - `run` says how a command ended.
 */
module Dependencies {
  import opened Wrappers
  import Strings
  import Json
  import Paths
  import Process
  import ToolModels
  import Workspace
  import Listing

  /** Package names mapped to versions. */
  type Deps = map<string, string>

  // requirements.txt

  /** A text with no white space at its end, as `strip()` leaves it. */
  predicate EndsUnspaced(l: string)
  {
    l == [] || !Strings.IsSpace(l[|l| - 1])
  }

  /** One line of requirements.txt, stripped first. */
  function Requirement(raw: string): Option<(string, string)>
  {
    LineEntry(Strings.Strip(raw))
  }

  /**
   * A stripped line. Blank lines and "#" comments add nothing. A line that splits on "=="
   * into two parts gives its two stripped halves, and so does one that splits on ">=". Any
   * other line names the package by its first word, with version "unknown".
   */
  function LineEntry(l: string): Option<(string, string)>
    requires EndsUnspaced(l)
  {
    if l == [] || l[0] == '#' then None
    else
      var eq := Strings.SplitOn(l, "==");
      if |eq| == 2 then Some((Strings.Strip(eq[0]), Strings.Strip(eq[1])))
      else
        var ge := Strings.SplitOn(l, ">=");
        if |ge| == 2 then Some((Strings.Strip(ge[0]), Strings.Strip(ge[1])))
        else
          Strings.WordsOfNonBlank(l);
          Some((Strings.Words(l)[0], "unknown"))
  }

  /** The dictionary a loop over `lines` builds: each line's entry, if any, overwrites an earlier one. */
  function Collected(lines: seq<string>, parse: string -> Option<(string, string)>): Deps
    decreases |lines|
  {
    if lines == [] then map[]
    else
      var d := Collected(lines[..|lines| - 1], parse);
      var e := parse(lines[|lines| - 1]);
      if e.Some? then d[e.value.0 := e.value.1] else d
  }

  /** The dictionary after the loop over the lines of requirements.txt. */
  function Requirements(lines: seq<string>): Deps
  {
    Collected(lines, Requirement)
  }

  /** A loop over `lines` that sets `deps[name] = version` for each entry `parse` finds. */
  method Collect(lines: seq<string>, parse: string -> Option<(string, string)>) returns (deps: Deps)
    ensures deps == Collected(lines, parse)
  {
    deps := map[];
    var i := 0;
    while i < |lines|
      invariant i <= |lines|
      invariant deps == Collected(lines[..i], parse)
    {
      assert lines[..i + 1][..i] == lines[..i];
      var e := parse(lines[i]);
      if e.Some? {
        deps := deps[e.value.0 := e.value.1];
      }
      i := i + 1;
    }
    assert lines[..i] == lines;
  }

  /** A line is skipped exactly when it is blank or, stripped, starts with "#". */
  lemma IgnoredLines(raw: string)
    ensures Requirement(raw).None? <==> Strings.IsBlank(raw) || (Strings.Strip(raw) != [] && Strings.Strip(raw)[0] == '#')
  {
    Strings.StripBlank(raw);
    IgnoredEntry(Strings.Strip(raw));
  }

  lemma IgnoredEntry(l: string)
    requires EndsUnspaced(l)
    ensures LineEntry(l).None? <==> l == [] || l[0] == '#'
  {
  }

  /** "name==version" with one "=" pair gives the stripped name and version. */
  lemma PinnedLine(raw: string, name: string, version: string)
    requires Strings.Strip(raw) == name + "==" + version
    requires '=' !in name && '=' !in version && (name == [] || name[0] != '#')
    ensures Requirement(raw) == Some((Strings.Strip(name), Strings.Strip(version)))
  {
    PinnedEntry(Strings.Strip(raw), name, version);
  }

  lemma PinnedEntry(l: string, name: string, version: string)
    requires l == name + "==" + version && EndsUnspaced(l)
    requires '=' !in name && '=' !in version && (name == [] || name[0] != '#')
    ensures LineEntry(l) == Some((Strings.Strip(name), Strings.Strip(version)))
  {
    assert l[0] != '#' by {
      if name == [] {
        assert l[0] == '=';
      } else {
        assert l[0] == name[0];
      }
    }
    Strings.LacksChar(version, "==", '=');
    Strings.SplitOnAround(name, version, "==");
    PinnedSplit(l, name, version);
  }

  /** A stripped line that is no comment and splits on "==" into two parts. */
  lemma PinnedSplit(l: string, name: string, version: string)
    requires EndsUnspaced(l) && l != [] && l[0] != '#' && Strings.SplitOn(l, "==") == [name, version]
    ensures LineEntry(l) == Some((Strings.Strip(name), Strings.Strip(version)))
  {
  }

  /** A stripped line that is no comment, does not split on "==" and splits on ">=" into two parts. */
  lemma MinimumSplit(l: string, name: string, version: string)
    requires EndsUnspaced(l) && l != [] && l[0] != '#'
    requires |Strings.SplitOn(l, "==")| != 2 && Strings.SplitOn(l, ">=") == [name, version]
    ensures LineEntry(l) == Some((Strings.Strip(name), Strings.Strip(version)))
  {
  }

  /** A text with no "=" in it. */
  lemma NoPair(s: string)
    requires '=' !in s
    ensures Strings.SplitOn(s, "==") == [s] && Strings.SplitOn(s, ">=") == [s]
  {
    Strings.LacksChar(s, "==", '=');
    Strings.SplitOnAbsent(s, "==");
    Strings.LacksChar(s, ">=", '=');
    Strings.SplitOnAbsent(s, ">=");
  }

  /** "name>=version" with a single "=" gives the stripped name and the stripped minimum version. */
  lemma MinimumLine(raw: string, name: string, version: string)
    requires Strings.Strip(raw) == name + ">=" + version
    requires '=' !in name && '>' !in name && '=' !in version && (name == [] || name[0] != '#')
    ensures Requirement(raw) == Some((Strings.Strip(name), Strings.Strip(version)))
  {
    MinimumEntry(Strings.Strip(raw), name, version);
  }

  lemma MinimumEntry(l: string, name: string, version: string)
    requires l == name + ">=" + version && EndsUnspaced(l)
    requires '=' !in name && '>' !in name && '=' !in version && (name == [] || name[0] != '#')
    ensures LineEntry(l) == Some((Strings.Strip(name), Strings.Strip(version)))
  {
    assert l[0] != '#' by {
      if name == [] {
        assert l[0] == '>';
      } else {
        assert l[0] == name[0];
      }
    }
    assert !Strings.Occurs("==", l) by {
      forall i | 0 <= i <= |l| - 2
        ensures !Strings.OccursAt("==", l, i)
      {
        EqualsAt(l, name, version, i);
        EqualsAt(l, name, version, i + 1);
      }
    }
    Strings.SplitOnAbsent(l, "==");
    Strings.LacksChar(version, ">=", '=');
    Strings.SplitOnAround(name, version, ">=");
    MinimumSplit(l, name, version);
  }

  /** The only "=" of `name + ">=" + version` is the one of ">=". */
  lemma EqualsAt(l: string, name: string, version: string, i: int)
    requires l == name + ">=" + version && '=' !in name && '=' !in version
    requires 0 <= i < |l|
    ensures l[i] == '=' <==> i == |name| + 1
  {
    if i < |name| {
      assert l[i] == name[i];
    } else if i > |name| + 1 {
      assert l[i] == version[i - |name| - 2];
    }
  }

  /** A line with no "=" at all names its package by its first word, version "unknown". */
  lemma BareLine(raw: string)
    requires Strings.Strip(raw) != [] && Strings.Strip(raw)[0] != '#' && '=' !in Strings.Strip(raw)
    ensures Strings.Words(Strings.Strip(raw)) != []
    ensures Requirement(raw) == Some((Strings.Words(Strings.Strip(raw))[0], "unknown"))
  {
    BareEntry(Strings.Strip(raw));
  }

  lemma BareEntry(l: string)
    requires EndsUnspaced(l) && l != [] && l[0] != '#' && '=' !in l
    ensures Strings.Words(l) != [] && LineEntry(l) == Some((Strings.Words(l)[0], "unknown"))
  {
    NoPair(l);
    Strings.WordsOfNonBlank(l);
  }

  /** A key is collected exactly when some line's entry names it. */
  lemma {:induction false} CollectedKeys(lines: seq<string>, parse: string -> Option<(string, string)>, k: string)
    ensures k in Collected(lines, parse) <==>
              exists i | 0 <= i < |lines| :: parse(lines[i]).Some? && parse(lines[i]).value.0 == k
    decreases |lines|
  {
    if lines != [] {
      var init := lines[..|lines| - 1];
      CollectedKeys(init, parse, k);
      if k in Collected(lines, parse) && k in Collected(init, parse) {
        var i :| 0 <= i < |init| && parse(init[i]).Some? && parse(init[i]).value.0 == k;
        assert lines[i] == init[i];
      }
      if exists i | 0 <= i < |lines| :: parse(lines[i]).Some? && parse(lines[i]).value.0 == k {
        var i :| 0 <= i < |lines| && parse(lines[i]).Some? && parse(lines[i]).value.0 == k;
        if i < |init| {
          assert init[i] == lines[i];
        }
      }
    }
  }

  /** A key's value is the one of the last entry that names it. */
  lemma {:induction false} CollectedLast(lines: seq<string>, parse: string -> Option<(string, string)>,
                                         i: nat, k: string, v: string)
    requires i < |lines| && parse(lines[i]) == Some((k, v))
    requires forall j | i < j < |lines| :: parse(lines[j]).None? || parse(lines[j]).value.0 != k
    ensures k in Collected(lines, parse) && Collected(lines, parse)[k] == v
    decreases |lines|
  {
    if i < |lines| - 1 {
      var init := lines[..|lines| - 1];
      assert init[i] == lines[i];
      assert parse(lines[|lines| - 1]).None? || parse(lines[|lines| - 1]).value.0 != k;
      CollectedLast(init, parse, i, k, v);
    }
  }

  /** A package is listed exactly when some line names it. */
  lemma RequirementsKeys(lines: seq<string>, k: string)
    ensures k in Requirements(lines) <==>
              exists i | 0 <= i < |lines| :: Requirement(lines[i]).Some? && Requirement(lines[i]).value.0 == k
  {
    CollectedKeys(lines, Requirement, k);
  }

  /** A package's version is the one of the last line that names it. */
  lemma LastWins(lines: seq<string>, i: nat, k: string, v: string)
    requires i < |lines| && Requirement(lines[i]) == Some((k, v))
    requires forall j | i < j < |lines| :: Requirement(lines[j]).None? || Requirement(lines[j]).value.0 != k
    ensures k in Requirements(lines) && Requirements(lines)[k] == v
  {
    CollectedLast(lines, Requirement, i, k, v);
  }

  // pyproject.toml

  /**
   * What `tomli.loads` made of pyproject.toml: it raised, or it parsed and
   * `data["project"]["dependencies"]` is the given list (None when either key is missing).
   * The list holds strings only: an entry of another type, on which `dep.split` raises
   * `AttributeError` so that the file yields None, cannot be written here.
   */
  datatype Toml = Unparsable | Parsed(dependencies: Option<seq<string>>)

  /**
   * One entry of `project.dependencies`, not stripped first. Two parts around "==" give the
   * stripped name and version. Otherwise the first word names the package with version
   * "unknown", and a blank entry has no first word and raises (None).
   */
  function PyProjectEntry(dep: string): Option<(string, string)>
  {
    var eq := Strings.SplitOn(dep, "==");
    if |eq| == 2 then Some((Strings.Strip(eq[0]), Strings.Strip(eq[1])))
    else if Strings.Words(dep) == [] then None
    else Some((Strings.Words(dep)[0], "unknown"))
  }

  /** Like `Collected`, but an entry `parse` cannot read (None) raises, and then so does the whole loop. */
  function AllCollected(ds: seq<string>, parse: string -> Option<(string, string)>): Option<Deps>
    decreases |ds|
  {
    if ds == [] then Some(map[])
    else
      var d := AllCollected(ds[..|ds| - 1], parse);
      var e := parse(ds[|ds| - 1]);
      if d.None? || e.None? then None else Some(d.value[e.value.0 := e.value.1])
  }

  /** The loop over the dependency list of pyproject.toml: None as soon as one entry raises. */
  function PyProjectDeps(ds: seq<string>): Option<Deps>
  {
    AllCollected(ds, PyProjectEntry)
  }

  /** A loop over `ds` that sets `deps[name] = version` per entry, left by the first entry that raises. */
  method CollectAll(ds: seq<string>, parse: string -> Option<(string, string)>) returns (deps: Option<Deps>)
    ensures deps == AllCollected(ds, parse)
  {
    var d: Deps := map[];
    var i := 0;
    while i < |ds|
      invariant i <= |ds|
      invariant AllCollected(ds[..i], parse) == Some(d)
    {
      assert ds[..i + 1][..i] == ds[..i];
      var e := parse(ds[i]);
      if e.None? {
        AllCollectedStops(ds, parse, i + 1);
        assert ds[..i + 1][i] == ds[i];
        return None;
      }
      d := d[e.value.0 := e.value.1];
      i := i + 1;
    }
    assert ds[..i] == ds;
    deps := Some(d);
  }

  /** Once a prefix of the list has raised, the whole list has. */
  lemma {:induction false} AllCollectedStops(ds: seq<string>, parse: string -> Option<(string, string)>, n: nat)
    requires n <= |ds| && AllCollected(ds[..n], parse).None?
    ensures AllCollected(ds, parse).None?
    decreases |ds| - n
  {
    if n < |ds| {
      assert ds[..n + 1][..n] == ds[..n];
      AllCollectedStops(ds, parse, n + 1);
    } else {
      assert ds[..n] == ds;
    }
  }

  /** The loop finishes exactly when no entry raises, and then built what `Collected` builds. */
  lemma {:induction false} AllCollectedParses(ds: seq<string>, parse: string -> Option<(string, string)>)
    ensures AllCollected(ds, parse).Some? <==> forall i | 0 <= i < |ds| :: parse(ds[i]).Some?
    ensures AllCollected(ds, parse).Some? ==> AllCollected(ds, parse).value == Collected(ds, parse)
    decreases |ds|
  {
    if ds != [] {
      var init := ds[..|ds| - 1];
      AllCollectedParses(init, parse);
      if forall i | 0 <= i < |ds| :: parse(ds[i]).Some? {
        forall i | 0 <= i < |init|
          ensures parse(init[i]).Some?
        {
          assert init[i] == ds[i];
        }
      }
      if AllCollected(ds, parse).Some? {
        forall i | 0 <= i < |ds|
          ensures parse(ds[i]).Some?
        {
          if i < |init| {
            assert init[i] == ds[i];
          }
        }
      }
    }
  }

  /**
   * The pyproject.toml list parses exactly when no entry of it is blank or otherwise raises,
   * and then its entries are collected as those of requirements.txt are.
   */
  lemma PyProjectParses(ds: seq<string>)
    ensures PyProjectDeps(ds).Some? <==> forall i | 0 <= i < |ds| :: PyProjectEntry(ds[i]).Some?
    ensures PyProjectDeps(ds).Some? ==> PyProjectDeps(ds).value == Collected(ds, PyProjectEntry)
  {
    AllCollectedParses(ds, PyProjectEntry);
  }

  /** A blank entry raises. */
  lemma BlankEntryRaises(dep: string)
    requires Strings.IsBlank(dep)
    ensures PyProjectEntry(dep).None?
  {
    assert '=' !in dep;
    NoPair(dep);
    Strings.WordsOfNonBlank(dep);
  }

  // _parse_python_dependencies

  function RequirementsFile(project: Paths.Path): Paths.Path
  {
    Workspace.Child(project, "requirements.txt")
  }

  function PyProjectFile(project: Paths.Path): Paths.Path
  {
    Workspace.Child(project, "pyproject.toml")
  }

  function PackageFile(project: Paths.Path): Paths.Path
  {
    Workspace.Child(project, "package.json")
  }

  /** What `read_text` and `tomli.loads` made of pyproject.toml. */
  function PyProjectData(project: Paths.Path, read: Paths.Path -> Option<string>, toml: string -> Toml): Toml
  {
    var text := read(PyProjectFile(project));
    if text.Some? then toml(text.value) else Unparsable
  }

  /**
   * `_parse_python_dependencies`. A readable requirements.txt decides, even when it lists
   * nothing. Otherwise pyproject.toml decides, when it exists and parses. Otherwise None.
   */
  function PythonDeps(project: Paths.Path, entry: Paths.Path -> Process.Entry,
                      read: Paths.Path -> Option<string>, toml: string -> Toml): Option<Deps>
  {
    var req := RequirementsFile(project);
    if entry(req) != Process.Absent && read(req).Some? then Some(Requirements(Strings.SplitLines(read(req).value)))
    else if entry(PyProjectFile(project)) == Process.Absent then None
    else
      match PyProjectData(project, read, toml)
      case Unparsable => None
      case Parsed(None) => Some(map[])
      case Parsed(Some(ds)) => PyProjectDeps(ds)
  }

  /** `_parse_python_dependencies`, with its two loops. */
  method PythonDependencies(project: Paths.Path, entry: Paths.Path -> Process.Entry,
                            read: Paths.Path -> Option<string>, toml: string -> Toml)
    returns (deps: Option<Deps>)
    ensures deps == PythonDeps(project, entry, read, toml)
  {
    var req := RequirementsFile(project);
    if entry(req) != Process.Absent && read(req).Some? {
      var d := Collect(Strings.SplitLines(read(req).value), Requirement);
      return Some(d);
    }
    if entry(PyProjectFile(project)) == Process.Absent {
      return None;
    }
    var data := PyProjectData(project, read, toml);
    if data.Unparsable? {
      return None;
    }
    if data.dependencies.None? {
      return Some(map[]);
    }
    deps := CollectAll(data.dependencies.value, PyProjectEntry);
  }

  /** A readable requirements.txt is the only source: pyproject.toml is not consulted. */
  lemma RequirementsFirst(project: Paths.Path, entry: Paths.Path -> Process.Entry,
                          read: Paths.Path -> Option<string>, toml: string -> Toml, toml2: string -> Toml)
    requires entry(RequirementsFile(project)) != Process.Absent && read(RequirementsFile(project)).Some?
    ensures PythonDeps(project, entry, read, toml) == PythonDeps(project, entry, read, toml2)
    ensures PythonDeps(project, entry, read, toml).Some?
  {
  }

  // _parse_node_dependencies

  /**
   * One element of a list handed to `dict.update`, as a key and a value: a two-item list whose
   * first item is a string, or a two-character string. None for any other element, on which
   * Python raises (or, for a two-key dict or a non-string key, see the README).
   */
  function Pair(item: Json.Value): (p: Option<(string, Json.Value)>)
    ensures item.Arr? && |item.items| == 2 && item.items[0].Str? ==> p == Some((item.items[0].s, item.items[1]))
    ensures item.Str? && |item.s| == 2 ==> p == Some(([item.s[0]], Json.Str([item.s[1]])))
    ensures item.Null? || item.Bool? || item.Num? || item.Obj? ==> p.None?
  {
    match item
    case Arr(xs) => if |xs| == 2 && xs[0].Str? then Some((xs[0].s, xs[1])) else None
    case Str(s) => if |s| == 2 then Some(([s[0]], Json.Str([s[1]]))) else None
    case _ => None
  }

  /** `dict.update` with a list: each pair in turn, a later key overriding an earlier one; None once one raises. */
  function Pairs(items: seq<Json.Value>): Option<map<string, Json.Value>>
  {
    if items == [] then Some(map[])
    else
      var init := Pairs(items[..|items| - 1]);
      var p := Pair(items[|items| - 1]);
      if init.None? || p.None? then None else Some(init.value[p.value.0 := p.value.1])
  }

  /**
   * A list updates the dict exactly when every element is a pair, and then a key is present
   * exactly when some pair carries it.
   */
  lemma {:induction false} PairsKeys(items: seq<Json.Value>, k: string)
    ensures Pairs(items).Some? <==> forall i | 0 <= i < |items| :: Pair(items[i]).Some?
    ensures Pairs(items).Some? ==>
              (k in Pairs(items).value <==> exists i | 0 <= i < |items| :: Pair(items[i]).value.0 == k)
  {
    if items != [] {
      var init := items[..|items| - 1];
      PairsKeys(init, k);
      assert forall i | 0 <= i < |init| :: init[i] == items[i];
      if Pairs(items).Some? {
        if k in Pairs(items).value && k != Pair(items[|items| - 1]).value.0 {
          var i :| 0 <= i < |init| && Pair(init[i]).value.0 == k;
          assert Pair(items[i]).value.0 == k;
        }
      }
    }
  }

  /** A key takes the value of the last pair that carries it. */
  lemma {:induction false} PairsLastWins(items: seq<Json.Value>, i: nat, k: string, v: Json.Value)
    requires Pairs(items).Some? && i < |items| && Pair(items[i]) == Some((k, v))
    requires forall j | i < j < |items| :: Pair(items[j]).None? || Pair(items[j]).value.0 != k
    ensures k in Pairs(items).value && Pairs(items).value[k] == v
    decreases |items|
  {
    if i < |items| - 1 {
      var init := items[..|items| - 1];
      assert init[i] == items[i];
      assert forall j | i < j < |init| :: init[j] == items[j];
      PairsLastWins(init, i, k, v);
      assert Pair(items[|items| - 1]).value.0 != k;
    }
  }

  /**
   * `deps.update(data.get(key, {}))`: the entries of an object, none for a missing key or an
   * empty string, the pairs of a list of pairs, and None (a `TypeError` or `ValueError`) for
   * null, a number, a boolean, a non-empty string, or a list holding anything but pairs.
   */
  function Section(data: map<string, Json.Value>, key: string): (r: Option<map<string, Json.Value>>)
    ensures key !in data ==> r == Some(map[])
    ensures key in data && data[key].Obj? ==> r == Some(data[key].fields)
    ensures key in data && (data[key].Null? || data[key].Num? || data[key].Bool?) ==> r.None?
    ensures key in data && data[key].Str? ==> (r.Some? <==> data[key].s == []) && (r.Some? ==> r.value == map[])
    ensures key in data && data[key].Arr? ==> r == Pairs(data[key].items)
  {
    if key !in data then Some(map[])
    else
      match data[key]
      case Obj(fields) => Some(fields)
      case Str(s) => if s == [] then Some(map[]) else None
      case Arr(items) => Pairs(items)
      case _ => None
  }

  /** `{"dependencies": [["react", "18"]]}` lists react at "18", and `["ab"]` maps "a" to "b". */
  lemma PairListsListed()
    ensures Section(map["dependencies" := Json.Arr([Json.Arr([Json.Str("react"), Json.Str("18")])])], "dependencies")
            == Some(map["react" := Json.Str("18")])
    ensures Section(map["dependencies" := Json.Arr([Json.Str("ab")])], "dependencies") == Some(map["a" := Json.Str("b")])
  {
    var one := [Json.Arr([Json.Str("react"), Json.Str("18")])];
    assert one[..0] == [];
    var two := [Json.Str("ab")];
    assert two[..0] == [];
    assert Pair(Json.Str("ab")) == Some((['a'], Json.Str(['b'])));
  }

  /**
   * `_parse_node_dependencies`. A missing, unreadable or unparsable package.json gives None,
   * and so does a document other than an object. Otherwise the result is "dependencies"
   * updated with "devDependencies".
   */
  function NodeDeps(project: Paths.Path, entry: Paths.Path -> Process.Entry, read: Paths.Path -> Option<string>,
                    parseJson: string -> Option<Json.Value>): Option<map<string, Json.Value>>
  {
    var pkg := PackageFile(project);
    if entry(pkg) == Process.Absent || read(pkg).None? then None
    else
      var data := parseJson(read(pkg).value);
      if data.None? || !data.value.Obj? then None
      else
        var deps := Section(data.value.fields, "dependencies");
        var dev := Section(data.value.fields, "devDependencies");
        if deps.None? || dev.None? then None else Some(deps.value + dev.value)
  }

  /**
   * The packages of both sections are listed, and a package in both has its
   * devDependencies version.
   */
  lemma DevOverrides(project: Paths.Path, entry: Paths.Path -> Process.Entry, read: Paths.Path -> Option<string>,
                     parseJson: string -> Option<Json.Value>, deps: map<string, Json.Value>, dev: map<string, Json.Value>)
    requires entry(PackageFile(project)) != Process.Absent && read(PackageFile(project)).Some?
    requires parseJson(read(PackageFile(project)).value) ==
               Some(Json.Obj(map["dependencies" := Json.Obj(deps), "devDependencies" := Json.Obj(dev)]))
    ensures NodeDeps(project, entry, read, parseJson).Some?
    ensures forall k :: k in NodeDeps(project, entry, read, parseJson).value <==> k in deps || k in dev
    ensures forall k | k in dev :: NodeDeps(project, entry, read, parseJson).value[k] == dev[k]
    ensures forall k | k in deps && k !in dev :: NodeDeps(project, entry, read, parseJson).value[k] == deps[k]
  {
    var fields := map["dependencies" := Json.Obj(deps), "devDependencies" := Json.Obj(dev)];
    assert Section(fields, "dependencies") == Some(deps);
    assert Section(fields, "devDependencies") == Some(dev);
  }

  /** `f"{version}"`: a string as it is, anything else as `str()` renders it. */
  function Version(v: Json.Value, show: Json.Value -> string): string
  {
    if v.Str? then v.s else show(v)
  }

  /** The Node.js packages with their versions as the listing prints them. */
  function Versions(m: map<string, Json.Value>, show: Json.Value -> string): (d: Deps)
    ensures d.Keys == m.Keys
    ensures forall k | k in m && m[k].Str? :: d[k] == m[k].s
  {
    map k | k in m :: Version(m[k], show)
  }

  // list_dependencies

  /** The readers `execute` uses: file text, the TOML parser, the JSON parser, and `str()`. */
  datatype Readers = Readers(read: Paths.Path -> Option<string>, toml: string -> Toml,
                             parseJson: string -> Option<Json.Value>, show: Json.Value -> string)

  const PythonHeading := "Python Dependencies:"
  const NodeHeading := "Node.js Dependencies:"
  const NoManifest := "No dependency file found (requirements.txt, pyproject.toml, or package.json)"

  /** A successful listing, with its kind and package count as metadata. */
  function Listed(heading: string, kind: string, d: Deps): (r: ToolModels.ToolResult)
  {
    ToolModels.SuccessResult(Listing.Render(heading, d))
      .(metadata := map["type" := Json.Str(kind), "count" := Json.Num(|d|)])
  }

  /**
   * `ListDependenciesTool.execute` after the project path is resolved. Python packages are
   * listed when there are any; else Node.js packages when there are any; else an error.
   */
  function ListDeps(project: Paths.Path, entry: Paths.Path -> Process.Entry, rs: Readers): ToolModels.ToolResult
  {
    var bad := Workspace.PathError(project, entry);
    if bad.Some? then ToolModels.ErrorResult(bad.value)
    else
      var py := PythonDeps(project, entry, rs.read, rs.toml);
      if py.Some? && py.value != map[] then Listed(PythonHeading, "python", py.value)
      else
        var node := NodeDeps(project, entry, rs.read, rs.parseJson);
        if node.Some? && node.value != map[] then Listed(NodeHeading, "nodejs", Versions(node.value, rs.show))
        else ToolModels.ErrorResult(NoManifest)
  }

  /** The project directory `execute` works in. */
  function ProjectOf(inv: ToolModels.ToolInvocation, path: Option<string>, parse: string -> Paths.Path,
                     resolve: Paths.Path -> Paths.Path): Paths.Path
  {
    Workspace.ProjectPath(inv.cwd, path, parse, resolve)
  }

  /** `ListDependenciesTool.execute`, with the parsing loops and the listing loop. */
  method ListDependencies(inv: ToolModels.ToolInvocation, path: Option<string>, parse: string -> Paths.Path,
                          resolve: Paths.Path -> Paths.Path, entry: Paths.Path -> Process.Entry, rs: Readers)
    returns (r: ToolModels.ToolResult)
    ensures r == ListDeps(ProjectOf(inv, path, parse, resolve), entry, rs)
  {
    var project := ProjectOf(inv, path, parse, resolve);
    var bad := Workspace.PathError(project, entry);
    if bad.Some? {
      return ToolModels.ErrorResult(bad.value);
    }
    var py := PythonDependencies(project, entry, rs.read, rs.toml);
    if py.Some? && py.value != map[] {
      var text := Listing.RenderLines(PythonHeading, py.value);
      return ToolModels.SuccessResult(text).(metadata := map["type" := Json.Str("python"), "count" := Json.Num(|py.value|)]);
    }
    var node := NodeDeps(project, entry, rs.read, rs.parseJson);
    if node.Some? && node.value != map[] {
      var d := Versions(node.value, rs.show);
      var text := Listing.RenderLines(NodeHeading, d);
      return ToolModels.SuccessResult(text).(metadata := map["type" := Json.Str("nodejs"), "count" := Json.Num(|d|)]);
    }
    r := ToolModels.ErrorResult(NoManifest);
  }

  /**
   * A success lists every package once, in strictly increasing name order, after its heading,
   * and counts them.
   */
  lemma ListedSorted(heading: string, kind: string, d: Deps) returns (ks: seq<string>)
    ensures Strings.StrictlySorted(ks) && (forall k :: k in d <==> k in ks)
    ensures Listed(heading, kind, d).output == Strings.Join("\n", [heading] + Listing.Entries(ks, d))
    ensures Listed(heading, kind, d).success && Listed(heading, kind, d).metadata["count"] == Json.Num(|ks|)
  {
    ks := Strings.SortedKeys(d.Keys);
  }

  /** Python packages, when there are any, are listed whatever package.json holds. */
  lemma PythonWins(project: Paths.Path, entry: Paths.Path -> Process.Entry, rs: Readers, d: Deps)
    requires entry(project) == Process.Directory
    requires PythonDeps(project, entry, rs.read, rs.toml) == Some(d) && d != map[]
    ensures ListDeps(project, entry, rs) == Listed(PythonHeading, "python", d)
  {
  }

  /** With no Python package, the Node.js packages are listed, when there are any. */
  lemma FallsToNode(project: Paths.Path, entry: Paths.Path -> Process.Entry, rs: Readers, m: map<string, Json.Value>)
    requires entry(project) == Process.Directory
    requires PythonDeps(project, entry, rs.read, rs.toml) in {None, Some(map[])}
    requires NodeDeps(project, entry, rs.read, rs.parseJson) == Some(m) && m != map[]
    ensures ListDeps(project, entry, rs) == Listed(NodeHeading, "nodejs", Versions(m, rs.show))
  {
  }

  /** Manifests that list nothing are reported as no manifest at all. */
  lemma EmptyManifestsFail(project: Paths.Path, entry: Paths.Path -> Process.Entry, rs: Readers)
    requires entry(project) == Process.Directory
    requires PythonDeps(project, entry, rs.read, rs.toml) in {None, Some(map[])}
    requires NodeDeps(project, entry, rs.read, rs.parseJson) in {None, Some(map[])}
    ensures ListDeps(project, entry, rs) == ToolModels.ErrorResult(NoManifest)
  {
  }

  // check_updates

  const UpToDate := "All packages are up to date."
  const SomeOutdated := "Some packages are outdated."
  const CheckFailed := "Failed to check updates: "

  function PipCall(project: Paths.Path): Process.Call
  {
    Process.Call(["pip", "list", "--outdated"], project, 60)
  }

  function NpmCall(project: Paths.Path): Process.Call
  {
    Process.Call(["npm", "outdated"], project, 60)
  }

  /** The three `except` clauses, for a package manager named `tool`. */
  function Caught(o: Process.Outcome, tool: string): (r: ToolModels.ToolResult)
    requires !o.Ran?
    ensures !r.success && r.output == ""
    ensures o.TimedOut? ==> r.error == Some("Update check timed out")
    ensures o.Raised? && o.notFound ==> r.error == Some(tool + " not found. Please install " + tool + ".")
    ensures o.Raised? && !o.notFound ==> r.error == Some(CheckFailed + o.message)
  {
    if o.TimedOut? then ToolModels.ErrorResult("Update check timed out")
    else if o.notFound then ToolModels.ErrorResult(tool + " not found. Please install " + tool + ".")
    else ToolModels.ErrorResult(CheckFailed + o.message)
  }

  function Checked(output: string, kind: string): ToolModels.ToolResult
  {
    ToolModels.SuccessResult(output).(metadata := map["type" := Json.Str(kind)])
  }

  /** How `pip list --outdated` ended: exit 0 succeeds, and a table without "Package" means nothing is outdated. */
  function PipReply(o: Process.Outcome): ToolModels.ToolResult
  {
    if !o.Ran? then Caught(o, "pip")
    else if o.code != 0 then ToolModels.ErrorResult(CheckFailed + o.stderr)
    else if o.stdout == [] || !Strings.Contains(o.stdout, "Package") then Checked(UpToDate, "python")
    else Checked(o.stdout, "python")
  }

  /** How `npm outdated` ended: exit 1 means outdated packages, exit 0 none, any other code failure. */
  function NpmReply(o: Process.Outcome): ToolModels.ToolResult
  {
    if !o.Ran? then Caught(o, "npm")
    else if o.code == 1 then Checked(if o.stdout == [] then SomeOutdated else o.stdout, "nodejs")
    else if o.code == 0 then Checked(UpToDate, "nodejs")
    else ToolModels.ErrorResult(CheckFailed + o.stderr)
  }

  /**
   * `CheckUpdatesTool.execute` after the project path is resolved. A Python manifest on disk
   * means pip runs, whatever it holds; else a package.json means npm runs; else an error.
   */
  function CheckDeps(project: Paths.Path, entry: Paths.Path -> Process.Entry, run: Process.Call -> Process.Outcome)
    : Workspace.Reply
  {
    var bad := Workspace.PathError(project, entry);
    if bad.Some? then Workspace.Reply(ToolModels.ErrorResult(bad.value), [])
    else if entry(RequirementsFile(project)) != Process.Absent || entry(PyProjectFile(project)) != Process.Absent then
      Workspace.Reply(PipReply(run(PipCall(project))), [PipCall(project)])
    else if entry(PackageFile(project)) != Process.Absent then
      Workspace.Reply(NpmReply(run(NpmCall(project))), [NpmCall(project)])
    else Workspace.Reply(ToolModels.ErrorResult(NoManifest), [])
  }

  /** `CheckUpdatesTool.execute`; `outdated_only` is read and not used. */
  function CheckUpdates(inv: ToolModels.ToolInvocation, path: Option<string>, outdatedOnly: bool,
                        parse: string -> Paths.Path, resolve: Paths.Path -> Paths.Path,
                        entry: Paths.Path -> Process.Entry, run: Process.Call -> Process.Outcome): Workspace.Reply
  {
    CheckDeps(ProjectOf(inv, path, parse, resolve), entry, run)
  }

  /** npm's exit code: 1 reports the outdated table, 0 reports nothing outdated, any other code fails. */
  lemma NpmExitCodes(code: int, stdout: string, stderr: string)
    ensures NpmReply(Process.Ran(code, stdout, stderr)).success <==> code == 0 || code == 1
    ensures code == 1 && stdout != [] ==> NpmReply(Process.Ran(code, stdout, stderr)).output == stdout
    ensures code == 1 && stdout == [] ==> NpmReply(Process.Ran(code, stdout, stderr)).output == SomeOutdated
    ensures code == 0 ==> NpmReply(Process.Ran(code, stdout, stderr)).output == UpToDate
    ensures code != 0 && code != 1 ==> NpmReply(Process.Ran(code, stdout, stderr)).error == Some(CheckFailed + stderr)
  {
  }

  /** pip succeeds exactly on exit 0, and shows its table only when the table has a "Package" header. */
  lemma PipExitCodes(code: int, stdout: string, stderr: string)
    ensures PipReply(Process.Ran(code, stdout, stderr)).success <==> code == 0
    ensures code == 0 && Strings.Contains(stdout, "Package") ==> PipReply(Process.Ran(code, stdout, stderr)).output == stdout
    ensures code == 0 && !Strings.Contains(stdout, "Package") ==> PipReply(Process.Ran(code, stdout, stderr)).output == UpToDate
    ensures code != 0 ==> PipReply(Process.Ran(code, stdout, stderr)).error == Some(CheckFailed + stderr)
  {
  }

  /** A Python manifest puts pip first: npm never runs then, even beside a package.json. */
  lemma PythonChecksFirst(project: Paths.Path, entry: Paths.Path -> Process.Entry, run: Process.Call -> Process.Outcome)
    requires entry(project) == Process.Directory
    requires entry(RequirementsFile(project)) != Process.Absent || entry(PyProjectFile(project)) != Process.Absent
    ensures CheckDeps(project, entry, run).calls == [PipCall(project)]
    ensures CheckDeps(project, entry, run).result == PipReply(run(PipCall(project)))
  {
  }

  /** Without any manifest no command runs. */
  lemma NoManifestRunsNothing(project: Paths.Path, entry: Paths.Path -> Process.Entry, run: Process.Call -> Process.Outcome)
    requires entry(project) == Process.Directory
    requires entry(RequirementsFile(project)) == Process.Absent && entry(PyProjectFile(project)) == Process.Absent
    requires entry(PackageFile(project)) == Process.Absent
    ensures CheckDeps(project, entry, run) == Workspace.Reply(ToolModels.ErrorResult(NoManifest), [])
  {
  }
}
