/**
 * `ProjectStorage`: every project is a JSON file `<project_id>.json` in one
 * home directory. The disk is a map from paths to the JSON document each
 * file holds, so `json.dumps` followed by `json.loads` is the identity here.
 */
module Storage {
  import opened Wrappers
  import opened Strings
  import opened Models

  /** A file path: the directory and the file name within it. */
  datatype Path = Path(dir: string, name: string)

  /** Why reading a project fails: the file is absent, or `from_dict` rejects its document. */
  datatype LoadError = NotFound | Malformed(error: DictError)

  /** What iterating `list_projects()` produces: the projects yielded, and the error that stopped it, if any. */
  datatype Listing = Listing(projects: seq<Project>, failure: Option<LoadError>)

  /** The files on disk, each holding one JSON document. */
  class FileSystem {
    var files: map<Path, Value>

    constructor(files: map<Path, Value>)
      ensures this.files == files
    {
      this.files := files;
    }

    /** `path.write_text(json.dumps(document))`: creates or overwrites exactly one file. */
    method Write(path: Path, document: Value)
      modifies this
      ensures files == old(files)[path := document]
    {
      files := files[path := document];
    }
  }

  const JsonSuffix := ".json"

  /**
   * An id that names a file directly in `home`. `home / "<id>.json"` takes a
   * '/' in the id as a directory step, so such ids are outside this model.
   */
  predicate PlainId(projectId: string) {
    '/' !in projectId
  }

  /** A single non-empty path component other than ".", which `pathlib` would drop. */
  predicate PlainComponent(part: string) {
    PlainId(part) && part != "" && part != "."
  }

  /** The file name `path_for` gives a project id: the id, then ".json". */
  function FileName(projectId: string): (r: string)
    ensures StartsWith(r, projectId) && EndsWith(r, JsonSuffix)
    ensures PlainId(projectId) ==> '/' !in r
  {
    projectId + JsonSuffix
  }

  /** Different plain ids never share a file. */
  lemma FileNameInjective(a: string, b: string)
    requires PlainId(a) && PlainId(b)
    requires FileName(a) == FileName(b)
    ensures a == b
  {
    assert a == FileName(a)[..|a|];
    assert b == FileName(b)[..|b|];
  }

  /** `Project.from_dict(json.loads(text))` for the document a file holds. */
  function DecodeProject(document: Value, now: string): (r: Result<Project, LoadError>)
    ensures !document.Object? ==> r == Err(Malformed(NotAMapping))
    ensures document.Object? ==>
      (r.Ok? <==> ProjectFromDict(document.fields, now).Ok?) &&
      (r.Ok? ==> r.value == ProjectFromDict(document.fields, now).value)
  {
    if !document.Object? then Err(Malformed(NotAMapping))
    else match ProjectFromDict(document.fields, now)
      case Ok(p) => Ok(p)
      case Err(e) => Err(Malformed(e))
  }

  /** What `load` returns for the file at `path`. */
  function LoadAt(files: map<Path, Value>, path: Path, now: string): (r: Result<Project, LoadError>)
    ensures path !in files <==> r == Err(NotFound)
  {
    if path !in files then Err(NotFound) else DecodeProject(files[path], now)
  }

  /** The file names directly in `home` that the pattern "*.json" matches. */
  function JsonNames(files: map<Path, Value>, home: string): (r: set<string>)
    ensures forall n :: n in r ==> EndsWith(n, JsonSuffix) && '/' !in n && Path(home, n) in files
    ensures forall p :: p in files && p.dir == home && EndsWith(p.name, JsonSuffix) && '/' !in p.name ==> p.name in r
  {
    set p | p in files && p.dir == home && EndsWith(p.name, JsonSuffix) && '/' !in p.name :: p.name
  }

  // ---------------------------------------------------------------------------
  // `sorted` on the names of one directory

  /** `m` is the least name of `names` in code-point order. */
  predicate IsLeast(m: string, names: set<string>) {
    m in names && forall n :: n in names && n != m ==> LexLess(m, n)
  }

  /** Every non-empty finite set of names has a least element. */
  lemma {:induction false} LeastExists(names: set<string>)
    requires names != {}
    ensures exists m :: IsLeast(m, names)
    decreases |names|
  {
    var x :| x in names;
    var rest := names - {x};
    if rest == {} {
      assert names == {x};
      assert IsLeast(x, names);
    } else {
      LeastExists(rest);
      var m :| IsLeast(m, rest);
      LexLessTotal(x, m);
      if LexLess(x, m) {
        forall n | n in names && n != x ensures LexLess(x, n) {
          if n != m {
            LexLessTransitive(x, m, n);
          }
        }
        assert IsLeast(x, names);
      } else {
        assert IsLeast(m, names);
      }
    }
  }

  /** The least name is unique. */
  lemma LeastUnique(names: set<string>)
    ensures forall a, b :: IsLeast(a, names) && IsLeast(b, names) ==> a == b
  {
    forall a, b | IsLeast(a, names) && IsLeast(b, names) ensures a == b {
      if a != b {
        LexLessTransitive(a, b, a);
        LexLessIrreflexive(a);
      }
    }
  }

  /** `sorted(names)`: the least name first, then the others sorted. */
  function SortedNames(names: set<string>): seq<string>
    decreases |names|
  {
    if names == {} then []
    else
      LeastExists(names);
      LeastUnique(names);
      var m :| IsLeast(m, names);
      [m] + SortedNames(names - {m})
  }

  /** Strictly ascending: every name is smaller than every later one, so none repeats. */
  predicate StrictlySorted(names: seq<string>) {
    forall i, j :: 0 <= i < j < |names| ==> LexLess(names[i], names[j])
  }

  /** `sorted(names)` lists every name of the set exactly once, in ascending order. */
  lemma {:induction false} SortedNamesSorted(names: set<string>)
    ensures StrictlySorted(SortedNames(names))
    ensures |SortedNames(names)| == |names|
    ensures forall n :: n in SortedNames(names) <==> n in names
    decreases |names|
  {
    if names != {} {
      LeastExists(names);
      LeastUnique(names);
      var m :| IsLeast(m, names);
      var rest := SortedNames(names - {m});
      SortedNamesSorted(names - {m});
      assert SortedNames(names) == [m] + rest;
      forall i, j | 0 <= i < j < |[m] + rest| ensures LexLess(([m] + rest)[i], ([m] + rest)[j]) {
        if i == 0 {
          assert rest[j - 1] in names - {m};
        } else {
          assert ([m] + rest)[i] == rest[i - 1] && ([m] + rest)[j] == rest[j - 1];
        }
      }
    }
  }

  // ---------------------------------------------------------------------------
  // Reading the listed files

  /** What the generator yields for the files `names` of `home`, in that order, up to the first failure. */
  function ListFrom(files: map<Path, Value>, home: string, names: seq<string>, now: string): (l: Listing)
    ensures |l.projects| <= |names|
  {
    if names == [] then Listing([], None)
    else match LoadAt(files, Path(home, names[0]), now)
      case Err(e) => Listing([], Some(e))
      case Ok(p) =>
        var rest := ListFrom(files, home, names[1..], now);
        Listing([p] + rest.projects, rest.failure)
  }

  /**
   * The generator stops early exactly when some listed file fails to load;
   * when none does, it yields one project per file, each the one that file holds.
   */
  lemma {:induction false} ListFromAll(files: map<Path, Value>, home: string, names: seq<string>, now: string)
    ensures ListFrom(files, home, names, now).failure.None? <==>
      forall i :: 0 <= i < |names| ==> LoadAt(files, Path(home, names[i]), now).Ok?
    ensures ListFrom(files, home, names, now).failure.None? ==>
      |ListFrom(files, home, names, now).projects| == |names| &&
      forall i :: 0 <= i < |names| ==>
        LoadAt(files, Path(home, names[i]), now) == Ok(ListFrom(files, home, names, now).projects[i])
  {
    if names != [] {
      var rest := names[1..];
      ListFromAll(files, home, rest, now);
      var l := ListFrom(files, home, names, now);
      var first := LoadAt(files, Path(home, names[0]), now);
      if first.Ok? {
        var lr := ListFrom(files, home, rest, now);
        assert l == Listing([first.value] + lr.projects, lr.failure);
        if lr.failure.None? {
          forall i | 0 <= i < |names| ensures LoadAt(files, Path(home, names[i]), now) == Ok(l.projects[i]) {
            if i > 0 {
              assert names[i] == rest[i - 1] && l.projects[i] == lr.projects[i - 1];
            }
          }
        } else {
          var k :| 0 <= k < |rest| && !LoadAt(files, Path(home, rest[k]), now).Ok?;
          assert names[k + 1] == rest[k];
        }
      } else {
        assert l.failure.Some?;
      }
    }
  }

  /** `ListFrom` after a first part that loads: that part's projects, then the rest's. */
  function Prepend(projects: seq<Project>, l: Listing): Listing {
    Listing(projects + l.projects, l.failure)
  }

  /** The document `save` writes for a project. */
  function Saved(files: map<Path, Value>, home: string, project: Project): (r: map<Path, Value>)
    ensures r.Keys == files.Keys + {Path(home, FileName(project.projectId))}
    ensures r[Path(home, FileName(project.projectId))] == Object(ProjectToDict(project))
    ensures forall p :: p in files && p != Path(home, FileName(project.projectId)) ==> r[p] == files[p]
  {
    files[Path(home, FileName(project.projectId)) := Object(ProjectToDict(project))]
  }

  /** `load(p.project_id)` after `save(p)` gives back `p`, whatever the clock says. */
  lemma LoadAfterSave(files: map<Path, Value>, home: string, project: Project, now: string)
    ensures LoadAt(Saved(files, home, project), Path(home, FileName(project.projectId)), now) == Ok(project)
  {
    ProjectRoundTrip(project, now);
  }

  /** `save(p)` leaves the file of every other project as it was. */
  lemma SaveKeepsOthers(files: map<Path, Value>, home: string, project: Project, other: string, now: string)
    requires PlainId(other) && PlainId(project.projectId) && other != project.projectId
    ensures LoadAt(Saved(files, home, project), Path(home, FileName(other)), now) ==
      LoadAt(files, Path(home, FileName(other)), now)
  {
    if FileName(other) == FileName(project.projectId) {
      FileNameInjective(other, project.projectId);
    }
  }

  /** A saved project's file is among those `list_projects` reads. */
  lemma SavedIsListed(files: map<Path, Value>, home: string, project: Project)
    requires PlainId(project.projectId)
    ensures FileName(project.projectId) in JsonNames(Saved(files, home, project), home)
  {
    var name := FileName(project.projectId);
    assert name[|name| - |JsonSuffix|..] == JsonSuffix;
    assert Path(home, name) in Saved(files, home, project);
  }

  /** The listing is empty, with nothing failing, exactly when `home` holds no "*.json" file. */
  lemma EmptyListing(files: map<Path, Value>, home: string, now: string)
    ensures ListFrom(files, home, SortedNames(JsonNames(files, home)), now) == Listing([], None) <==>
      JsonNames(files, home) == {}
  {
    SortedNamesSorted(JsonNames(files, home));
  }

  class ProjectStorage {
    const home: string
    const fs: FileSystem

    /** `ProjectStorage(home)`; the directory creation is not modelled. */
    constructor(home: string, fs: FileSystem)
      ensures this.home == home && this.fs == fs
    {
      this.home := home;
      this.fs := fs;
    }

    /** `path_for(project_id)`: `home / "<project_id>.json"`. */
    function PathFor(projectId: string): (p: Path)
      ensures p.dir == home && p.name == FileName(projectId)
      ensures PlainId(projectId) ==> '/' !in p.name
    {
      Path(home, FileName(projectId))
    }

    /** `save(project)`: the project's file now holds `project.to_dict()`; no other file changes. */
    method Save(project: Project)
      modifies fs
      ensures fs.files == Saved(old(fs.files), home, project)
    {
      fs.Write(PathFor(project.projectId), Object(ProjectToDict(project)));
    }

    /** `load(project_id)`. */
    method Load(projectId: string, now: string) returns (r: Result<Project, LoadError>)
      ensures r == LoadAt(fs.files, PathFor(projectId), now)
    {
      var path := PathFor(projectId);
      if path !in fs.files {
        r := Err(NotFound);
      } else {
        r := DecodeProject(fs.files[path], now);
      }
    }

    /** `list_projects()`: the "*.json" files of `home` in sorted order, each decoded, until one fails. */
    method ListProjects(now: string) returns (listing: Listing)
      ensures listing == ListFrom(fs.files, home, SortedNames(JsonNames(fs.files, home)), now)
    {
      var names := SortedNames(JsonNames(fs.files, home));
      var projects := [];
      var i := 0;
      while i < |names|
        invariant 0 <= i <= |names|
        invariant Prepend(projects, ListFrom(fs.files, home, names[i..], now)) ==
          ListFrom(fs.files, home, names, now)
      {
        var r := LoadAt(fs.files, Path(home, names[i]), now);
        assert names[i..][0] == names[i] && names[i..][1..] == names[i + 1..];
        if r.Err? {
          assert projects + [] == projects;
          return Listing(projects, Some(r.error));
        }
        AppendAssoc(projects, [r.value], ListFrom(fs.files, home, names[i + 1..], now).projects);
        projects := projects + [r.value];
        i := i + 1;
      }
      assert projects + [] == projects;
      listing := Listing(projects, None);
    }
  }

}
