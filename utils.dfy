/**
 * The artifact writer: `write_json`, `to_json`, `read_json`,
 * `create_if_not_exists` and `get_repository_name`, over a disk that is a map
 * from file paths to their text plus a set of directories that were made.
 * `app/utils.py` and `src/app/utils.py` differ only in the indentation
 * `json.dumps` is given, which this model does not represent, so one
 * definition serves both.
 */
module Utils {
  import opened Wrappers
  import opened Json
  import Strings
  import Serial

  type Path = string

  /** `os.path.join(a, b)`: an absolute `b` replaces `a`. */
  function PathJoin(a: Path, b: string): Path
  {
    if |b| > 0 && b[0] == '/' then b
    else if a == [] || a[|a| - 1] == '/' then a + b
    else a + "/" + b
  }

  /** Where a repository's release files go, for a name without `/` and a relative tag file. */
  lemma ReleasePaths(dir: Path, name: string, t: string)
    requires name != "" && '/' !in name && (t == "" || t[0] != '/')
    ensures var r := PathJoin(dir, name);
      && |r| > 0 && r[|r| - 1] != '/'
      && PathJoin(r, t + ".json") == r + "/" + t + ".json"
      && PathJoin(r, "latest.json") == r + "/latest.json"
      && PathJoin(dir, name + ".json") == r + ".json"
  {
    JoinName(dir, name);
    JoinPlain(PathJoin(dir, name), t + ".json");
    JoinPlain(PathJoin(dir, name), "latest.json");
  }

  /** Joining a relative name without `/` ends in that name, and a suffix of the name stays a suffix. */
  lemma JoinName(dir: Path, name: string)
    requires name != "" && '/' !in name
    ensures var r := PathJoin(dir, name);
      && |r| > 0 && r[|r| - 1] != '/'
      && PathJoin(dir, name + ".json") == r + ".json"
  {
    var r := PathJoin(dir, name);
    assert name[0] in name && name[|name| - 1] in name;
    assert r[|r| - 1] == name[|name| - 1];
    if dir == [] || dir[|dir| - 1] == '/' {
      assert r == dir + name;
    } else {
      assert r == dir + "/" + name;
    }
  }

  /** Joining a relative name onto a path that does not end in `/` puts one `/` between. */
  lemma JoinPlain(a: Path, b: string)
    requires |a| > 0 && a[|a| - 1] != '/' && (b == [] || b[0] != '/')
    ensures PathJoin(a, b) == a + "/" + b
  {
  }

  /** `repository.split("/")[-1]`. */
  function GetRepositoryName(repository: string): (name: string)
    ensures '/' !in name
    ensures '/' !in repository ==> name == repository
    ensures Strings.IsLastSegment(name, repository, '/')
  {
    Strings.LastSegment(repository, '/')
  }

  /** `get_repository_name(repository)` on any value: only a string has `split`. */
  function RepositoryName(repository: Json): (r: Result<string, Error>)
    ensures r.Ok? <==> repository.Str?
    ensures r.Ok? ==> r.value == GetRepositoryName(repository.s)
    ensures r.Err? ==> r.error == AttributeError
  {
    if repository.Str? then Ok(GetRepositoryName(repository.s)) else Err(AttributeError)
  }

  /** `f"{v}"` for the values the core formats into a path. */
  function Format(v: Json): (r: Result<string, Error>)
    ensures v.Str? ==> r == Ok(v.s)
    ensures r.Ok? <==> !v.Arr? && !v.Obj?
  {
    match v
    case Str(s) => Ok(s)
    case Null => Ok("None")
    case Bool(b) => Ok(if b then "True" else "False")
    case Num(n) => Ok(if n < 0 then "-" + Serial.Decimal(-n) else Serial.Decimal(n))
    case _ => Err(TypeError)
  }

  /** `os.path.join(path, b)` where `path` comes from the configuration. */
  function JoinAt(path: Json, b: string): (r: Result<Path, Error>)
    ensures r.Ok? <==> path.Str?
    ensures r.Ok? ==> r.value == PathJoin(path.s, b)
  {
    if path.Str? then Ok(PathJoin(path.s, b)) else Err(TypeError)
  }

  /** The directory that holds `p`; "" stands for the working or root directory. */
  function Parent(p: Path): Path
  {
    var name := Strings.LastSegment(p, '/');
    if |name| == |p| then "" else p[..|p| - |name| - 1]
  }

  /** The text of every file and the directories made explicitly. */
  datatype Disk = Disk(files: map<Path, string>, dirs: set<Path>)

  /** `q` lies somewhere beneath the directory `p`. */
  predicate Beneath(q: Path, p: Path)
  {
    p + "/" <= q
  }

  predicate IsFile(d: Disk, p: Path)
  {
    p in d.files
  }

  /** A directory is one that was made, or one that holds something. */
  predicate IsDir(d: Disk, p: Path)
  {
    || p in d.dirs
    || (exists q :: q in d.files && Beneath(q, p))
    || (exists q :: q in d.dirs && Beneath(q, p))
  }

  /** `os.path.exists(p)`. */
  predicate Exists(d: Disk, p: Path)
  {
    IsFile(d, p) || IsDir(d, p)
  }

  /** Some ancestor of `p` is a regular file. */
  predicate UnderFile(d: Disk, p: Path)
  {
    exists f :: f in d.files && Beneath(p, f)
  }

  predicate ParentExists(d: Disk, p: Path)
  {
    Parent(p) == "" || IsDir(d, Parent(p))
  }

  /** The disk is a tree: nothing lies beneath a file and no path is both a file and a directory. */
  ghost predicate Valid(d: Disk)
  {
    && (forall f :: f in d.files ==> !IsDir(d, f) && !UnderFile(d, f))
    && (forall q :: q in d.dirs ==> !UnderFile(d, q))
  }

  /** `to_json(v)`: a string is already text; anything else is serialised. */
  function ToJson(v: Json): (text: string)
    ensures v.Str? ==> text == v.s
    ensures !v.Str? ==> Serial.Loads(text) == Some(v)
  {
    if v.Str? then v.s
    else
      Serial.LoadsDumps(v);
      Serial.Dumps(v)
  }

  /**
   * `write_json(v, to, overwrite)`: with `overwrite` false an existing path is
   * left alone; otherwise `open(to, "w")` fails the way the operating system
   * does or the file's text becomes `to_json(v)`.
   */
  function Write(d: Disk, v: Json, to: Path, overwrite: bool): (r: Result<Disk, Error>)
    ensures !overwrite && Exists(d, to) ==> r == Ok(d)
    ensures (overwrite || !Exists(d, to)) ==>
      (r.Ok? <==> !UnderFile(d, to) && ParentExists(d, to) && !IsDir(d, to))
    ensures (overwrite || !Exists(d, to)) && r.Ok? ==>
      r.value.files == d.files[to := ToJson(v)] && r.value.dirs == d.dirs
  {
    if Exists(d, to) && !overwrite then Ok(d)
    else if UnderFile(d, to) then Err(NotADirectoryError(to))
    else if !ParentExists(d, to) then Err(FileNotFoundError(to))
    else if IsDir(d, to) then Err(IsADirectoryError(to))
    else Ok(Disk(d.files[to := ToJson(v)], d.dirs))
  }

  /**
   * `read_json(p, default)`: the default when nothing is there, else
   * `json.load` of the file; opening a directory raises.
   */
  function Read(d: Disk, p: Path, default: Json): (r: Result<Json, Error>)
    ensures !Exists(d, p) ==> r == Ok(default)
    ensures IsDir(d, p) ==> r == Err(IsADirectoryError(p))
    ensures IsFile(d, p) && !IsDir(d, p) ==> (r.Ok? <==> Serial.Loads(d.files[p]).Some?)
    ensures IsFile(d, p) && r.Ok? ==> Serial.Loads(d.files[p]) == Some(r.value)
  {
    if IsDir(d, p) then Err(IsADirectoryError(p))
    else if IsFile(d, p) then
      match Serial.Loads(d.files[p])
      case Some(v) => Ok(v)
      case None => Err(DecodeError(p))
    else Ok(default)
  }

  /** `os.makedirs(p, exist_ok=True)`. */
  function MakeDirs(d: Disk, p: Path): (r: Result<Disk, Error>)
    ensures r.Ok? <==> p != "" && (IsDir(d, p) || (!IsFile(d, p) && !UnderFile(d, p)))
    ensures r.Ok? ==> IsDir(r.value, p) && r.value.files == d.files && d.dirs <= r.value.dirs
    ensures r.Ok? && IsDir(d, p) ==> r.value == d
  {
    if p == "" then Err(FileNotFoundError(p))
    else if IsDir(d, p) then Ok(d)
    else if IsFile(d, p) then Err(FileExistsError(p))
    else if UnderFile(d, p) then Err(NotADirectoryError(p))
    else Ok(d.(dirs := d.dirs + {p}))
  }

  /** `shutil.rmtree(p)`: `p` goes, and everything beneath it. */
  function RemoveTree(d: Disk, p: Path): (r: Disk)
    ensures !Exists(r, p)
    ensures r.files.Keys <= d.files.Keys && r.dirs <= d.dirs
    ensures forall f :: f in d.files && f != p && !Beneath(f, p) ==> f in r.files && r.files[f] == d.files[f]
  {
    Disk(map f | f in d.files && f != p && !Beneath(f, p) :: d.files[f],
         set q | q in d.dirs && q != p && !Beneath(q, p))
  }

  /** `os.remove(p)`. */
  function RemoveFile(d: Disk, p: Path): (r: Disk)
    ensures !IsDir(d, p) ==> !Exists(r, p)
    ensures r.files.Keys <= d.files.Keys && r.dirs == d.dirs
    ensures forall f :: f in d.files && f != p ==> f in r.files && r.files[f] == d.files[f]
  {
    d.(files := d.files - {p})
  }

  /** The disk shrinks, keeping what it keeps unchanged. */
  ghost predicate Shrinks(d: Disk, d': Disk)
  {
    && d'.files.Keys <= d.files.Keys
    && d'.dirs <= d.dirs
    && (forall f :: f in d'.files ==> d'.files[f] == d.files[f])
  }

  /** Once written with `overwrite`, reading the path gives back the value written. */
  lemma WriteThenRead(d: Disk, v: Json, to: Path, default: Json)
    requires !v.Str? && Write(d, v, to, true).Ok?
    ensures Read(Write(d, v, to, true).value, to, default) == Ok(v)
  {
  }

  /** Writing the same value to the same path a second time changes nothing. */
  lemma WriteIdempotent(d: Disk, v: Json, to: Path, overwrite: bool)
    requires Write(d, v, to, overwrite).Ok?
    ensures Write(Write(d, v, to, overwrite).value, v, to, overwrite) == Write(d, v, to, overwrite)
  {
    var d' := Write(d, v, to, overwrite).value;
    if overwrite || !Exists(d, to) {
      assert IsFile(d', to);
      if overwrite {
        assert !UnderFile(d', to);
        assert !IsDir(d', to);
        assert ParentExists(d', to) by {
          if Parent(to) != "" {
            var par := Parent(to);
            assert IsDir(d, par);
            if par in d.dirs {
            } else if q :| q in d.files && Beneath(q, par) {
              assert q in d'.files;
            } else {
              var q :| q in d.dirs && Beneath(q, par);
            }
          }
        }
        assert d'.files[to := ToJson(v)] == d'.files;
      }
    }
  }

  /** A path with no separator from position `k` on lies beneath no path of length `k` or more. */
  lemma NotBeneathFrom(q: Path, p: Path, k: nat)
    requires k <= |p| && forall i :: k <= i < |q| ==> q[i] != '/'
    ensures !Beneath(q, p)
  {
    if |p| < |q| {
      assert q[|p|] != '/' && (p + "/")[|p|] == '/';
    }
  }

  /** A file's parent is a directory, since the file lies beneath it. */
  lemma FileParentExists(d: Disk, p: Path)
    requires IsFile(d, p)
    ensures ParentExists(d, p)
  {
    var name := Strings.LastSegment(p, '/');
    if |name| != |p| {
      var par := Parent(p);
      assert par + "/" == p[..|p| - |name|];
      assert Beneath(p, par);
    }
  }

  /** Adding the file `to` makes directories only above it and files only at it. */
  lemma AddFileShape(d: Disk, to: Path, text: string, p: Path)
    ensures var d' := Disk(d.files[to := text], d.dirs);
      && (IsDir(d', p) <==> IsDir(d, p) || Beneath(to, p))
      && (UnderFile(d', p) <==> UnderFile(d, p) || Beneath(p, to))
  {
    var d' := Disk(d.files[to := text], d.dirs);
    if Beneath(to, p) {
      assert to in d'.files;
    }
    if IsDir(d, p) && p !in d.dirs {
      if q :| q in d.files && Beneath(q, p) {
        assert q in d'.files;
      }
    }
    if Beneath(p, to) {
      assert to in d'.files;
    }
    if UnderFile(d, p) {
      var f :| f in d.files && Beneath(p, f);
      assert f in d'.files;
    }
  }

  /** Writing a file preserves the tree shape of the disk. */
  lemma WriteKeepsValid(d: Disk, v: Json, to: Path, overwrite: bool)
    requires Valid(d) && Write(d, v, to, overwrite).Ok?
    ensures Valid(Write(d, v, to, overwrite).value)
  {
    if overwrite || !Exists(d, to) {
      var text := ToJson(v);
      var d' := Disk(d.files[to := text], d.dirs);
      assert Write(d, v, to, overwrite) == Ok(d');
      forall f | f in d'.files
        ensures !IsDir(d', f) && !UnderFile(d', f)
      {
        AddFileShape(d, to, text, f);
        if f != to {
          assert !Beneath(to, f);
          assert !Beneath(f, to);
        }
      }
      forall q | q in d'.dirs
        ensures !UnderFile(d', q)
      {
        AddFileShape(d, to, text, q);
        assert !Beneath(q, to);
      }
    }
  }

  /** Rewriting a file with the text it already holds changes nothing. */
  lemma RewriteSame(d: Disk, v: Json, p: Path)
    requires Valid(d) && IsFile(d, p) && d.files[p] == ToJson(v)
    ensures Write(d, v, p, true) == Ok(d)
  {
    FileParentExists(d, p);
    assert d.files[p := ToJson(v)] == d.files;
  }

  /** Making a directory a second time changes nothing and does not fail. */
  lemma MakeDirsIdempotent(d: Disk, p: Path)
    requires MakeDirs(d, p).Ok?
    ensures MakeDirs(MakeDirs(d, p).value, p) == MakeDirs(d, p)
  {
  }

  /** Making directories preserves the tree shape of the disk. */
  lemma MakeDirsKeepsValid(d: Disk, p: Path)
    requires Valid(d) && MakeDirs(d, p).Ok?
    ensures Valid(MakeDirs(d, p).value)
  {
  }

  /** Removing a tree or a file preserves the tree shape of the disk. */
  lemma RemoveKeepsValid(d: Disk, p: Path)
    requires Valid(d)
    ensures Valid(RemoveTree(d, p)) && Valid(RemoveFile(d, p))
  {
  }

  /** A write leaves every other path that is not above it as it was. */
  lemma ReadAfterWrite(d: Disk, v: Json, to: Path, overwrite: bool, p: Path, default: Json)
    requires Write(d, v, to, overwrite).Ok? && p != to && !Beneath(to, p)
    ensures Read(Write(d, v, to, overwrite).value, p, default) == Read(d, p, default)
    ensures Exists(Write(d, v, to, overwrite).value, p) == Exists(d, p)
  {
  }

  /** Making a directory leaves every path that is neither it nor above it as it was. */
  lemma ReadAfterMakeDirs(d: Disk, q: Path, p: Path, default: Json)
    requires MakeDirs(d, q).Ok? && p != q && !Beneath(q, p)
    ensures Read(MakeDirs(d, q).value, p, default) == Read(d, p, default)
    ensures Exists(MakeDirs(d, q).value, p) == Exists(d, p)
  {
  }

  /** The tag file, `latest.json` and the index are three different files, none above another. */
  lemma ReleasePathsApart(r: Path, t: string)
    requires t != "latest" && '/' !in t
    ensures var tagPath, latestPath, indexPath := r + "/" + t + ".json", r + "/latest.json", r + ".json";
      && tagPath != latestPath && tagPath != indexPath && latestPath != indexPath
      && tagPath != r && latestPath != r && indexPath != r
      && !Beneath(r, tagPath) && !Beneath(r, latestPath) && !Beneath(r, indexPath)
      && !Beneath(tagPath, latestPath) && !Beneath(latestPath, tagPath)
      && !Beneath(tagPath, indexPath) && !Beneath(latestPath, indexPath)
      && !Beneath(indexPath, tagPath) && !Beneath(indexPath, latestPath)
  {
    var tagPath, latestPath, indexPath := r + "/" + t + ".json", r + "/latest.json", r + ".json";
    var tagFile, latestFile := t + ".json", "latest.json";
    assert tagPath[|r|] == '/' && latestPath[|r|] == '/' && indexPath[|r|] == '.';
    assert (indexPath + "/")[|r|] == '.';
    assert tagPath[|r| + 1..] == tagFile && latestPath[|r| + 1..] == latestFile;
    assert forall i :: |r| < i < |tagPath| ==> tagPath[i] == tagFile[i - |r| - 1] != '/';
    assert forall i :: |r| < i < |latestPath| ==> latestPath[i] == latestFile[i - |r| - 1] != '/';
    assert tagFile[..|t|] == t && latestFile[..6] == "latest";
    NotBeneathFrom(tagPath, latestPath, |r| + 1);
    NotBeneathFrom(latestPath, tagPath, |r| + 1);
  }

  /**
   * The disks a release publication passes through: make `r`, write the tag
   * file unless it exists, overwrite `latest.json`, overwrite the index with
   * `merged`. Only those three files change.
   */
  lemma ReleaseFiles(d: Disk, d1: Disk, d2: Disk, d3: Disk, d4: Disk, r: Path, t: string, text: string, merged: Json)
    requires t != "latest" && '/' !in t
    requires MakeDirs(d, r) == Ok(d1)
    requires Write(d1, Str(text), r + "/" + t + ".json", false) == Ok(d2)
    requires Write(d2, Str(text), r + "/latest.json", true) == Ok(d3)
    requires Write(d3, merged, r + ".json", true) == Ok(d4)
    ensures var tagPath, latestPath, indexPath := r + "/" + t + ".json", r + "/latest.json", r + ".json";
      && (tagPath in d.files ==> tagPath in d4.files && d4.files[tagPath] == d.files[tagPath])
      && (!Exists(d, tagPath) ==> tagPath in d4.files && d4.files[tagPath] == text)
      && latestPath in d4.files && d4.files[latestPath] == text
      && indexPath in d4.files && d4.files[indexPath] == ToJson(merged)
      && forall f :: f in d.files && f != tagPath && f != latestPath && f != indexPath ==>
           f in d4.files && d4.files[f] == d.files[f]
  {
    var tagPath, latestPath, indexPath := r + "/" + t + ".json", r + "/latest.json", r + ".json";
    ReleasePathsDistinct(r, t);
    ReadAfterMakeDirs(d, r, tagPath, Arr([]));
    WriteFiles(d1, Str(text), tagPath, false);
    WriteFiles(d2, Str(text), latestPath, true);
    WriteFiles(d3, merged, indexPath, true);
    ThreeUpdates(d.files, d4.files, Exists(d, tagPath), tagPath, latestPath, indexPath, text, text, ToJson(merged));
  }

  /** The files after a successful `write_json`. */
  lemma WriteFiles(d: Disk, v: Json, to: Path, overwrite: bool)
    requires Write(d, v, to, overwrite).Ok?
    ensures Write(d, v, to, overwrite).value.files
         == if !overwrite && Exists(d, to) then d.files else d.files[to := ToJson(v)]
  {
  }

  /** Three writes to three different paths, the first skipped when its path exists. */
  lemma ThreeUpdates(f0: map<Path, string>, f3: map<Path, string>, skip: bool, a: Path, b: Path, c: Path,
                     ta: string, tb: string, tc: string)
    requires a != b && a != c && b != c
    requires a in f0 ==> skip
    requires f3 == (if skip then f0 else f0[a := ta])[b := tb][c := tc]
    ensures a in f0 ==> a in f3 && f3[a] == f0[a]
    ensures !skip ==> a in f3 && f3[a] == ta
    ensures b in f3 && f3[b] == tb && c in f3 && f3[c] == tc
    ensures forall f :: f in f0 && f != a && f != b && f != c ==> f in f3 && f3[f] == f0[f]
  {
  }

  lemma ReleasePathsDistinct(r: Path, t: string)
    requires t != "latest" && '/' !in t
    ensures var tagPath, latestPath, indexPath := r + "/" + t + ".json", r + "/latest.json", r + ".json";
      && tagPath != latestPath && tagPath != indexPath && latestPath != indexPath
      && tagPath != r && !Beneath(r, tagPath)
  {
    ReleasePathsApart(r, t);
  }

  /** The first three steps of a release publication leave the index as it reads. */
  lemma ReleaseIndexKept(d: Disk, d1: Disk, d2: Disk, d3: Disk, r: Path, t: string, text: string)
    requires t != "latest" && '/' !in t
    requires MakeDirs(d, r) == Ok(d1)
    requires Write(d1, Str(text), r + "/" + t + ".json", false) == Ok(d2)
    requires Write(d2, Str(text), r + "/latest.json", true) == Ok(d3)
    ensures Read(d, r + ".json", Arr([])) == Read(d3, r + ".json", Arr([]))
  {
    ReleasePathsApart(r, t);
    var tagPath, latestPath, indexPath := r + "/" + t + ".json", r + "/latest.json", r + ".json";
    ReadAfterMakeDirs(d, r, indexPath, Arr([]));
    ReadAfterWrite(d1, Str(text), tagPath, false, indexPath, Arr([]));
    ReadAfterWrite(d2, Str(text), latestPath, true, indexPath, Arr([]));
  }

  /** An exception, with the disk as the writes before it left it. */
  datatype Failure = Failure(error: Error, disk: Disk)

  /** Lifts an operation's exception to one that records the disk `d`. */
  function At<T>(r: Result<T, Error>, d: Disk): Result<T, Failure>
  {
    match r
    case Ok(x) => Ok(x)
    case Err(e) => Err(Failure(e, d))
  }

  /** The disk a run leaves behind, whether it completed or raised. */
  function DiskAfter(r: Result<Disk, Failure>): Disk
  {
    if r.Ok? then r.value else r.error.disk
  }

  /** `after` and `err` are what the run `r` ends with. */
  predicate Ends(r: Result<Disk, Failure>, after: Disk, err: Option<Error>)
  {
    match r
    case Ok(d) => after == d && err == None
    case Err(f) => after == f.disk && err == Some(f.error)
  }

  /** The file system the program runs against; every operation changes it in place. */
  class FileSystem {
    var files: map<Path, string>
    var dirs: set<Path>

    function State(): Disk
      reads this
    {
      Disk(files, dirs)
    }

    constructor (d: Disk)
      ensures State() == d
    {
      files := d.files;
      dirs := d.dirs;
    }

    /** `write_json(v, to, overwrite)`. */
    method WriteJson(v: Json, to: Path, overwrite: bool) returns (err: Option<Error>)
      modifies this
      ensures Ends(At(Write(old(State()), v, to, overwrite), old(State())), State(), err)
    {
      var d := State();
      if !Exists(d, to) || overwrite {
        if UnderFile(d, to) {
          return Some(NotADirectoryError(to));
        }
        if !ParentExists(d, to) {
          return Some(FileNotFoundError(to));
        }
        if IsDir(d, to) {
          return Some(IsADirectoryError(to));
        }
        files := files[to := ToJson(v)];
      }
      return None;
    }

    /** `create_if_not_exists(p)`. */
    method CreateIfNotExists(p: Path) returns (err: Option<Error>)
      modifies this
      ensures Ends(At(MakeDirs(old(State()), p), old(State())), State(), err)
    {
      var d := State();
      if p == "" {
        return Some(FileNotFoundError(p));
      }
      if !IsDir(d, p) {
        if IsFile(d, p) {
          return Some(FileExistsError(p));
        }
        if UnderFile(d, p) {
          return Some(NotADirectoryError(p));
        }
        dirs := dirs + {p};
      }
      return None;
    }

    /** `shutil.rmtree(p)`. */
    method Rmtree(p: Path)
      modifies this
      ensures State() == RemoveTree(old(State()), p)
    {
      files := map f | f in files && f != p && !Beneath(f, p) :: files[f];
      dirs := set q | q in dirs && q != p && !Beneath(q, p);
    }

    /** `os.remove(p)`. */
    method Remove(p: Path)
      modifies this
      ensures State() == RemoveFile(old(State()), p)
    {
      files := files - {p};
    }
  }
}
