/**
 * The generators of `app/generator.py`. Each `generate(config, path)` is a
 * function from the disk before it to the disk after it, or to the exception
 * it raised together with the disk as its earlier writes left it; each
 * generator also has a method that performs the same steps on a `FileSystem`
 * and is proved to end as that function says.
 */
module Generators {
  import opened Wrappers
  import opened Json
  import opened Utils
  import Api
  import Serial
  import opened AnnouncementIds

  /* ---------------------------------------------------------------------- */
  /* The release step, shared with the release API of `src/app/generator.py` */

  /** `if tag not in index: index.append(tag)`. */
  function MergeTag(index: Json, tag: Json): (r: Result<Json, Error>)
    ensures index.Arr? ==> r == Ok(Arr(if tag in index.items then index.items else index.items + [tag]))
    ensures index.Obj? || index.Str? ==> r.Ok? ==> r == Ok(index)
  {
    var present :- Contains(index, tag);
    if present then Ok(index) else Append(index, tag)
  }

  /** The merge only appends, and appends the tag only when it is missing. */
  lemma MergeAppendOnly(index: seq<Json>, tag: Json)
    ensures MergeTag(Arr(index), tag).Ok?
    ensures var merged := MergeTag(Arr(index), tag).value.items;
      && index <= merged
      && tag in merged
      && |merged| == |index| + (if tag in index then 0 else 1)
      && multiset(merged)[tag] == (if tag in index then multiset(index)[tag] else 1)
  {
  }

  /** Merging the same tag a second time changes nothing. */
  lemma MergeIdempotent(index: Json, tag: Json)
    requires MergeTag(index, tag).Ok? && index.Arr?
    ensures MergeTag(MergeTag(index, tag).value, tag) == MergeTag(index, tag)
  {
  }

  /**
   * Lines 57-75 of the releases generator: with the release and the tag in
   * hand, write `<tag>.json` once, overwrite `latest.json`, and merge the tag
   * into the index `<dir>/<name>.json`.
   */
  function Publish(d: Disk, dir: Path, name: string, release: Json, tag: Json): Result<Disk, Failure>
  {
    var releasePath := PathJoin(dir, name);
    var text := ToJson(release);
    var d1 :- At(MakeDirs(d, releasePath), d);
    var tagName :- At(Format(tag), d1);
    var d2 :- At(Write(d1, Str(text), PathJoin(releasePath, tagName + ".json"), false), d1);
    var d3 :- At(Write(d2, Str(text), PathJoin(releasePath, "latest.json"), true), d2);
    var indexPath := PathJoin(dir, name + ".json");
    var index :- At(Read(d3, indexPath, Arr([])), d3);
    var merged :- At(MergeTag(index, tag), d3);
    At(Write(d3, merged, indexPath, true), d3)
  }

  /** One repository of the releases generator: fetch, then publish what came back. */
  function ReleaseStep(api: Api.GitHubApi, d: Disk, dir: Path, repository: Json): Result<Disk, Failure>
  {
    var release :- At(api.GetRelease(repository, false), d);
    PublishRelease(d, dir, repository, release)
  }

  /** Lines 53-75 of the releases generator: name, tag, publish. */
  function PublishRelease(d: Disk, dir: Path, repository: Json, release: Json): Result<Disk, Failure>
  {
    var name :- At(RepositoryName(repository), d);
    var tag :- At(GetItem(release, "tag"), d);
    Publish(d, dir, name, release, tag)
  }

  /** The repositories in order; the first exception ends the run. */
  function ReleasesInto(api: Api.GitHubApi, d: Disk, dir: Path, repositories: seq<Json>): Result<Disk, Failure>
    decreases |repositories|
  {
    if repositories == [] then Ok(d)
    else
      var d1 :- ReleaseStep(api, d, dir, repositories[0]);
      ReleasesInto(api, d1, dir, repositories[1..])
  }

  /** `ReleasesGenerator.generate(config, path)`, writing under `<path>/<folder>`. */
  function Releases(api: Api.GitHubApi, d: Disk, config: Json, path: Json, folder: string): Result<Disk, Failure>
  {
    var dir :- At(JoinAt(path, folder), d);
    var repositories :- At(GetItem(config, "repositories"), d);
    var list :- At(Iterate(repositories), d);
    ReleasesInto(api, d, dir, list)
  }

  /** The steps of a successful publication, one disk after another. */
  lemma PublishSteps(d: Disk, dir: Path, name: string, release: Json, tag: Json, t: string)
    requires Publish(d, dir, name, release, tag).Ok? && Format(tag) == Ok(t)
    ensures var r, text := PathJoin(dir, name), ToJson(release);
      && MakeDirs(d, r).Ok?
      && var d1 := MakeDirs(d, r).value;
      && Write(d1, Str(text), PathJoin(r, t + ".json"), false).Ok?
      && var d2 := Write(d1, Str(text), PathJoin(r, t + ".json"), false).value;
      && Write(d2, Str(text), PathJoin(r, "latest.json"), true).Ok?
      && var d3 := Write(d2, Str(text), PathJoin(r, "latest.json"), true).value;
      && var indexPath := PathJoin(dir, name + ".json");
      && Read(d3, indexPath, Arr([])).Ok?
      && MergeTag(Read(d3, indexPath, Arr([])).value, tag).Ok?
      && var merged := MergeTag(Read(d3, indexPath, Arr([])).value, tag).value;
      && Write(d3, merged, indexPath, true) == Ok(Publish(d, dir, name, release, tag).value)
  {
  }

  /** `PublishEffect` on the four disks a publication passes through. */
  lemma PublishDisks(d: Disk, d1: Disk, d2: Disk, d3: Disk, d4: Disk, r: Path, t: string, text: string, tag: Json)
    requires t != "latest" && '/' !in t
    requires MakeDirs(d, r) == Ok(d1)
    requires Write(d1, Str(text), r + "/" + t + ".json", false) == Ok(d2)
    requires Write(d2, Str(text), r + "/latest.json", true) == Ok(d3)
    requires Read(d3, r + ".json", Arr([])).Ok?
    requires MergeTag(Read(d3, r + ".json", Arr([])).value, tag).Ok?
    requires Write(d3, MergeTag(Read(d3, r + ".json", Arr([])).value, tag).value, r + ".json", true) == Ok(d4)
    ensures var tagPath, latestPath, indexPath := r + "/" + t + ".json", r + "/latest.json", r + ".json";
      && (tagPath in d.files ==> tagPath in d4.files && d4.files[tagPath] == d.files[tagPath])
      && (!Exists(d, tagPath) ==> tagPath in d4.files && d4.files[tagPath] == text)
      && latestPath in d4.files && d4.files[latestPath] == text
      && Read(d, indexPath, Arr([])) == Read(d3, indexPath, Arr([]))
      && indexPath in d4.files
      && d4.files[indexPath] == ToJson(MergeTag(Read(d3, indexPath, Arr([])).value, tag).value)
      && forall f :: f in d.files && f != tagPath && f != latestPath && f != indexPath ==>
           f in d4.files && d4.files[f] == d.files[f]
  {
    ReleaseFiles(d, d1, d2, d3, d4, r, t, text, MergeTag(Read(d3, r + ".json", Arr([])).value, tag).value);
    ReleaseIndexKept(d, d1, d2, d3, r, t, text);
  }

  /**
   * What a successful publication leaves behind: the tag file kept if it was
   * there and written if nothing was, `latest.json` overwritten, the index
   * holding the old index (or `[]`) merged with the tag, every other file as
   * it was.
   */
  lemma PublishEffect(d: Disk, dir: Path, name: string, release: Json, tag: Json, t: string)
    requires Publish(d, dir, name, release, tag).Ok?
    requires name != "" && '/' !in name
    requires Format(tag) == Ok(t) && t != "latest" && '/' !in t
    ensures var d' := Publish(d, dir, name, release, tag).value;
      var r := PathJoin(dir, name);
      var tagPath, latestPath, indexPath := r + "/" + t + ".json", r + "/latest.json", r + ".json";
      && (tagPath in d.files ==> tagPath in d'.files && d'.files[tagPath] == d.files[tagPath])
      && (!Exists(d, tagPath) ==> tagPath in d'.files && d'.files[tagPath] == ToJson(release))
      && latestPath in d'.files && d'.files[latestPath] == ToJson(release)
      && Read(d, indexPath, Arr([])).Ok?
      && MergeTag(Read(d, indexPath, Arr([])).value, tag).Ok?
      && indexPath in d'.files
      && d'.files[indexPath] == ToJson(MergeTag(Read(d, indexPath, Arr([])).value, tag).value)
      && forall f :: f in d.files && f != tagPath && f != latestPath && f != indexPath ==>
           f in d'.files && d'.files[f] == d.files[f]
  {
    PublishSteps(d, dir, name, release, tag, t);
    ReleasePaths(dir, name, t);
    var r, text := PathJoin(dir, name), ToJson(release);
    var d1 := MakeDirs(d, r).value;
    var d2 := Write(d1, Str(text), r + "/" + t + ".json", false).value;
    var d3 := Write(d2, Str(text), r + "/latest.json", true).value;
    var merged := MergeTag(Read(d3, r + ".json", Arr([])).value, tag).value;
    var d4 := Write(d3, merged, r + ".json", true).value;
    PublishDisks(d, d1, d2, d3, d4, r, t, text, tag);
  }

  /** A tree that already holds a publication's files is left as it is by publishing again. */
  lemma PublishFixed(d: Disk, dir: Path, name: string, release: Json, tag: Json, t: string, items: seq<Json>)
    requires Valid(d)
    requires name != "" && '/' !in name
    requires Format(tag) == Ok(t) && t != "latest" && '/' !in t
    requires var r := PathJoin(dir, name);
      && IsDir(d, r) && Exists(d, r + "/" + t + ".json")
      && r + "/latest.json" in d.files && d.files[r + "/latest.json"] == ToJson(release)
      && r + ".json" in d.files && d.files[r + ".json"] == ToJson(Arr(items)) && tag in items
    ensures Publish(d, dir, name, release, tag) == Ok(d)
  {
    ReleasePaths(dir, name, t);
    ReleasePathsApart(PathJoin(dir, name), t);
    var r, text := PathJoin(dir, name), ToJson(release);
    RewriteSame(d, Str(text), r + "/latest.json");
    assert Read(d, r + ".json", Arr([])) == Ok(Arr(items));
    RewriteSame(d, Arr(items), r + ".json");
  }

  /** A publication keeps a tree a tree and leaves its directory and its tag file in place. */
  lemma PublishDisksValid(d: Disk, d1: Disk, d2: Disk, d3: Disk, d4: Disk, r: Path, t: string, text: string, merged: Json)
    requires Valid(d)
    requires MakeDirs(d, r) == Ok(d1)
    requires Write(d1, Str(text), r + "/" + t + ".json", false) == Ok(d2)
    requires Write(d2, Str(text), r + "/latest.json", true) == Ok(d3)
    requires Write(d3, merged, r + ".json", true) == Ok(d4)
    ensures Valid(d4) && IsDir(d4, r) && Exists(d4, r + "/" + t + ".json")
  {
    MakeDirsKeepsValid(d, r);
    WriteKeepsValid(d1, Str(text), r + "/" + t + ".json", false);
    WriteKeepsValid(d2, Str(text), r + "/latest.json", true);
    WriteKeepsValid(d3, merged, r + ".json", true);
    assert IsDir(d1, r);
    assert d1.dirs <= d4.dirs && d1.files.Keys <= d4.files.Keys;
    assert Exists(d2, r + "/" + t + ".json");
    assert d2.dirs <= d4.dirs && d2.files.Keys <= d4.files.Keys;
  }

  /**
   * Publishing the same release a second time, on a disk that is a tree and
   * whose index was absent or a list, leaves the disk as the first run did.
   */
  lemma PublishIdempotent(d: Disk, dir: Path, name: string, release: Json, tag: Json, t: string)
    requires Valid(d) && Publish(d, dir, name, release, tag).Ok?
    requires name != "" && '/' !in name
    requires Format(tag) == Ok(t) && t != "latest" && '/' !in t
    requires Read(d, PathJoin(dir, name + ".json"), Arr([])).Ok?
    requires Read(d, PathJoin(dir, name + ".json"), Arr([])).value.Arr?
    ensures var d' := Publish(d, dir, name, release, tag).value;
      Publish(d', dir, name, release, tag) == Ok(d')
  {
    PublishSteps(d, dir, name, release, tag, t);
    ReleasePaths(dir, name, t);
    var r, text := PathJoin(dir, name), ToJson(release);
    var d1 := MakeDirs(d, r).value;
    var d2 := Write(d1, Str(text), r + "/" + t + ".json", false).value;
    var d3 := Write(d2, Str(text), r + "/latest.json", true).value;
    var merged := MergeTag(Read(d3, r + ".json", Arr([])).value, tag).value;
    var d4 := Write(d3, merged, r + ".json", true).value;
    PublishDisks(d, d1, d2, d3, d4, r, t, text, tag);
    PublishDisksValid(d, d1, d2, d3, d4, r, t, text, merged);
    var items := Read(d, r + ".json", Arr([])).value.items;
    MergeAppendOnly(items, tag);
    assert merged == MergeTag(Arr(items), tag).value;
    PublishFixed(d4, dir, name, release, tag, t, merged.items);
  }

  /** The latest release is a record whose `tag` is the upstream `tag_name`, and its text is its serialisation. */
  lemma LatestReleaseTag(api: Api.GitHubApi, repository: Json)
    requires api.GetRelease(repository, false).Ok?
    ensures var release := api.GetRelease(repository, false).value;
      && Api.Fetch(api.upstream.latest, repository).Ok?
      && GetItem(release, "tag") == GetItem(Api.Fetch(api.upstream.latest, repository).value, "tag_name")
      && ToJson(release) == Serial.Dumps(release)
  {
    var release := api.GetRelease(repository, false).value;
    KeysCons(release.fields);
  }

  /** `PublishOn` performs the steps of `Publish` on the file system. */
  method PublishOn(fs: FileSystem, dir: Path, name: string, release: Json, tag: Json) returns (err: Option<Error>)
    modifies fs
    ensures Ends(Publish(old(fs.State()), dir, name, release, tag), fs.State(), err)
  {
    var releasePath := PathJoin(dir, name);
    var text := ToJson(release);
    err := fs.CreateIfNotExists(releasePath);
    if err.Some? {
      return;
    }
    var tagName := Format(tag);
    if tagName.Err? {
      return Some(tagName.error);
    }
    err := fs.WriteJson(Str(text), PathJoin(releasePath, tagName.value + ".json"), false);
    if err.Some? {
      return;
    }
    err := fs.WriteJson(Str(text), PathJoin(releasePath, "latest.json"), true);
    if err.Some? {
      return;
    }
    var indexPath := PathJoin(dir, name + ".json");
    var index := Read(fs.State(), indexPath, Arr([]));
    if index.Err? {
      return Some(index.error);
    }
    var merged := MergeTag(index.value, tag);
    if merged.Err? {
      return Some(merged.error);
    }
    err := fs.WriteJson(merged.value, indexPath, true);
  }

  /** One iteration of the releases loop on the file system. */
  method ReleaseStepOn(fs: FileSystem, api: Api.GitHubApi, dir: Path, repository: Json) returns (err: Option<Error>)
    modifies fs
    ensures Ends(ReleaseStep(api, old(fs.State()), dir, repository), fs.State(), err)
  {
    var release := api.GetRelease(repository, false);
    if release.Err? {
      return Some(release.error);
    }
    err := PublishReleaseOn(fs, dir, repository, release.value);
  }

  /** `PublishRelease` on the file system. */
  method PublishReleaseOn(fs: FileSystem, dir: Path, repository: Json, release: Json) returns (err: Option<Error>)
    modifies fs
    ensures Ends(PublishRelease(old(fs.State()), dir, repository, release), fs.State(), err)
  {
    var name := RepositoryName(repository);
    if name.Err? {
      return Some(name.error);
    }
    var tag := GetItem(release, "tag");
    if tag.Err? {
      return Some(tag.error);
    }
    err := PublishOn(fs, dir, name.value, release, tag.value);
  }

  /** `ReleasesGenerator.generate`: the loop over the repositories. */
  method ReleasesOn(fs: FileSystem, api: Api.GitHubApi, config: Json, path: Json, folder: string) returns (err: Option<Error>)
    modifies fs
    ensures Ends(Releases(api, old(fs.State()), config, path, folder), fs.State(), err)
  {
    var dir := JoinAt(path, folder);
    if dir.Err? {
      return Some(dir.error);
    }
    var repositories := GetItem(config, "repositories");
    if repositories.Err? {
      return Some(repositories.error);
    }
    var list := Iterate(repositories.value);
    if list.Err? {
      return Some(list.error);
    }
    var i := 0;
    while i < |list.value|
      invariant 0 <= i <= |list.value|
      invariant Releases(api, old(fs.State()), config, path, folder)
             == ReleasesInto(api, fs.State(), dir.value, list.value[i..])
    {
      assert list.value[i..][1..] == list.value[i + 1..];
      err := ReleaseStepOn(fs, api, dir.value, list.value[i]);
      if err.Some? {
        return;
      }
      i := i + 1;
    }
    return None;
  }

  /* ---------------------------------------------------------------------- */
  /* `await` on a synchronous client                                         */

  /**
   * `await x` where `x` is the dict or list a synchronous `GitHubApi` method
   * returned: neither is awaitable, so Python raises `TypeError`.
   */
  function AwaitPlain(x: Json): Result<Json, Error>
  {
    Err(TypeError)
  }

  /** Lines 52-75 as written: the fetched release is awaited before use. */
  function ReleaseStepAsWritten(api: Api.GitHubApi, d: Disk, dir: Path, repository: Json): Result<Disk, Failure>
  {
    var fetched :- At(api.GetRelease(repository, false), d);
    match AwaitPlain(fetched)
    case Ok(release) => PublishRelease(d, dir, repository, release)
    case Err(e) => Err(Failure(e, d))
  }

  /** Lines 97-102 as written: the fetched contributors are awaited before use. */
  function ContributorStepAsWritten(api: Api.GitHubApi, d: Disk, dir: Path, repository: Json): Result<Disk, Failure>
  {
    var name :- At(RepositoryName(repository), d);
    var fetched :- At(Api.Contributors(api.upstream, repository), d);
    match AwaitPlain(Arr(fetched))
    case Ok(contributors) => At(Write(d, contributors, PathJoin(dir, name + ".json"), true), d)
    case Err(e) => Err(Failure(e, d))
  }

  /** Lines 135-141 as written: the fetched members are awaited before use. */
  function TeamAsWritten(api: Api.GitHubApi, d: Disk, config: Json, path: Json): Result<Disk, Failure>
  {
    var organization :- At(GetItem(config, "organization"), d);
    var fetched :- At(api.GetMembers(organization), d);
    match AwaitPlain(Arr(fetched))
    case Ok(team) => WriteAt(d, team, path, "team.json")
    case Err(e) => Err(Failure(e, d))
  }

  /**
   * As written, every request that succeeds ends its generator with
   * `TypeError` before anything is written: no release, contributor or team
   * file is ever produced.
   */
  lemma AwaitedCallsRaise(api: Api.GitHubApi, d: Disk, dir: Path, repository: Json, config: Json, path: Json)
    ensures api.GetRelease(repository, false).Ok? ==>
      ReleaseStepAsWritten(api, d, dir, repository) == Err(Failure(TypeError, d))
    ensures repository.Str? && Api.Contributors(api.upstream, repository).Ok? ==>
      ContributorStepAsWritten(api, d, dir, repository) == Err(Failure(TypeError, d))
    ensures GetItem(config, "organization").Ok? && api.GetMembers(GetItem(config, "organization").value).Ok? ==>
      TeamAsWritten(api, d, config, path) == Err(Failure(TypeError, d))
  {
  }

  /**
   * With the value used as returned, a release step that fetches its release
   * writes it: the tag comes from upstream and `latest.json` holds the release.
   */
  lemma ReleaseStepPublishes(api: Api.GitHubApi, d: Disk, dir: Path, repository: Json, t: string)
    requires ReleaseStep(api, d, dir, repository).Ok?
    requires var name := GetRepositoryName(repository.s); name != ""
    requires Format(GetItem(api.GetRelease(repository, false).value, "tag").value) == Ok(t)
    requires t != "latest" && '/' !in t
    ensures var release := api.GetRelease(repository, false).value;
      var r := PathJoin(dir, GetRepositoryName(repository.s));
      var d' := ReleaseStep(api, d, dir, repository).value;
      && GetItem(release, "tag") == GetItem(Api.Fetch(api.upstream.latest, repository).value, "tag_name")
      && r + "/latest.json" in d'.files
      && Serial.Loads(d'.files[r + "/latest.json"]) == Some(release)
  {
    var release := api.GetRelease(repository, false).value;
    LatestReleaseTag(api, repository);
    var name := GetRepositoryName(repository.s);
    PublishEffect(d, dir, name, release, GetItem(release, "tag").value, t);
    Serial.LoadsDumps(release);
  }

  /* ---------------------------------------------------------------------- */
  /* Files written in one go                                                 */

  /** `write_json(v, join(path, file))`. */
  function WriteAt(d: Disk, v: Json, path: Json, file: string): Result<Disk, Failure>
  {
    var to :- At(JoinAt(path, file), d);
    At(Write(d, v, to, true), d)
  }

  /** The file then holds `v`, reads back as `v` when `v` is not a string, and nothing else changes. */
  lemma WriteAtEffect(d: Disk, v: Json, path: Json, file: string)
    requires WriteAt(d, v, path, file).Ok?
    ensures path.Str?
    ensures var to, d' := PathJoin(path.s, file), WriteAt(d, v, path, file).value;
      && to in d'.files && d'.files[to] == ToJson(v)
      && (!v.Str? ==> Read(d', to, Null) == Ok(v))
      && d'.dirs == d.dirs
      && forall f :: f in d.files && f != to ==> f in d'.files && d'.files[f] == d.files[f]
  {
    var to := PathJoin(path.s, file);
    if !v.Str? {
      WriteThenRead(d, v, to, Null);
    }
  }

  /** `WriteAt` on the file system. */
  method WriteAtOn(fs: FileSystem, v: Json, path: Json, file: string) returns (err: Option<Error>)
    modifies fs
    ensures Ends(WriteAt(old(fs.State()), v, path, file), fs.State(), err)
  {
    var to := JoinAt(path, file);
    if to.Err? {
      return Some(to.error);
    }
    err := fs.WriteJson(v, to.value, true);
  }

  /* ---------------------------------------------------------------------- */
  /* Contributors                                                            */

  /** `<dir>/<repository name>.json`. */
  function ContributorsPath(dir: Path, repository: string): Path
  {
    PathJoin(dir, GetRepositoryName(repository) + ".json")
  }

  /** What `get_contributor` returns for each repository. */
  function ContributorsOf(api: Api.GitHubApi): Json -> Result<seq<Json>, Error>
  {
    repository => Api.Contributors(api.upstream, repository)
  }

  /** One repository of the contributors generator: name, fetch, write. */
  function ContributorStep(fetch: Json -> Result<seq<Json>, Error>, d: Disk, dir: Path, repository: Json): Result<Disk, Failure>
  {
    var name :- At(RepositoryName(repository), d);
    var contributors :- At(fetch(repository), d);
    At(Write(d, Arr(contributors), PathJoin(dir, name + ".json"), true), d)
  }

  /** The repositories in order; the first exception ends the run. */
  function ContributorsInto(fetch: Json -> Result<seq<Json>, Error>, d: Disk, dir: Path, repositories: seq<Json>): Result<Disk, Failure>
    decreases |repositories|
  {
    if repositories == [] then Ok(d)
    else
      var d1 :- ContributorStep(fetch, d, dir, repositories[0]);
      ContributorsInto(fetch, d1, dir, repositories[1..])
  }

  /** `ContributorsGenerator.generate(config, path)`, writing under `<path>/<folder>`. */
  function Contributors(api: Api.GitHubApi, d: Disk, config: Json, path: Json, folder: string): Result<Disk, Failure>
  {
    var dir :- At(JoinAt(path, folder), d);
    var d1 :- At(MakeDirs(d, dir), d);
    var repositories :- At(GetItem(config, "repositories"), d1);
    var list :- At(Iterate(repositories), d1);
    ContributorsInto(ContributorsOf(api), d1, dir, list)
  }

  /** A step writes exactly its repository's file. */
  lemma ContributorStepEffect(fetch: Json -> Result<seq<Json>, Error>, d: Disk, dir: Path, repository: Json)
    requires ContributorStep(fetch, d, dir, repository).Ok?
    ensures repository.Str? && fetch(repository).Ok?
    ensures ContributorStep(fetch, d, dir, repository).value.files
         == d.files[ContributorsPath(dir, repository.s) := ToJson(Arr(fetch(repository).value))]
  {
  }

  /** A file no repository of the run writes keeps its text. */
  lemma {:induction false} ContributorsKeep(fetch: Json -> Result<seq<Json>, Error>, d: Disk, dir: Path, repositories: seq<Json>, p: Path)
    requires ContributorsInto(fetch, d, dir, repositories).Ok?
    requires forall j :: 0 <= j < |repositories| && repositories[j].Str? ==>
               ContributorsPath(dir, repositories[j].s) != p
    ensures var d' := ContributorsInto(fetch, d, dir, repositories).value;
      p in d.files ==> p in d'.files && d'.files[p] == d.files[p]
    decreases |repositories|
  {
    if repositories != [] {
      var d1 := ContributorStep(fetch, d, dir, repositories[0]).value;
      ContributorStepEffect(fetch, d, dir, repositories[0]);
      assert ContributorsPath(dir, repositories[0].s) != p;
      assert forall j :: 0 <= j < |repositories| - 1 ==> repositories[1..][j] == repositories[j + 1];
      ContributorsKeep(fetch, d1, dir, repositories[1..], p);
    }
  }

  /**
   * Each repository's file holds its sorted contributors, unless a later
   * repository of the same name overwrote it.
   */
  lemma {:induction false} ContributorsWritten(fetch: Json -> Result<seq<Json>, Error>, d: Disk, dir: Path, repositories: seq<Json>, i: nat)
    requires ContributorsInto(fetch, d, dir, repositories).Ok?
    requires i < |repositories| && repositories[i].Str?
    requires forall j :: i < j < |repositories| && repositories[j].Str? ==>
               ContributorsPath(dir, repositories[j].s) != ContributorsPath(dir, repositories[i].s)
    ensures var d', p := ContributorsInto(fetch, d, dir, repositories).value, ContributorsPath(dir, repositories[i].s);
      && fetch(repositories[i]).Ok?
      && p in d'.files
      && d'.files[p] == ToJson(Arr(fetch(repositories[i]).value))
    decreases |repositories|
  {
    var d1 := ContributorStep(fetch, d, dir, repositories[0]).value;
    ContributorStepEffect(fetch, d, dir, repositories[0]);
    assert forall j :: 0 <= j < |repositories| - 1 ==> repositories[1..][j] == repositories[j + 1];
    if i == 0 {
      ContributorsKeep(fetch, d1, dir, repositories[1..], ContributorsPath(dir, repositories[0].s));
    } else {
      ContributorsWritten(fetch, d1, dir, repositories[1..], i - 1);
    }
  }

  /** One iteration of the contributors loop on the file system. */
  method ContributorStepOn(fs: FileSystem, api: Api.GitHubApi, dir: Path, repository: Json) returns (err: Option<Error>)
    modifies fs
    ensures Ends(ContributorStep(ContributorsOf(api), old(fs.State()), dir, repository), fs.State(), err)
  {
    var name := RepositoryName(repository);
    if name.Err? {
      return Some(name.error);
    }
    var contributors := api.GetContributor(repository);
    if contributors.Err? {
      return Some(contributors.error);
    }
    err := fs.WriteJson(Arr(contributors.value), PathJoin(dir, name.value + ".json"), true);
  }

  /** `ContributorsGenerator.generate`: make the folder, then the loop over the repositories. */
  method ContributorsOn(fs: FileSystem, api: Api.GitHubApi, config: Json, path: Json, folder: string) returns (err: Option<Error>)
    modifies fs
    ensures Ends(Contributors(api, old(fs.State()), config, path, folder), fs.State(), err)
  {
    var dir := JoinAt(path, folder);
    if dir.Err? {
      return Some(dir.error);
    }
    err := fs.CreateIfNotExists(dir.value);
    if err.Some? {
      return;
    }
    var repositories := GetItem(config, "repositories");
    if repositories.Err? {
      return Some(repositories.error);
    }
    var list := Iterate(repositories.value);
    if list.Err? {
      return Some(list.error);
    }
    var i := 0;
    while i < |list.value|
      invariant 0 <= i <= |list.value|
      invariant Contributors(api, old(fs.State()), config, path, folder)
             == ContributorsInto(ContributorsOf(api), fs.State(), dir.value, list.value[i..])
    {
      assert list.value[i..][1..] == list.value[i + 1..];
      err := ContributorStepOn(fs, api, dir.value, list.value[i]);
      if err.Some? {
        return;
      }
      i := i + 1;
    }
    return None;
  }

  /* ---------------------------------------------------------------------- */
  /* Connections, team, donations                                            */

  /** `ConnectionsGenerator.generate`: `config["connections"]` into `connections.json`. */
  function Connections(d: Disk, config: Json, path: Json): Result<Disk, Failure>
  {
    var connections :- At(GetItem(config, "connections"), d);
    WriteAt(d, connections, path, "connections.json")
  }

  /** `TeamGenerator.generate`: the organisation's members into `team.json`. */
  function Team(api: Api.GitHubApi, d: Disk, config: Json, path: Json): Result<Disk, Failure>
  {
    var organization :- At(GetItem(config, "organization"), d);
    var team :- At(api.GetMembers(organization), d);
    WriteAt(d, Arr(team), path, "team.json")
  }

  /** `config[k] if k in config else []`. */
  function ValueOr(config: Json, k: string): (r: Result<Json, Error>)
    ensures config.Obj? ==> r == Ok(match Lookup(config.fields, k) case Some(v) => v case None => Arr([]))
    ensures config.Arr? ==> r == if Str(k) in config.items then Err(TypeError) else Ok(Arr([]))
  {
    var present :- Contains(config, Str(k));
    if present then GetItem(config, k) else Ok(Arr([]))
  }

  /** `DonationsGenerator.generate`: the links and wallets, each `[]` when absent, into `donations.json`. */
  function Donations(d: Disk, config: Json, path: Json): Result<Disk, Failure>
  {
    var links :- At(ValueOr(config, "links"), d);
    var wallets :- At(ValueOr(config, "wallets"), d);
    WriteAt(d, Obj([Field("links", links), Field("wallets", wallets)]), path, "donations.json")
  }

  /**
   * For a dict config, `donations.json` reads back as a record of exactly
   * `links` and `wallets`, each the configured value or `[]`.
   */
  lemma DonationsRecord(d: Disk, config: Json, path: Json)
    requires config.Obj? && Donations(d, config, path).Ok?
    ensures var d', to := Donations(d, config, path).value, PathJoin(path.s, "donations.json");
      var record := Read(d', to, Null);
      && record.Ok?
      && Keys(record.value.fields) == ["links", "wallets"]
      && GetItem(record.value, "links") == Ok(if "links" in Keys(config.fields) then Lookup(config.fields, "links").value else Arr([]))
      && GetItem(record.value, "wallets") == Ok(if "wallets" in Keys(config.fields) then Lookup(config.fields, "wallets").value else Arr([]))
  {
    var links, wallets := ValueOr(config, "links").value, ValueOr(config, "wallets").value;
    var record := Obj([Field("links", links), Field("wallets", wallets)]);
    WriteAtEffect(d, record, path, "donations.json");
    KeysCons(record.fields);
    KeysCons(record.fields[1..]);
  }

  /** `Connections` on the file system. */
  method ConnectionsOn(fs: FileSystem, config: Json, path: Json) returns (err: Option<Error>)
    modifies fs
    ensures Ends(Connections(old(fs.State()), config, path), fs.State(), err)
  {
    var connections := GetItem(config, "connections");
    if connections.Err? {
      return Some(connections.error);
    }
    err := WriteAtOn(fs, connections.value, path, "connections.json");
  }

  /** `Team` on the file system. */
  method TeamOn(fs: FileSystem, api: Api.GitHubApi, config: Json, path: Json) returns (err: Option<Error>)
    modifies fs
    ensures Ends(Team(api, old(fs.State()), config, path), fs.State(), err)
  {
    var organization := GetItem(config, "organization");
    if organization.Err? {
      return Some(organization.error);
    }
    var team := api.GetMembers(organization.value);
    if team.Err? {
      return Some(team.error);
    }
    err := WriteAtOn(fs, Arr(team.value), path, "team.json");
  }

  /** `Donations` on the file system. */
  method DonationsOn(fs: FileSystem, config: Json, path: Json) returns (err: Option<Error>)
    modifies fs
    ensures Ends(Donations(old(fs.State()), config, path), fs.State(), err)
  {
    var links := ValueOr(config, "links");
    if links.Err? {
      return Some(links.error);
    }
    var wallets := ValueOr(config, "wallets");
    if wallets.Err? {
      return Some(wallets.error);
    }
    err := WriteAtOn(fs, Obj([Field("links", links.value), Field("wallets", wallets.value)]), path, "donations.json");
  }

  /* ---------------------------------------------------------------------- */
  /* Announcements                                                           */

  /** What lines 182-201 leave: the disk, the numbered announcement, its channel, the output root. */
  datatype Indexed = Indexed(disk: Disk, numbered: Json, channel: string, root: Path)

  /**
   * Lines 182-197 and the channel name of line 201: number the announcement
   * past every stored id and append it to `announcements.json`.
   */
  function AnnounceIndex(d: Disk, config: Json, path: Json): Result<Indexed, Failure>
  {
    var announcement :- At(GetItem(config, "announcement"), d);
    var channel :- At(GetItem(announcement, "channel"), d);
    var root :- At(AsString(path), d);
    var indexPath := PathJoin(root, "announcements.json");
    var stored :- At(Read(d, indexPath, Arr([])), d);
    var announcements :- At(Iterate(stored), d);
    var id :- At(NewId(announcements), d);
    var numbered :- At(SetItem(announcement, "id", Num(id)), d);
    var appended :- At(Append(stored, numbered), d);
    var d1 :- At(Write(d, appended, indexPath, true), d);
    var name :- At(Format(channel), d1);
    Ok(Indexed(d1, numbered, name, root))
  }

  /** Lines 203-212: append to the channel's list, then write both `latest.json` files. */
  function AnnounceChannel(d: Disk, root: Path, channel: string, stored: Json, numbered: Json): Result<Disk, Failure>
  {
    var appended :- At(Append(stored, numbered), d);
    var d1 :- At(Write(d, appended, PathJoin(root, "announcements/" + channel + ".json"), true), d);
    var d2 :- At(Write(d1, numbered, PathJoin(root, "announcements/latest.json"), true), d1);
    At(Write(d2, numbered, PathJoin(root, "announcements/" + channel + "/latest.json"), true), d2)
  }

  /**
   * `AnnouncementGenerator.generate` as written: line 202 makes a directory
   * at the channel's list file itself, which line 203 then opens.
   */
  function AnnounceAsWritten(d: Disk, config: Json, path: Json): Result<Disk, Failure>
  {
    var x :- AnnounceIndex(d, config, path);
    var channelPath := PathJoin(x.root, "announcements/" + x.channel + ".json");
    var d2 :- At(MakeDirs(x.disk, channelPath), x.disk);
    match Read(d2, channelPath, Arr([]))
    case Ok(stored) => AnnounceChannel(d2, x.root, x.channel, stored, x.numbered)
    case Err(e) => Err(Failure(e, d2))
  }

  /**
   * As written the generator never completes: once the directory is made,
   * reading the channel's list raises `IsADirectoryError`.
   */
  lemma AnnounceAsWrittenFails(d: Disk, config: Json, path: Json)
    ensures AnnounceAsWritten(d, config, path).Err?
    ensures AnnounceIndex(d, config, path).Ok? ==>
      var x := AnnounceIndex(d, config, path).value;
      var channelPath := PathJoin(x.root, "announcements/" + x.channel + ".json");
      MakeDirs(x.disk, channelPath).Ok? ==>
        AnnounceAsWritten(d, config, path).error.error == IsADirectoryError(channelPath)
  {
  }

  /**
   * The generator with the directory that line 212 writes into made instead:
   * `announcements/<channel>`, which also makes `announcements`.
   */
  function Announce(d: Disk, config: Json, path: Json): Result<Disk, Failure>
  {
    var x :- AnnounceIndex(d, config, path);
    var d2 :- At(MakeDirs(x.disk, PathJoin(x.root, "announcements/" + x.channel)), x.disk);
    var stored :- At(Read(d2, PathJoin(x.root, "announcements/" + x.channel + ".json"), Arr([])), d2);
    AnnounceChannel(d2, x.root, x.channel, stored, x.numbered)
  }

  /**
   * The first half of the generator appends the announcement to
   * `announcements.json`, numbered past every stored id and otherwise as
   * configured, and changes nothing else.
   */
  lemma AnnounceIndexEffect(d: Disk, config: Json, path: Json)
    requires AnnounceIndex(d, config, path).Ok?
    ensures path.Str? && GetItem(config, "announcement").Ok?
    ensures var x, indexPath := AnnounceIndex(d, config, path).value, PathJoin(path.s, "announcements.json");
      var announcement := GetItem(config, "announcement").value;
      var stored := Read(d, indexPath, Arr([]));
      && x.root == path.s
      && stored.Ok? && stored.value.Arr?
      && NewId(stored.value.items).Ok?
      && x.numbered == Obj(Put(announcement.fields, "id", Num(NewId(stored.value.items).value)))
      && IdOf(x.numbered) == NewId(stored.value.items)
      && (forall i :: 0 <= i < |stored.value.items| ==>
            IdOf(stored.value.items[i]).Ok? && IdOf(stored.value.items[i]).value < IdOf(x.numbered).value)
      && Format(GetItem(announcement, "channel").value) == Ok(x.channel)
      && Write(d, Arr(stored.value.items + [x.numbered]), indexPath, true) == Ok(x.disk)
      && x.disk == Disk(d.files[indexPath := ToJson(Arr(stored.value.items + [x.numbered]))], d.dirs)
  {
    var x := AnnounceIndex(d, config, path).value;
    assert GetItem(config, "announcement").Ok? && path.Str?;
    var announcement := GetItem(config, "announcement").value;
    var indexPath := PathJoin(path.s, "announcements.json");
    var stored := Read(d, indexPath, Arr([])).value;
    var id := NewId(Iterate(stored).value).value;
    var numbered := Obj(Put(announcement.fields, "id", Num(id)));
    assert stored.Arr? && NewId(stored.items).Ok? && x.numbered == numbered by {
      assert Read(d, indexPath, Arr([])).Ok?;
      assert Iterate(stored).Ok? && NewId(Iterate(stored).value).Ok?;
      assert SetItem(announcement, "id", Num(id)) == Ok(numbered);
      assert Append(stored, numbered).Ok?;
    }
    NewIdFresh(stored.items);
    NumberedId(announcement.fields, id);
  }

  /** Every announcement file lies at `announcements` plus a suffix. */
  lemma AnnouncePaths(root: Path, t: string)
    ensures var r := PathJoin(root, "announcements");
      && PathJoin(root, "announcements.json") == r + ".json"
      && PathJoin(root, "announcements/" + t) == r + "/" + t
      && PathJoin(root, "announcements/" + t + ".json") == r + "/" + t + ".json"
      && PathJoin(root, "announcements/latest.json") == r + "/latest.json"
      && PathJoin(root, "announcements/" + t + "/latest.json") == r + "/" + t + "/latest.json"
  {
    var a := "announcements";
    assert "announcements.json" == a + ".json";
    AfterBase(root, a, ".json");
    assert "announcements/latest.json" == a + "/latest.json";
    AfterBase(root, a, "/latest.json");
    ChannelPath(root, t, "");
    assert "announcements/" + t + "" == "announcements/" + t;
    ChannelPath(root, t, ".json");
    ChannelPath(root, t, "/latest.json");
  }

  /** `announcements/<t><suffix>` lies at `announcements` plus `/<t><suffix>`. */
  lemma ChannelPath(root: Path, t: string, suffix: string)
    ensures PathJoin(root, "announcements/" + t + suffix) == PathJoin(root, "announcements") + "/" + t + suffix
  {
    var a := "announcements";
    assert "announcements/" + t + suffix == a + ("/" + t + suffix);
    AfterBase(root, a, "/" + t + suffix);
  }

  /** Joining a relative name that extends `a` extends the join of `a`. */
  lemma AfterBase(root: Path, a: string, suffix: string)
    requires a != [] && a[0] != '/'
    ensures PathJoin(root, a + suffix) == PathJoin(root, a) + suffix
  {
    assert (a + suffix)[0] == a[0];
  }

  /**
   * The second half on the disks it passes through: the channel's list
   * gains the announcement, both `latest.json` files hold it, and every
   * other file keeps its text.
   */
  lemma AnnounceChannelDisks(d1: Disk, d2: Disk, d5: Disk, root: Path, t: string, stored: Json, numbered: Json)
    requires t != "latest" && '/' !in t
    requires MakeDirs(d1, PathJoin(root, "announcements/" + t)) == Ok(d2)
    requires Read(d2, PathJoin(root, "announcements/" + t + ".json"), Arr([])) == Ok(stored)
    requires AnnounceChannel(d2, root, t, stored, numbered) == Ok(d5)
    ensures var r := PathJoin(root, "announcements");
      && Read(d1, r + "/" + t + ".json", Arr([])) == Ok(stored) && stored.Arr?
      && d5.files == d1.files[r + "/" + t + ".json" := ToJson(Arr(stored.items + [numbered]))]
                             [r + "/latest.json" := ToJson(numbered)]
                             [r + "/" + t + "/latest.json" := ToJson(numbered)]
  {
    var r := PathJoin(root, "announcements");
    AnnouncePaths(root, t);
    assert |r + "/" + t + ".json"| > |r + "/" + t|;
    ReadAfterMakeDirs(d1, r + "/" + t, r + "/" + t + ".json", Arr([]));
  }

  /**
   * A completed announcement (for a channel name that is neither `latest`
   * nor holds a `/`): `announcements.json` and the channel's list each gain
   * the numbered announcement at the end, both `latest.json` files hold it,
   * and no other file changes.
   */
  lemma AnnounceEffect(d: Disk, config: Json, path: Json)
    requires Announce(d, config, path).Ok?
    requires var x := AnnounceIndex(d, config, path).value; '/' !in x.channel && x.channel != "latest"
    ensures var x, d' := AnnounceIndex(d, config, path).value, Announce(d, config, path).value;
      var r := PathJoin(x.root, "announcements");
      var indexPath, channelPath := r + ".json", r + "/" + x.channel + ".json";
      var latestPath, channelLatestPath := r + "/latest.json", r + "/" + x.channel + "/latest.json";
      && Read(d, indexPath, Arr([])).Ok? && Read(d, indexPath, Arr([])).value.Arr?
      && Read(d, channelPath, Arr([])).Ok? && Read(d, channelPath, Arr([])).value.Arr?
      && d'.files == d.files[indexPath := ToJson(Arr(Read(d, indexPath, Arr([])).value.items + [x.numbered]))]
                            [channelPath := ToJson(Arr(Read(d, channelPath, Arr([])).value.items + [x.numbered]))]
                            [latestPath := ToJson(x.numbered)]
                            [channelLatestPath := ToJson(x.numbered)]
  {
    var x := AnnounceIndex(d, config, path).value;
    AnnounceIndexEffect(d, config, path);
    AnnouncePaths(x.root, x.channel);
    var r := PathJoin(x.root, "announcements");
    ReleasePathsApart(r, x.channel);
    var indexPath, channelPath := r + ".json", r + "/" + x.channel + ".json";
    var olds := Read(d, indexPath, Arr([])).value.items;
    ReadAfterWrite(d, Arr(olds + [x.numbered]), indexPath, true, channelPath, Arr([]));
    var d2 := MakeDirs(x.disk, PathJoin(x.root, "announcements/" + x.channel)).value;
    var stored := Read(d2, PathJoin(x.root, "announcements/" + x.channel + ".json"), Arr([])).value;
    AnnounceChannelDisks(x.disk, d2, Announce(d, config, path).value, x.root, x.channel, stored, x.numbered);
  }

  /** The corrected announcements generator on the file system. */
  method AnnounceOn(fs: FileSystem, config: Json, path: Json) returns (err: Option<Error>)
    modifies fs
    ensures Ends(Announce(old(fs.State()), config, path), fs.State(), err)
  {
    var announcement := GetItem(config, "announcement");
    if announcement.Err? {
      return Some(announcement.error);
    }
    var channel := GetItem(announcement.value, "channel");
    if channel.Err? {
      return Some(channel.error);
    }
    var root := AsString(path);
    if root.Err? {
      return Some(root.error);
    }
    var indexPath := PathJoin(root.value, "announcements.json");
    var stored := Read(fs.State(), indexPath, Arr([]));
    if stored.Err? {
      return Some(stored.error);
    }
    var announcements := Iterate(stored.value);
    if announcements.Err? {
      return Some(announcements.error);
    }
    var id := AllocateId(announcements.value);
    if id.Err? {
      return Some(id.error);
    }
    // A value with a "channel" is a dict, so the assignment succeeds.
    var numbered := SetItem(announcement.value, "id", Num(id.value));
    assert numbered.Ok?;
    var appended := Append(stored.value, numbered.value);
    if appended.Err? {
      return Some(appended.error);
    }
    err := fs.WriteJson(appended.value, indexPath, true);
    if err.Some? {
      return;
    }
    var name := Format(channel.value);
    if name.Err? {
      return Some(name.error);
    }
    err := AnnounceChannelOn(fs, root.value, name.value, numbered.value);
  }

  /** Lines 202-212 with the corrected directory, on the file system. */
  method AnnounceChannelOn(fs: FileSystem, root: Path, channel: string, numbered: Json) returns (err: Option<Error>)
    modifies fs
    ensures var d := old(fs.State());
      match MakeDirs(d, PathJoin(root, "announcements/" + channel))
      case Err(e) => err == Some(e) && fs.State() == d
      case Ok(d2) =>
        match Read(d2, PathJoin(root, "announcements/" + channel + ".json"), Arr([]))
        case Err(e) => err == Some(e) && fs.State() == d2
        case Ok(stored) => Ends(AnnounceChannel(d2, root, channel, stored, numbered), fs.State(), err)
  {
    err := fs.CreateIfNotExists(PathJoin(root, "announcements/" + channel));
    if err.Some? {
      return;
    }
    var channelPath := PathJoin(root, "announcements/" + channel + ".json");
    var stored := Read(fs.State(), channelPath, Arr([]));
    if stored.Err? {
      return Some(stored.error);
    }
    var appended := Append(stored.value, numbered);
    if appended.Err? {
      return Some(appended.error);
    }
    err := fs.WriteJson(appended.value, channelPath, true);
    if err.Some? {
      return;
    }
    err := fs.WriteJson(numbered, PathJoin(root, "announcements/latest.json"), true);
    if err.Some? {
      return;
    }
    err := fs.WriteJson(numbered, PathJoin(root, "announcements/" + channel + "/latest.json"), true);
  }

  /* ---------------------------------------------------------------------- */
  /* The generators and their shared registry                                */

  /** The generator classes, each with the client it was given. */
  datatype Generator =
    | ReleasesGenerator(api: Api.GitHubApi)
    | ContributorsGenerator(api: Api.GitHubApi)
    | TeamGenerator(api: Api.GitHubApi)
    | ConnectionsGenerator
    | DonationsGenerator
    | AnnouncementGenerator
    | RemoveAnnouncementGenerator
  {
    /** The name each constructor passes to `Generator.__init__`. */
    function Name(): string
    {
      match this
      case ReleasesGenerator(_) => "releases"
      case ContributorsGenerator(_) => "contributors"
      case TeamGenerator(_) => "team"
      case ConnectionsGenerator => "connections"
      case DonationsGenerator => "donations"
      case AnnouncementGenerator => "announcements"
      case RemoveAnnouncementGenerator => "remove_announcement"
    }

    /** `generate(config, path)`; removing an announcement is a stub that does nothing. */
    function Run(d: Disk, config: Json, path: Json): Result<Disk, Failure>
    {
      match this
      case ReleasesGenerator(api) => Releases(api, d, config, path, "releases")
      case ContributorsGenerator(api) => Contributors(api, d, config, path, "contributors")
      case TeamGenerator(api) => Team(api, d, config, path)
      case ConnectionsGenerator => Connections(d, config, path)
      case DonationsGenerator => Donations(d, config, path)
      case AnnouncementGenerator => Announce(d, config, path)
      case RemoveAnnouncementGenerator => Ok(d)
    }
  }

  /** `generator.generate(config, path)` on the file system. */
  method GenerateOn(g: Generator, fs: FileSystem, config: Json, path: Json) returns (err: Option<Error>)
    modifies fs
    ensures Ends(g.Run(old(fs.State()), config, path), fs.State(), err)
  {
    match g
    case ReleasesGenerator(api) => err := ReleasesOn(fs, api, config, path, "releases");
    case ContributorsGenerator(api) => err := ContributorsOn(fs, api, config, path, "contributors");
    case TeamGenerator(api) => err := TeamOn(fs, api, config, path);
    case ConnectionsGenerator => err := ConnectionsOn(fs, config, path);
    case DonationsGenerator => err := DonationsOn(fs, config, path);
    case AnnouncementGenerator => err := AnnounceOn(fs, config, path);
    case RemoveAnnouncementGenerator => err := None;
  }

  /** The class attribute `_generators`: one dict that every provider writes into. */
  class GeneratorTable {
    var entries: map<string, Generator>

    constructor ()
      ensures entries == map[]
    {
      entries := map[];
    }
  }

  /** `table` after `table[g.name] = g` for each generator in turn. */
  function Registered(table: map<string, Generator>, generators: seq<Generator>): map<string, Generator>
    decreases |generators|
  {
    if generators == [] then table
    else
      var last := generators[|generators| - 1];
      Registered(table, generators[..|generators| - 1])[last.Name() := last]
  }

  /**
   * A name ends up registered exactly when it was already there or some
   * generator carries it; the last generator that carries it wins, and a
   * name no generator carries keeps its earlier entry.
   */
  lemma RegisteredLookup(table: map<string, Generator>, generators: seq<Generator>, name: string)
    ensures name in Registered(table, generators)
        <==> name in table || exists i :: 0 <= i < |generators| && generators[i].Name() == name
    ensures (forall i :: 0 <= i < |generators| ==> generators[i].Name() != name) && name in table
        ==> Registered(table, generators)[name] == table[name]
    ensures forall i | 0 <= i < |generators| && generators[i].Name() == name ::
      (forall j :: i < j < |generators| ==> generators[j].Name() != name) ==>
        name in Registered(table, generators) && Registered(table, generators)[name] == generators[i]
  {
    RegisteredHas(table, generators, name);
    if (forall i :: 0 <= i < |generators| ==> generators[i].Name() != name) && name in table {
      RegisteredKeeps(table, generators, name);
    }
    forall i | 0 <= i < |generators| && generators[i].Name() == name &&
               (forall j :: i < j < |generators| ==> generators[j].Name() != name)
      ensures name in Registered(table, generators) && Registered(table, generators)[name] == generators[i]
    {
      RegisteredLast(table, generators, name, i);
    }
  }

  lemma {:induction false} RegisteredHas(table: map<string, Generator>, generators: seq<Generator>, name: string)
    decreases |generators|
    ensures name in Registered(table, generators)
        <==> name in table || exists i :: 0 <= i < |generators| && generators[i].Name() == name
  {
    if generators != [] {
      var n := |generators| - 1;
      var init := generators[..n];
      RegisteredHas(table, init, name);
      assert forall i :: 0 <= i < n ==> init[i] == generators[i];
    }
  }

  lemma {:induction false} RegisteredKeeps(table: map<string, Generator>, generators: seq<Generator>, name: string)
    decreases |generators|
    requires forall i :: 0 <= i < |generators| ==> generators[i].Name() != name
    requires name in table
    ensures name in Registered(table, generators) && Registered(table, generators)[name] == table[name]
  {
    if generators != [] {
      var n := |generators| - 1;
      var init := generators[..n];
      assert forall i :: 0 <= i < n ==> init[i] == generators[i];
      assert generators[n].Name() != name;
      RegisteredKeeps(table, init, name);
    }
  }

  lemma {:induction false} RegisteredLast(table: map<string, Generator>, generators: seq<Generator>, name: string, i: nat)
    decreases |generators|
    requires i < |generators| && generators[i].Name() == name
    requires forall j :: i < j < |generators| ==> generators[j].Name() != name
    ensures name in Registered(table, generators) && Registered(table, generators)[name] == generators[i]
  {
    var n := |generators| - 1;
    var init := generators[..n];
    if i < n {
      assert forall j :: 0 <= j < n ==> init[j] == generators[j];
      assert generators[n].Name() != name;
      RegisteredLast(table, init, name, i);
    }
  }

  /** `GeneratorProvider`: registers its generators in the shared table and looks names up there. */
  class GeneratorProvider {
    const table: GeneratorTable

    constructor (table: GeneratorTable, generators: seq<Generator>)
      modifies table
      ensures this.table == table
      ensures table.entries == Registered(old(table.entries), generators)
    {
      this.table := table;
      new;
      for i := 0 to |generators|
        invariant table.entries == Registered(old(table.entries), generators[..i])
      {
        assert generators[..i + 1][..i] == generators[..i];
        table.entries := table.entries[generators[i].Name() := generators[i]];
      }
      assert generators[..|generators|] == generators;
    }

    /** `get(name)`: the registered generator, or `None`. */
    function Get(name: string): (r: Option<Generator>)
      reads this, table
      ensures r.Some? <==> name in table.entries
      ensures r.Some? ==> r.value == table.entries[name]
    {
      if name in table.entries then Some(table.entries[name]) else None
    }
  }

  /** The generators `DefaultGeneratorProvider` registers, in order. */
  function DefaultGenerators(api: Api.GitHubApi): seq<Generator>
  {
    [ReleasesGenerator(api), ContributorsGenerator(api), TeamGenerator(api), ConnectionsGenerator, DonationsGenerator]
  }

  /** The generators `AnnouncementsGeneratorProvider` registers, in order. */
  function AnnouncementGenerators(): seq<Generator>
  {
    [AnnouncementGenerator, RemoveAnnouncementGenerator]
  }

  /** The table after both providers were made, in that order, with one injected client. */
  function BothRegistered(api: Api.GitHubApi): map<string, Generator>
  {
    Registered(Registered(map[], DefaultGenerators(api)), AnnouncementGenerators())
  }

  /**
   * Both providers share one table, so each of them finds all seven
   * generators; no name is taken twice, so each name finds its own.
   */
  lemma BothProvidersSeeAll(api: Api.GitHubApi)
    ensures BothRegistered(api).Keys
         == {"releases", "contributors", "team", "connections", "donations", "announcements", "remove_announcement"}
    ensures forall g :: g in DefaultGenerators(api) + AnnouncementGenerators()
                        ==> g.Name() in BothRegistered(api) && BothRegistered(api)[g.Name()] == g
    ensures "announcement" !in BothRegistered(api)
  {
    var r, c, t := ReleasesGenerator(api), ContributorsGenerator(api), TeamGenerator(api);
    assert [r][..0] == [];
    assert [r, c][..1] == [r];
    assert [r, c, t][..2] == [r, c];
    assert [r, c, t, ConnectionsGenerator][..3] == [r, c, t];
    assert DefaultGenerators(api)[..4] == [r, c, t, ConnectionsGenerator];
    assert Registered(map[], [r]) == map["releases" := r];
    assert Registered(map[], [r, c]) == map["releases" := r, "contributors" := c];
    assert Registered(map[], [r, c, t]) == map["releases" := r, "contributors" := c, "team" := t];
    assert Registered(map[], [r, c, t, ConnectionsGenerator])
        == map["releases" := r, "contributors" := c, "team" := t, "connections" := ConnectionsGenerator];
    var m := Registered(map[], DefaultGenerators(api));
    assert m == map["releases" := r, "contributors" := c, "team" := t,
                    "connections" := ConnectionsGenerator, "donations" := DonationsGenerator];
    assert AnnouncementGenerators()[..1] == [AnnouncementGenerator];
    assert [AnnouncementGenerator][..0] == [];
    assert BothRegistered(api) == m["announcements" := AnnouncementGenerator]["remove_announcement" := RemoveAnnouncementGenerator];
  }

  /** Makes the default provider and then the announcements provider. */
  method NewProviders(api: Api.GitHubApi) returns (default: GeneratorProvider, announcements: GeneratorProvider)
    ensures fresh(default) && fresh(announcements) && fresh(default.table)
    ensures default.table == announcements.table
    ensures default.table.entries == BothRegistered(api)
  {
    var table := new GeneratorTable();
    default := new GeneratorProvider(table, DefaultGenerators(api));
    announcements := new GeneratorProvider(table, AnnouncementGenerators());
  }
}
