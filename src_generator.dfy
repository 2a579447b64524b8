/**
 * The synchronous API generators of `src/app/generator.py` and the provider
 * that finds one by name. The release and contributor APIs run the same
 * steps as the releases and contributors generators, under `release` and
 * `contributor`.
 */
module SourceApis {
  import opened Wrappers
  import opened Json
  import opened Utils
  import Api
  import Generators

  /** The API classes, each holding the client it was built with. */
  datatype ApiGen =
    | ReleaseApi(client: Api.GitHubApi)
    | ContributorApi(client: Api.GitHubApi)
    | SocialApi(client: Api.GitHubApi)
    | TeamApi(client: Api.GitHubApi)
    | DonationApi(client: Api.GitHubApi)
  {
    /** The name each constructor passes to `Api.__init__`. */
    function Name(): string
    {
      match this
      case ReleaseApi(_) => "release"
      case ContributorApi(_) => "contributor"
      case SocialApi(_) => "social"
      case TeamApi(_) => "team"
      case DonationApi(_) => "donation"
    }

    /**
     * `generate(config, path)`. The release API writes `json.dumps(release)`
     * where the releases generator writes `to_json(release)`; for the record
     * the client returns the two texts agree (`LatestReleaseTag`).
     */
    function Run(d: Disk, config: Json, path: Json): Result<Disk, Failure>
    {
      match this
      case ReleaseApi(client) => Generators.Releases(client, d, config, path, "release")
      case ContributorApi(client) => Generators.Contributors(client, d, config, path, "contributor")
      case SocialApi(_) => Social(d, config, path)
      case TeamApi(client) => Generators.Team(client, d, config, path)
      case DonationApi(_) => Donation(d, config, path)
    }
  }

  /** `SocialApi.generate`: `config["socials"]` into `social.json`. */
  function Social(d: Disk, config: Json, path: Json): Result<Disk, Failure>
  {
    var socials :- At(GetItem(config, "socials"), d);
    Generators.WriteAt(d, socials, path, "social.json")
  }

  /** `DonationApi.generate`: `config["links"]` into `donation.json`; there is no default. */
  function Donation(d: Disk, config: Json, path: Json): Result<Disk, Failure>
  {
    var links :- At(GetItem(config, "links"), d);
    Generators.WriteAt(d, links, path, "donation.json")
  }

  /**
   * `donation.json` holds exactly the configured links, and a configuration
   * without `links` raises `KeyError` before anything is written.
   */
  lemma DonationVerbatim(d: Disk, config: Json, path: Json)
    ensures config.Obj? && "links" !in Keys(config.fields) ==> Donation(d, config, path) == Err(Failure(KeyError("links"), d))
    ensures Donation(d, config, path).Ok? ==>
      && GetItem(config, "links").Ok?
      && path.Str?
      && var links, to := GetItem(config, "links").value, PathJoin(path.s, "donation.json");
         Donation(d, config, path).value.files == d.files[to := ToJson(links)]
  {
    if Donation(d, config, path).Ok? {
      Generators.WriteAtEffect(d, GetItem(config, "links").value, path, "donation.json");
    }
  }

  /** `Social` on the file system. */
  method SocialOn(fs: FileSystem, config: Json, path: Json) returns (err: Option<Error>)
    modifies fs
    ensures Ends(Social(old(fs.State()), config, path), fs.State(), err)
  {
    var socials := GetItem(config, "socials");
    if socials.Err? {
      return Some(socials.error);
    }
    err := Generators.WriteAtOn(fs, socials.value, path, "social.json");
  }

  /** `Donation` on the file system. */
  method DonationOn(fs: FileSystem, config: Json, path: Json) returns (err: Option<Error>)
    modifies fs
    ensures Ends(Donation(old(fs.State()), config, path), fs.State(), err)
  {
    var links := GetItem(config, "links");
    if links.Err? {
      return Some(links.error);
    }
    err := Generators.WriteAtOn(fs, links.value, path, "donation.json");
  }

  /** `api.generate(config, path)` on the file system. */
  method GenerateOn(api: ApiGen, fs: FileSystem, config: Json, path: Json) returns (err: Option<Error>)
    modifies fs
    ensures Ends(api.Run(old(fs.State()), config, path), fs.State(), err)
  {
    match api
    case ReleaseApi(client) => err := Generators.ReleasesOn(fs, client, config, path, "release");
    case ContributorApi(client) => err := Generators.ContributorsOn(fs, client, config, path, "contributor");
    case SocialApi(_) => err := SocialOn(fs, config, path);
    case TeamApi(client) => err := Generators.TeamOn(fs, client, config, path);
    case DonationApi(_) => err := DonationOn(fs, config, path);
  }

  /**
   * `get(name)`: the first API whose name equals `name`; a name that is not
   * a string equals no API's name.
   */
  function FindApi(apis: seq<ApiGen>, name: Json): (r: Option<ApiGen>)
    decreases |apis|
    ensures r.None? <==> forall i :: 0 <= i < |apis| ==> Str(apis[i].Name()) != name
    ensures r.Some? ==> exists i :: 0 <= i < |apis| && apis[i] == r.value && Str(apis[i].Name()) == name
                                    && forall j :: 0 <= j < i ==> Str(apis[j].Name()) != name
  {
    if apis == [] then None
    else if Str(apis[0].Name()) == name then Some(apis[0])
    else
      var r := FindApi(apis[1..], name);
      assert forall i :: 1 <= i < |apis| ==> apis[1..][i - 1] == apis[i];
      if r.Some? then
        ghost var k :| 0 <= k < |apis[1..]| && apis[1..][k] == r.value && Str(apis[1..][k].Name()) == name
                       && forall j :: 0 <= j < k ==> Str(apis[1..][j].Name()) != name;
        assert apis[k + 1] == r.value;
        r
      else r
  }

  /** `ApiProvider`: the APIs in the order given. */
  datatype ApiProvider = ApiProvider(apis: seq<ApiGen>)
  {
    function Get(name: Json): Option<ApiGen>
    {
      FindApi(apis, name)
    }
  }

  /** `DefaultApiProvider()`: the five APIs, all built on the one client. */
  function DefaultApiProvider(client: Api.GitHubApi): ApiProvider
  {
    ApiProvider([ReleaseApi(client), ContributorApi(client), SocialApi(client), TeamApi(client), DonationApi(client)])
  }

  /**
   * The default provider finds exactly `release`, `contributor`, `social`,
   * `team` and `donation`, each its own API, all sharing one client.
   */
  lemma DefaultApiNames(client: Api.GitHubApi, name: Json)
    ensures var p := DefaultApiProvider(client);
      && (p.Get(name).Some? <==> name in {Str("release"), Str("contributor"), Str("social"), Str("team"), Str("donation")})
      && (p.Get(name).Some? ==> Str(p.Get(name).value.Name()) == name && p.Get(name).value.client == client)
      && (forall i :: 0 <= i < |p.apis| ==> p.apis[i].client == client)
  {
    var p := DefaultApiProvider(client);
    assert p.apis[0].Name() == "release" && p.apis[1].Name() == "contributor" && p.apis[2].Name() == "social";
    assert p.apis[3].Name() == "team" && p.apis[4].Name() == "donation";
  }
}
