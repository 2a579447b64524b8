/**
 * The GitHub client of `app/api.py`: the record transforms, the release,
 * contributor and member queries, and the stable descending sort of
 * contributors by their contribution count. What GitHub answers is an input:
 * an `Upstream` holds the decoded body each endpoint returns for the value
 * formatted into its URL.
 */
module Api {
  import opened Wrappers
  import opened Json

  /** The decoded responses of the endpoints the client calls. */
  datatype Upstream = Upstream(
    latest: map<Json, Json>,        // /repos/{repository}/releases/latest
    releases: map<Json, Json>,      // /repos/{repository}/releases
    contributors: map<Json, Json>,  // /repos/{repository}/contributors
    members: map<Json, Json>)       // /orgs/{organization}/members

  /** `requests.get(url).json()`; an unreachable endpoint or undecodable body raises. */
  function Fetch(endpoint: map<Json, Json>, key: Json): (r: Result<Json, Error>)
    ensures r.Ok? <==> key in endpoint
    ensures r.Ok? ==> r.value == endpoint[key]
  {
    if key in endpoint then Ok(endpoint[key]) else Err(UpstreamError)
  }

  /** `{"name": asset["name"], "download_url": asset["browser_download_url"]}`. */
  function TransformAsset(asset: Json): (r: Result<Json, Error>)
    ensures r.Ok? <==> asset.Obj? && "name" in Keys(asset.fields) && "browser_download_url" in Keys(asset.fields)
    ensures r.Ok? ==> r.value == Obj([Field("name", GetItem(asset, "name").value),
                                      Field("download_url", GetItem(asset, "browser_download_url").value)])
  {
    var name :- GetItem(asset, "name");
    var url :- GetItem(asset, "browser_download_url");
    Ok(Obj([Field("name", name), Field("download_url", url)]))
  }

  /**
   * `transform_release`: the tag, the prerelease flag, the publication date and
   * the assets, transformed one by one in order; the first missing field raises.
   */
  function TransformRelease(release: Json): (r: Result<Json, Error>)
    ensures !release.Obj? ==> r == Err(TypeError)
    ensures release.Obj? && "tag_name" !in Keys(release.fields) ==> r == Err(KeyError("tag_name"))
    ensures r.Ok? <==>
      && release.Obj? && "tag_name" in Keys(release.fields) && "prerelease" in Keys(release.fields)
      && "published_at" in Keys(release.fields) && "assets" in Keys(release.fields)
      && Iterate(GetItem(release, "assets").value).Ok?
      && var input := Iterate(GetItem(release, "assets").value).value;
         forall i :: 0 <= i < |input| ==> TransformAsset(input[i]).Ok?
    ensures r.Ok? ==> && GetItem(release, "tag_name").Ok? && GetItem(release, "prerelease").Ok?
                      && GetItem(release, "published_at").Ok? && GetItem(release, "assets").Ok?
                      && Iterate(GetItem(release, "assets").value).Ok?
    ensures r.Ok? ==>
      var input := Iterate(GetItem(release, "assets").value).value;
      exists assets: seq<Json> ::
        && r.value == Obj([Field("tag", GetItem(release, "tag_name").value),
                           Field("prerelease", GetItem(release, "prerelease").value),
                           Field("published_at", GetItem(release, "published_at").value),
                           Field("assets", Arr(assets))])
        && |assets| == |input|
        && forall i :: 0 <= i < |input| ==> TransformAsset(input[i]) == Ok(assets[i])
  {
    var tag :- GetItem(release, "tag_name");
    var prerelease :- GetItem(release, "prerelease");
    var published :- GetItem(release, "published_at");
    var assetsValue :- GetItem(release, "assets");
    var assets :- Iterate(assetsValue);
    var transformed :- MapAll(assets, TransformAsset);
    Ok(Obj([Field("tag", tag), Field("prerelease", prerelease),
            Field("published_at", published), Field("assets", Arr(transformed))]))
  }

  /** `transform_team_member`: exactly a username, an avatar and a link. */
  function TransformTeamMember(member: Json): (r: Result<Json, Error>)
    ensures r.Ok? <==> member.Obj? && "login" in Keys(member.fields) && "avatar_url" in Keys(member.fields)
                       && "html_url" in Keys(member.fields)
    ensures r.Ok? ==> r.value == Obj([Field("username", GetItem(member, "login").value),
                                      Field("avatar", GetItem(member, "avatar_url").value),
                                      Field("link", GetItem(member, "html_url").value)])
  {
    var login :- GetItem(member, "login");
    var avatar :- GetItem(member, "avatar_url");
    var link :- GetItem(member, "html_url");
    Ok(Obj([Field("username", login), Field("avatar", avatar), Field("link", link)]))
  }

  /** `transform_contributor`: the member fields plus the contribution count. */
  function TransformContributor(contributor: Json): (r: Result<Json, Error>)
    ensures r.Ok? <==> && contributor.Obj? && "login" in Keys(contributor.fields)
                       && "avatar_url" in Keys(contributor.fields) && "html_url" in Keys(contributor.fields)
                       && "contributions" in Keys(contributor.fields)
    ensures r.Ok? ==> r.value == Obj([Field("username", GetItem(contributor, "login").value),
                                      Field("avatar", GetItem(contributor, "avatar_url").value),
                                      Field("link", GetItem(contributor, "html_url").value),
                                      Field("contributions", GetItem(contributor, "contributions").value)])
  {
    var login :- GetItem(contributor, "login");
    var avatar :- GetItem(contributor, "avatar_url");
    var link :- GetItem(contributor, "html_url");
    var contributions :- GetItem(contributor, "contributions");
    Ok(Obj([Field("username", login), Field("avatar", avatar), Field("link", link),
            Field("contributions", contributions)]))
  }

  /** A record paired with its sort key. */
  type Keyed = (int, Json)

  /**
   * Inserts `p` into a list sorted by non-increasing key, ahead of every
   * element whose key does not exceed its own.
   */
  function Insert(p: Keyed, s: seq<Keyed>): (r: seq<Keyed>)
    ensures |r| == |s| + 1
    ensures multiset(r) == multiset(s) + multiset{p}
    ensures r[0] == p || (s != [] && r[0] == s[0])
  {
    if s == [] || s[0].0 <= p.0 then [p] + s
    else
      assert s == [s[0]] + s[1..];
      [s[0]] + Insert(p, s[1..])
  }

  /** `list.sort(key=..., reverse=True)`: a stable sort by non-increasing key. */
  function SortDesc(s: seq<Keyed>): (r: seq<Keyed>)
    ensures |r| == |s|
  {
    if s == [] then [] else Insert(s[0], SortDesc(s[1..]))
  }

  predicate SortedDesc(s: seq<Keyed>)
  {
    forall i, j :: 0 <= i < j < |s| ==> s[i].0 >= s[j].0
  }

  /** The records of `s` whose key is `k`, in order. */
  function WithKey(s: seq<Keyed>, k: int): seq<Keyed>
  {
    if s == [] then []
    else if s[0].0 == k then [s[0]] + WithKey(s[1..], k)
    else WithKey(s[1..], k)
  }

  lemma {:induction false} InsertSorted(p: Keyed, s: seq<Keyed>)
    requires SortedDesc(s)
    ensures SortedDesc(Insert(p, s))
  {
    if s != [] && s[0].0 > p.0 {
      InsertSorted(p, s[1..]);
      var t := Insert(p, s[1..]);
      assert t[0].0 <= s[0].0;
      var r := [s[0]] + t;
      assert Insert(p, s) == r;
      forall i, j | 0 <= i < j < |r|
        ensures r[i].0 >= r[j].0
      {
        if i == 0 {
          assert r[j] == t[j - 1];
          assert t[0].0 >= t[j - 1].0;
        } else {
          assert r[i] == t[i - 1] && r[j] == t[j - 1];
        }
      }
    }
  }

  /** The output of the contributor sort is ordered by non-increasing count. */
  lemma {:induction false} SortDescSorted(s: seq<Keyed>)
    ensures SortedDesc(SortDesc(s))
  {
    if s != [] {
      SortDescSorted(s[1..]);
      InsertSorted(s[0], SortDesc(s[1..]));
    }
  }

  /** The sort rearranges its input and drops or duplicates nothing. */
  lemma {:induction false} SortDescPermutes(s: seq<Keyed>)
    ensures multiset(SortDesc(s)) == multiset(s)
  {
    if s != [] {
      SortDescPermutes(s[1..]);
      assert s == [s[0]] + s[1..];
    }
  }

  lemma {:induction false} InsertWithKey(p: Keyed, s: seq<Keyed>, k: int)
    ensures WithKey(Insert(p, s), k) == if p.0 == k then [p] + WithKey(s, k) else WithKey(s, k)
  {
    if s != [] && s[0].0 > p.0 {
      InsertWithKey(p, s[1..], k);
      assert Insert(p, s)[1..] == Insert(p, s[1..]);
    }
  }

  /** Stability: records with equal counts keep their original relative order. */
  lemma {:induction false} SortDescStable(s: seq<Keyed>, k: int)
    ensures WithKey(SortDesc(s), k) == WithKey(s, k)
  {
    if s != [] {
      SortDescStable(s[1..], k);
      InsertWithKey(s[0], SortDesc(s[1..]), k);
    }
  }

  /** The count `sort_and_delete_key` reads from a transformed contributor. */
  function Count(contributor: Json): Option<int>
  {
    match GetItem(contributor, "contributions")
    case Ok(c) => AsInt(c)
    case Err(_) => None
  }

  /** The contributor once `sort_and_delete_key` has deleted its count. */
  function Stripped(contributor: Json): Json
  {
    if contributor.Obj? then Obj(Remove(contributor.fields, "contributions")) else contributor
  }

  /** The records of a keyed list, in order. */
  function Records(s: seq<Keyed>): (r: seq<Json>)
    ensures |r| == |s| && forall i :: 0 <= i < |s| ==> r[i] == s[i].1
  {
    seq(|s|, i requires 0 <= i < |s| => s[i].1)
  }

  /** Every transformed contributor paired with its count and stripped of it. */
  function KeyedContributors(transformed: seq<Json>): (r: seq<Keyed>)
    ensures |r| == |transformed|
  {
    seq(|transformed|, i requires 0 <= i < |transformed| =>
      (match Count(transformed[i]) case Some(n) => n case None => 0, Stripped(transformed[i])))
  }

  /**
   * `get_contributor(repository)`: the transformed contributors, sorted by
   * count, highest first, each stripped of its count. Python compares the
   * counts only when there are two or more records, and an uncomparable
   * count then raises.
   */
  function Contributors(upstream: Upstream, repository: Json): Result<seq<Json>, Error>
  {
    var body :- Fetch(upstream.contributors, repository);
    var items :- Iterate(body);
    var transformed :- MapAll(items, TransformContributor);
    if |transformed| >= 2 && exists i :: 0 <= i < |transformed| && Count(transformed[i]).None? then
      Err(TypeError)
    else
      Ok(Records(SortDesc(KeyedContributors(transformed))))
  }

  /** A transformed contributor loses exactly its count, which is the upstream one. */
  lemma StrippedContributor(contributor: Json)
    requires TransformContributor(contributor).Ok?
    ensures var t := TransformContributor(contributor).value;
      && Stripped(t) == Obj([Field("username", GetItem(contributor, "login").value),
                             Field("avatar", GetItem(contributor, "avatar_url").value),
                             Field("link", GetItem(contributor, "html_url").value)])
      && Count(t) == AsInt(GetItem(contributor, "contributions").value)
  {
    var fs := TransformContributor(contributor).value.fields;
    var k := "contributions";
    assert Remove(fs[3..], k) == [];
    assert Remove(fs[2..], k) == [fs[2]] by {
      assert fs[2..][1..] == fs[3..];
    }
    assert Remove(fs[1..], k) == [fs[1], fs[2]] by {
      assert fs[1..][1..] == fs[2..];
    }
    assert Remove(fs, k) == [fs[0], fs[1], fs[2]];
    assert DistinctKeys(fs);
    LookupDistinct(fs, 3);
  }

  /** The GitHub client; `__init__` keeps no state. */
  class GitHubApi {
    const upstream: Upstream

    constructor (upstream: Upstream)
      ensures this.upstream == upstream
    {
      this.upstream := upstream;
    }

    /** `get_release(repository, all)`: the latest release, or all of them in upstream order. */
    function GetRelease(repository: Json, all: bool): (r: Result<Json, Error>)
      ensures !all ==> (r.Ok? <==> Fetch(upstream.latest, repository).Ok?
                                   && TransformRelease(Fetch(upstream.latest, repository).value).Ok?)
      ensures all ==> (r.Ok? <==>
        && Fetch(upstream.releases, repository).Ok?
        && Iterate(Fetch(upstream.releases, repository).value).Ok?
        && var input := Iterate(Fetch(upstream.releases, repository).value).value;
           forall i :: 0 <= i < |input| ==> TransformRelease(input[i]).Ok?)
      ensures !all && r.Ok? ==> Fetch(upstream.latest, repository).Ok?
                                && TransformRelease(Fetch(upstream.latest, repository).value) == r
      ensures all && r.Ok? ==> r.value.Arr? && Fetch(upstream.releases, repository).Ok?
                               && Iterate(Fetch(upstream.releases, repository).value).Ok?
      ensures all && r.Ok? ==>
        var input := Iterate(Fetch(upstream.releases, repository).value).value;
        |r.value.items| == |input| && forall i :: 0 <= i < |input| ==> TransformRelease(input[i]) == Ok(r.value.items[i])
    {
      if all then
        var body :- Fetch(upstream.releases, repository);
        var releases :- Iterate(body);
        var transformed :- MapAll(releases, TransformRelease);
        Ok(Arr(transformed))
      else
        var body :- Fetch(upstream.latest, repository);
        TransformRelease(body)
    }

    /** `get_members(organization)`: the transformed members in upstream order. */
    function GetMembers(organization: Json): (r: Result<seq<Json>, Error>)
      ensures r.Ok? <==>
        && Fetch(upstream.members, organization).Ok?
        && Iterate(Fetch(upstream.members, organization).value).Ok?
        && var input := Iterate(Fetch(upstream.members, organization).value).value;
           forall i :: 0 <= i < |input| ==> TransformTeamMember(input[i]).Ok?
      ensures r.Ok? ==> Fetch(upstream.members, organization).Ok?
                        && Iterate(Fetch(upstream.members, organization).value).Ok?
      ensures r.Ok? ==>
        var input := Iterate(Fetch(upstream.members, organization).value).value;
        |r.value| == |input| && forall i :: 0 <= i < |input| ==> TransformTeamMember(input[i]) == Ok(r.value[i])
    {
      var body :- Fetch(upstream.members, organization);
      var members :- Iterate(body);
      MapAll(members, TransformTeamMember)
    }

    /**
     * `get_contributor(repository)`: the key function of the sort runs once per
     * record, in order, reading the count and deleting it from the record.
     */
    method GetContributor(repository: Json) returns (r: Result<seq<Json>, Error>)
      ensures r == Contributors(upstream, repository)
    {
      var body :- Fetch(upstream.contributors, repository);
      var items :- Iterate(body);
      var contributors :- MapAll(items, TransformContributor);
      var keyed, comparable := KeyPass(contributors);
      if |contributors| >= 2 && !comparable {
        return Err(TypeError);
      }
      return Ok(Records(SortDesc(keyed)));
    }
  }

  /**
   * The key pass of `contributors.sort(key=sort_and_delete_key)`: each record's
   * count is read and then deleted from it, one record after another.
   */
  method KeyPass(contributors: seq<Json>) returns (keyed: seq<Keyed>, comparable: bool)
    ensures keyed == KeyedContributors(contributors)
    ensures comparable <==> forall i :: 0 <= i < |contributors| ==> Count(contributors[i]).Some?
  {
    keyed := [];
    comparable := true;
    for i := 0 to |contributors|
      invariant |keyed| == i
      invariant forall j :: 0 <= j < i ==> keyed[j] == KeyedContributors(contributors)[j]
      invariant comparable <==> forall j :: 0 <= j < i ==> Count(contributors[j]).Some?
    {
      var count := Count(contributors[i]);
      var key := if count.Some? then count.value else 0;
      comparable := comparable && count.Some?;
      keyed := keyed + [(key, Stripped(contributors[i]))];
    }
  }

  /**
   * The contributor list a successful `get_contributor` returns: ordered by
   * non-increasing count, equal counts in upstream order, a permutation of
   * the transformed records with their counts deleted.
   */
  lemma ContributorsSpec(upstream: Upstream, repository: Json)
    requires Contributors(upstream, repository).Ok?
    ensures var body := Fetch(upstream.contributors, repository).value;
      && Iterate(body).Ok? && MapAll(Iterate(body).value, TransformContributor).Ok?
      && var sorted := SortDesc(KeyedContributors(MapAll(Iterate(body).value, TransformContributor).value));
      && Contributors(upstream, repository).value == Records(sorted)
      && SortedDesc(sorted)
      && multiset(sorted) == multiset(KeyedContributors(MapAll(Iterate(body).value, TransformContributor).value))
      && forall k :: WithKey(sorted, k) == WithKey(KeyedContributors(MapAll(Iterate(body).value, TransformContributor).value), k)
  {
    var body := Fetch(upstream.contributors, repository).value;
    var keyed := KeyedContributors(MapAll(Iterate(body).value, TransformContributor).value);
    SortDescSorted(keyed);
    SortDescPermutes(keyed);
    forall k {
      SortDescStable(keyed, k);
    }
  }
}
