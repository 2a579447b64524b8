/**
 * The script `main.py`: for each block of `config["api"]`, in order, and
 * each of its generator names, in order, the provider's API of that name
 * generates into `config["output"]`; an unknown name is skipped, and the
 * first exception ends the script.
 */
module Dispatch {
  import opened Wrappers
  import opened Json
  import opened Utils
  import Config
  import Api
  import opened SourceApis

  /** Lines 12-16 for one block. */
  function RunNames(provider: ApiProvider, d: Disk, block: Json, names: seq<Json>, output: Json): Result<Disk, Failure>
    decreases |names|
  {
    if names == [] then Ok(d)
    else
      match provider.Get(names[0])
      case None => RunNames(provider, d, block, names[1..], output)
      case Some(api) =>
        var d1 :- api.Run(d, block, output);
        RunNames(provider, d1, block, names[1..], output)
  }

  /** Lines 11-16: the blocks in order. */
  function RunBlocks(provider: ApiProvider, d: Disk, blocks: seq<Json>, output: Json): Result<Disk, Failure>
    decreases |blocks|
  {
    if blocks == [] then Ok(d)
    else
      var names :- At(GetItem(blocks[0], "generators"), d);
      var list :- At(Iterate(names), d);
      var d1 :- RunNames(provider, d, blocks[0], list, output);
      RunBlocks(provider, d1, blocks[1..], output)
  }

  /** The whole script, with `provider` the provider it builds at line 9. */
  function Script(d: Disk, provider: ApiProvider): Result<Disk, Failure>
  {
    var config :- At(Config.Loaded(d), d);
    var output :- At(GetItem(config, "output"), d);
    var apis :- At(GetItem(config, "api"), d);
    var blocks :- At(Iterate(apis), d);
    RunBlocks(provider, d, blocks, output)
  }

  /** Running one list of names and then another, from where the first left off. */
  function Then(r: Result<Disk, Failure>, next: Disk -> Result<Disk, Failure>): Result<Disk, Failure>
  {
    match r
    case Ok(d) => next(d)
    case Err(f) => Err(f)
  }

  /**
   * One name: an unknown name changes nothing, and a known one runs its API
   * on the block and the output path.
   */
  lemma RunOneName(provider: ApiProvider, d: Disk, block: Json, name: Json, output: Json)
    ensures provider.Get(name).None? ==> RunNames(provider, d, block, [name], output) == Ok(d)
    ensures provider.Get(name).Some? ==> RunNames(provider, d, block, [name], output) == provider.Get(name).value.Run(d, block, output)
  {
    assert [name][1..] == [];
  }

  /**
   * Names run strictly one after another: the second part starts from the
   * disk the first part leaves, and an exception in the first part ends the
   * run before the second part.
   */
  lemma {:induction false} RunNamesAppend(provider: ApiProvider, d: Disk, block: Json, xs: seq<Json>, ys: seq<Json>, output: Json)
    decreases |xs|
    ensures RunNames(provider, d, block, xs + ys, output)
         == Then(RunNames(provider, d, block, xs, output), d1 => RunNames(provider, d1, block, ys, output))
  {
    if xs != [] {
      assert (xs + ys)[0] == xs[0];
      assert (xs + ys)[1..] == xs[1..] + ys;
      match provider.Get(xs[0])
      case None =>
        RunNamesAppend(provider, d, block, xs[1..], ys, output);
      case Some(api) =>
        if api.Run(d, block, output).Ok? {
          RunNamesAppend(provider, api.Run(d, block, output).value, block, xs[1..], ys, output);
        }
    } else {
      assert xs + ys == ys;
    }
  }

  /** Blocks run one after another in the same way. */
  lemma {:induction false} RunBlocksAppend(provider: ApiProvider, d: Disk, xs: seq<Json>, ys: seq<Json>, output: Json)
    decreases |xs|
    ensures RunBlocks(provider, d, xs + ys, output)
         == Then(RunBlocks(provider, d, xs, output), d1 => RunBlocks(provider, d1, ys, output))
  {
    if xs != [] {
      assert (xs + ys)[0] == xs[0];
      assert (xs + ys)[1..] == xs[1..] + ys;
      var names := GetItem(xs[0], "generators");
      if names.Ok? && Iterate(names.value).Ok? {
        var r := RunNames(provider, d, xs[0], Iterate(names.value).value, output);
        if r.Ok? {
          RunBlocksAppend(provider, r.value, xs[1..], ys, output);
        }
      }
    } else {
      assert xs + ys == ys;
    }
  }

  /** Lines 12-16 on the file system. */
  method RunNamesOn(provider: ApiProvider, fs: FileSystem, block: Json, names: seq<Json>, output: Json) returns (err: Option<Error>)
    modifies fs
    ensures Ends(RunNames(provider, old(fs.State()), block, names, output), fs.State(), err)
  {
    for j := 0 to |names|
      invariant RunNames(provider, old(fs.State()), block, names, output)
             == RunNames(provider, fs.State(), block, names[j..], output)
    {
      assert names[j..][1..] == names[j + 1..];
      var api := provider.Get(names[j]);
      if api.None? {
        continue;
      }
      err := GenerateOn(api.value, fs, block, output);
      if err.Some? {
        return;
      }
    }
    return None;
  }

  /** `main.py` on the file system. */
  method RunScript(fs: FileSystem, client: Api.GitHubApi) returns (err: Option<Error>)
    modifies fs
    ensures Ends(Script(old(fs.State()), DefaultApiProvider(client)), fs.State(), err)
  {
    var provider := DefaultApiProvider(client);
    var config := Config.LoadConfig(fs);
    if config.Err? {
      return Some(config.error);
    }
    var output := GetItem(config.value, "output");
    if output.Err? {
      return Some(output.error);
    }
    var apis := GetItem(config.value, "api");
    if apis.Err? {
      return Some(apis.error);
    }
    var blocks := Iterate(apis.value);
    if blocks.Err? {
      return Some(blocks.error);
    }
    for i := 0 to |blocks.value|
      invariant Script(old(fs.State()), provider) == RunBlocks(provider, fs.State(), blocks.value[i..], output.value)
    {
      assert blocks.value[i..][1..] == blocks.value[i + 1..];
      var names := GetItem(blocks.value[i], "generators");
      if names.Err? {
        return Some(names.error);
      }
      var list := Iterate(names.value);
      if list.Err? {
        return Some(list.error);
      }
      err := RunNamesOn(provider, fs, blocks.value[i], list.value, output.value);
      if err.Some? {
        return;
      }
    }
    return None;
  }
}
