/**
 * The `generate` command of `commands/generate.py`: load the configuration,
 * purge the listed paths, make the output directory, make one task per
 * (block, known generator name) pair and run the tasks.
 */
module GenerateCommand {
  import opened Wrappers
  import opened Json
  import opened Utils
  import opened Generators
  import Config

  /* ---------------------------------------------------------------------- */
  /* Purge                                                                   */

  /**
   * One path of `purge`: a directory goes with everything beneath it, a file
   * goes, and a path that does not exist is skipped.
   */
  function PurgeOne(d: Disk, p: Path): (r: Disk)
    ensures !Exists(r, p)
    ensures Shrinks(d, r)
    ensures !Exists(d, p) ==> r == d
    ensures forall f :: f in d.files && f != p && !Beneath(f, p) ==> f in r.files && r.files[f] == d.files[f]
  {
    if IsDir(d, p) then RemoveTree(d, p)
    else if IsFile(d, p) then RemoveFile(d, p)
    else d
  }

  /**
   * `purge(paths)` over the listed values: `isdir` and `isfile` of an
   * integer ask about a file descriptor and are taken to answer no, so the
   * entry is skipped; any other value that is not a string raises.
   */
  function PurgeAll(d: Disk, paths: seq<Json>): Result<Disk, Failure>
    decreases |paths|
  {
    if paths == [] then Ok(d)
    else
      match paths[0]
      case Str(p) => PurgeAll(PurgeOne(d, p), paths[1..])
      case Num(_) => PurgeAll(d, paths[1..])
      case Bool(_) => PurgeAll(d, paths[1..])
      case _ => Err(Failure(TypeError, d))
  }

  /** `purge(paths)`: `for path in paths` iterates a list, a dict's keys or a string's characters. */
  function Purge(d: Disk, paths: Json): Result<Disk, Failure>
  {
    var list :- At(Iterate(paths), d);
    PurgeAll(d, list)
  }

  /** A path that is gone stays gone when the disk only shrinks. */
  lemma ShrinksKeepsAbsent(d: Disk, d': Disk, p: Path)
    requires Shrinks(d, d') && !Exists(d, p)
    ensures !Exists(d', p)
  {
  }

  /**
   * After a purge that completes, no listed path exists, nothing new
   * appeared, and every file that is neither listed nor beneath a listed
   * path keeps its text.
   */
  lemma {:induction false} PurgeAllEffect(d: Disk, paths: seq<Json>)
    decreases |paths|
    requires PurgeAll(d, paths).Ok?
    ensures Shrinks(d, PurgeAll(d, paths).value)
    ensures forall i :: 0 <= i < |paths| && paths[i].Str? ==> !Exists(PurgeAll(d, paths).value, paths[i].s)
    ensures forall f :: f in d.files && (forall i :: 0 <= i < |paths| && paths[i].Str? ==> f != paths[i].s && !Beneath(f, paths[i].s))
                        ==> f in PurgeAll(d, paths).value.files && PurgeAll(d, paths).value.files[f] == d.files[f]
  {
    if paths != [] {
      var d1 := if paths[0].Str? then PurgeOne(d, paths[0].s) else d;
      assert PurgeAll(d, paths) == PurgeAll(d1, paths[1..]);
      PurgeAllEffect(d1, paths[1..]);
      var r := PurgeAll(d, paths).value;
      assert forall i :: 1 <= i < |paths| ==> paths[1..][i - 1] == paths[i];
      if paths[0].Str? {
        ShrinksKeepsAbsent(d1, r, paths[0].s);
      }
    }
  }

  /** Purging keeps the disk a tree. */
  lemma {:induction false} PurgeAllKeepsValid(d: Disk, paths: seq<Json>)
    decreases |paths|
    requires Valid(d) && PurgeAll(d, paths).Ok?
    ensures Valid(PurgeAll(d, paths).value)
  {
    if paths != [] {
      if paths[0].Str? {
        RemoveKeepsValid(d, paths[0].s);
        PurgeAllKeepsValid(PurgeOne(d, paths[0].s), paths[1..]);
      } else {
        PurgeAllKeepsValid(d, paths[1..]);
      }
    }
  }

  /** `purge(paths)` on the file system. */
  method PurgeOn(fs: FileSystem, paths: Json) returns (err: Option<Error>)
    modifies fs
    ensures Ends(Purge(old(fs.State()), paths), fs.State(), err)
  {
    var list := Iterate(paths);
    if list.Err? {
      return Some(list.error);
    }
    for i := 0 to |list.value|
      invariant Purge(old(fs.State()), paths) == PurgeAll(fs.State(), list.value[i..])
    {
      assert list.value[i..][1..] == list.value[i + 1..];
      match list.value[i]
      case Str(p) =>
        if IsDir(fs.State(), p) {
          fs.Rmtree(p);
        } else if IsFile(fs.State(), p) {
          fs.Remove(p);
        }
      case Num(_) =>
      case Bool(_) =>
      case _ =>
        return Some(TypeError);
    }
    return None;
  }

  /* ---------------------------------------------------------------------- */
  /* Task selection                                                          */

  /** A task made by `loop.create_task(generator.generate(generator_config, output))`. */
  datatype Task = Task(generator: Generator, config: Json)

  /**
   * Lines 35-40 for one block: a known name makes a task, any other hashable
   * name is reported and skipped, and a list or dict as a name raises (it
   * cannot be looked up in a dict).
   */
  function ScheduleNames(generators: map<string, Generator>, block: Json, names: seq<Json>): (r: Result<seq<Task>, Error>)
    decreases |names|
    ensures r.Err? <==> exists i :: 0 <= i < |names| && (names[i].Arr? || names[i].Obj?)
    ensures r.Err? ==> r.error == TypeError
  {
    if names == [] then Ok([])
    else if names[0].Arr? || names[0].Obj? then Err(TypeError)
    else
      var rest :- ScheduleNames(generators, block, names[1..]);
      if names[0].Str? && names[0].s in generators then Ok([Task(generators[names[0].s], block)] + rest)
      else Ok(rest)
  }

  /** Lines 34-40: the blocks in order, each block's names in order. */
  function ScheduleBlocks(generators: map<string, Generator>, blocks: seq<Json>): Result<seq<Task>, Error>
    decreases |blocks|
  {
    if blocks == [] then Ok([])
    else
      var names :- GetItem(blocks[0], "generators");
      var list :- Iterate(names);
      var first :- ScheduleNames(generators, blocks[0], list);
      var rest :- ScheduleBlocks(generators, blocks[1..]);
      Ok(first + rest)
  }

  /** `ts` followed by the tasks of `r`, or the exception of `r`. */
  function Prepend(ts: seq<Task>, r: Result<seq<Task>, Error>): Result<seq<Task>, Error>
  {
    match r
    case Ok(rest) => Ok(ts + rest)
    case Err(e) => Err(e)
  }

  lemma PrependPrepend(a: seq<Task>, b: seq<Task>, r: Result<seq<Task>, Error>)
    ensures Prepend(a, Prepend(b, r)) == Prepend(a + b, r)
    ensures Prepend([], r) == r
  {
    if r.Ok? {
      assert a + (b + r.value) == (a + b) + r.value;
      assert [] + r.value == r.value;
    }
  }

  /** What a single name schedules: its generator's task, nothing, or `TypeError`. */
  lemma ScheduleOneName(generators: map<string, Generator>, block: Json, name: Json)
    ensures name.Arr? || name.Obj? ==> ScheduleNames(generators, block, [name]) == Err(TypeError)
    ensures name.Str? && name.s in generators ==> ScheduleNames(generators, block, [name]) == Ok([Task(generators[name.s], block)])
    ensures !name.Arr? && !name.Obj? && !(name.Str? && name.s in generators) ==> ScheduleNames(generators, block, [name]) == Ok([])
  {
    assert [name][1..] == [];
    if name.Str? && name.s in generators {
      assert [Task(generators[name.s], block)] + [] == [Task(generators[name.s], block)];
    }
  }

  /**
   * Scheduling a list of names schedules each part in turn and concatenates
   * the tasks: one task per known name, in name order; an unknown name stops
   * nothing.
   */
  lemma {:induction false} ScheduleNamesAppend(generators: map<string, Generator>, block: Json, xs: seq<Json>, ys: seq<Json>)
    decreases |xs|
    ensures ScheduleNames(generators, block, xs).Err? ==> ScheduleNames(generators, block, xs + ys) == Err(TypeError)
    ensures ScheduleNames(generators, block, xs).Ok? ==>
      ScheduleNames(generators, block, xs + ys) == Prepend(ScheduleNames(generators, block, xs).value, ScheduleNames(generators, block, ys))
  {
    if xs != [] {
      assert (xs + ys)[0] == xs[0];
      assert (xs + ys)[1..] == xs[1..] + ys;
      ScheduleNamesAppend(generators, block, xs[1..], ys);
      if ScheduleNames(generators, block, xs).Ok? {
        var rest := ScheduleNames(generators, block, xs[1..]).value;
        var head := if xs[0].Str? && xs[0].s in generators then [Task(generators[xs[0].s], block)] else [];
        assert ScheduleNames(generators, block, xs).value == head + rest;
        PrependPrepend(head, rest, ScheduleNames(generators, block, ys));
      }
    } else {
      assert xs + ys == ys;
      PrependPrepend([], [], ScheduleNames(generators, block, ys));
    }
  }

  /** The same for blocks: one block's tasks, then the next block's. */
  lemma {:induction false} ScheduleBlocksAppend(generators: map<string, Generator>, xs: seq<Json>, ys: seq<Json>)
    decreases |xs|
    ensures ScheduleBlocks(generators, xs).Err? ==> ScheduleBlocks(generators, xs + ys) == ScheduleBlocks(generators, xs)
    ensures ScheduleBlocks(generators, xs).Ok? ==>
      ScheduleBlocks(generators, xs + ys) == Prepend(ScheduleBlocks(generators, xs).value, ScheduleBlocks(generators, ys))
  {
    if xs != [] {
      assert (xs + ys)[0] == xs[0];
      assert (xs + ys)[1..] == xs[1..] + ys;
      ScheduleBlocksAppend(generators, xs[1..], ys);
      if ScheduleBlocks(generators, xs).Ok? {
        var first := ScheduleNames(generators, xs[0], Iterate(GetItem(xs[0], "generators").value).value).value;
        var rest := ScheduleBlocks(generators, xs[1..]).value;
        assert ScheduleBlocks(generators, xs).value == first + rest;
        PrependPrepend(first, rest, ScheduleBlocks(generators, ys));
      }
    } else {
      assert xs + ys == ys;
      PrependPrepend([], [], ScheduleBlocks(generators, ys));
    }
  }

  /** The tasks of one block's names, on values. */
  method ScheduleNamesOf(generators: map<string, Generator>, block: Json, names: seq<Json>) returns (r: Result<seq<Task>, Error>)
    ensures r == ScheduleNames(generators, block, names)
  {
    var tasks: seq<Task> := [];
    assert names[0..] == names;
    PrependPrepend([], [], ScheduleNames(generators, block, names));
    for j := 0 to |names|
      invariant ScheduleNames(generators, block, names) == Prepend(tasks, ScheduleNames(generators, block, names[j..]))
    {
      assert names[j..][1..] == names[j + 1..];
      var name := names[j];
      if name.Arr? || name.Obj? {
        return Err(TypeError);
      }
      if name.Str? && name.s in generators {
        PrependPrepend(tasks, [Task(generators[name.s], block)], ScheduleNames(generators, block, names[j + 1..]));
        tasks := tasks + [Task(generators[name.s], block)];
      }
    }
    assert names[|names|..] == [];
    assert tasks + [] == tasks;
    return Ok(tasks);
  }

  /** Lines 29-40: the nested loop that appends to `tasks`. */
  method Schedule(generators: map<string, Generator>, blocks: seq<Json>) returns (r: Result<seq<Task>, Error>)
    ensures r == ScheduleBlocks(generators, blocks)
  {
    var tasks: seq<Task> := [];
    assert blocks[0..] == blocks;
    PrependPrepend([], [], ScheduleBlocks(generators, blocks));
    for i := 0 to |blocks|
      invariant ScheduleBlocks(generators, blocks) == Prepend(tasks, ScheduleBlocks(generators, blocks[i..]))
    {
      assert blocks[i..][1..] == blocks[i + 1..];
      var names := GetItem(blocks[i], "generators");
      if names.Err? {
        return Err(names.error);
      }
      var list := Iterate(names.value);
      if list.Err? {
        return Err(list.error);
      }
      var first := ScheduleNamesOf(generators, blocks[i], list.value);
      if first.Err? {
        return Err(first.error);
      }
      PrependPrepend(tasks, first.value, ScheduleBlocks(generators, blocks[i + 1..]));
      tasks := tasks + first.value;
    }
    assert blocks[|blocks|..] == [];
    assert tasks + [] == tasks;
    return Ok(tasks);
  }

  /* ---------------------------------------------------------------------- */
  /* Running the tasks                                                       */

  /**
   * `asyncio.wait(tasks)`: every task runs, one after another in the order
   * made; an exception ends its own task and leaves the disk as that task's
   * writes left it.
   */
  function RunTasks(d: Disk, tasks: seq<Task>, output: Json): Disk
    decreases |tasks|
  {
    if tasks == [] then d
    else RunTasks(DiskAfter(tasks[0].generator.Run(d, tasks[0].config, output)), tasks[1..], output)
  }

  /** Running two lists of tasks runs the second from where the first left off. */
  lemma {:induction false} RunTasksAppend(d: Disk, xs: seq<Task>, ys: seq<Task>, output: Json)
    decreases |xs|
    ensures RunTasks(d, xs + ys, output) == RunTasks(RunTasks(d, xs, output), ys, output)
  {
    if xs != [] {
      assert (xs + ys)[0] == xs[0];
      assert (xs + ys)[1..] == xs[1..] + ys;
      RunTasksAppend(DiskAfter(xs[0].generator.Run(d, xs[0].config, output)), xs[1..], ys, output);
    } else {
      assert xs + ys == ys;
    }
  }

  /** A single task leaves the disk its generator's run leaves, whether or not it raised. */
  lemma RunOneTask(d: Disk, task: Task, output: Json)
    ensures RunTasks(d, [task], output) == DiskAfter(task.generator.Run(d, task.config, output))
  {
    assert [task][1..] == [];
  }

  /** The tasks run on the file system, each one's exception dropped. */
  method RunTasksOn(fs: FileSystem, tasks: seq<Task>, output: Json)
    modifies fs
    ensures fs.State() == RunTasks(old(fs.State()), tasks, output)
  {
    for i := 0 to |tasks|
      invariant RunTasks(old(fs.State()), tasks, output) == RunTasks(fs.State(), tasks[i..], output)
    {
      assert tasks[i..][1..] == tasks[i + 1..];
      var _ := GenerateOn(tasks[i].generator, fs, tasks[i].config, output);
    }
  }

  /* ---------------------------------------------------------------------- */
  /* The command                                                             */

  /**
   * `generate()`, with `generators` the name-to-generator dict the command
   * looks names up in: purge first, then the output directory, then the
   * tasks; `asyncio.wait` of no tasks raises `ValueError`.
   */
  function Generate(d: Disk, generators: map<string, Generator>): Result<Disk, Failure>
  {
    var config :- At(Config.Loaded(d), d);
    var purge :- At(GetItem(config, "purge"), d);
    var d1 :- Purge(d, purge);
    var output :- At(GetItem(config, "output"), d1);
    var root :- At(AsString(output), d1);
    var d2 :- At(MakeDirs(d1, root), d1);
    var blocks :- At(GetItem(config, "configs"), d2);
    var list :- At(Iterate(blocks), d2);
    var tasks :- At(ScheduleBlocks(generators, list), d2);
    if tasks == [] then Err(Failure(ValueError, d2))
    else Ok(RunTasks(d2, tasks, output))
  }

  /**
   * Once the configuration is loaded and the paths purged, the command
   * raises if the output directory cannot be made; otherwise, once the tasks
   * are made, it completes exactly when there is at least one, and the tasks
   * start from the disk with every purge done and the output directory in
   * place.
   */
  lemma GenerateRuns(d: Disk, generators: map<string, Generator>, config: Json, purge: Json, d1: Disk, root: Path, blocks: seq<Json>)
    requires Config.Loaded(d) == Ok(config) && GetItem(config, "purge") == Ok(purge) && Purge(d, purge) == Ok(d1)
    requires GetItem(config, "output") == Ok(Str(root))
    requires GetItem(config, "configs").Ok? && Iterate(GetItem(config, "configs").value) == Ok(blocks)
    requires ScheduleBlocks(generators, blocks).Ok?
    ensures MakeDirs(d1, root).Err? ==> Generate(d, generators) == Err(Failure(MakeDirs(d1, root).error, d1))
    ensures MakeDirs(d1, root).Ok? ==>
      var d2, tasks := MakeDirs(d1, root).value, ScheduleBlocks(generators, blocks).value;
      && IsDir(d2, root)
      && (tasks == [] ==> Generate(d, generators) == Err(Failure(ValueError, d2)))
      && (tasks != [] ==> Generate(d, generators) == Ok(RunTasks(d2, tasks, Str(root))))
  {
  }

  /** `generate()` on the file system. */
  method GenerateAll(fs: FileSystem, generators: map<string, Generator>) returns (err: Option<Error>)
    modifies fs
    ensures Ends(Generate(old(fs.State()), generators), fs.State(), err)
  {
    var config := Config.LoadConfig(fs);
    if config.Err? {
      return Some(config.error);
    }
    var purge := GetItem(config.value, "purge");
    if purge.Err? {
      return Some(purge.error);
    }
    err := PurgeOn(fs, purge.value);
    if err.Some? {
      return;
    }
    var output := GetItem(config.value, "output");
    if output.Err? {
      return Some(output.error);
    }
    var root := AsString(output.value);
    if root.Err? {
      return Some(root.error);
    }
    err := fs.CreateIfNotExists(root.value);
    if err.Some? {
      return;
    }
    var blocks := GetItem(config.value, "configs");
    if blocks.Err? {
      return Some(blocks.error);
    }
    var list := Iterate(blocks.value);
    if list.Err? {
      return Some(list.error);
    }
    var tasks := Schedule(generators, list.value);
    if tasks.Err? {
      return Some(tasks.error);
    }
    if tasks.value == [] {
      return Some(ValueError);
    }
    RunTasksOn(fs, tasks.value, output.value);
    return None;
  }
}
