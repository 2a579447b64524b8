/**
 * `announcement create` of `commands/announcement.py`: the configuration
 * that announces one message, written to `config.json` for the `generate`
 * command to pick up.
 */
module AnnouncementCommand {
  import opened Wrappers
  import opened Json
  import opened Utils
  import AnnouncementRecord
  import Serial
  import opened Generators
  import GenerateCommand
  import Config
  import Api

  /** A configuration of one block that runs the generator `name` on `announcement`. */
  function ConfigFor(name: string, announcement: Json): Json
  {
    Obj([Field("configs", Arr([Obj([Field("generators", Arr([Str(name)])), Field("announcement", announcement)])]))])
  }

  /** Lines 20-36 as written: the block names the generator `"announcement"`. */
  function CreateConfig(author: Option<string>, title: string, message: Option<string>,
                        attachmentUrls: Option<string>, channel: string, level: Option<int>): Json
  {
    ConfigFor("announcement", AnnouncementRecord.Announcement(author, title, message, attachmentUrls, channel, level))
  }

  /** The block naming the generator by the name it is registered under, `"announcements"`. */
  function CreateConfigFixed(author: Option<string>, title: string, message: Option<string>,
                             attachmentUrls: Option<string>, channel: string, level: Option<int>): Json
  {
    ConfigFor("announcements", AnnouncementRecord.Announcement(author, title, message, attachmentUrls, channel, level))
  }

  /** Lines 38-39: `config.json` is overwritten with the configuration. */
  function Create(d: Disk, config: Json): Result<Disk, Error>
  {
    Write(d, config, Config.ConfigPath, true)
  }

  /** What `generate` makes of a configuration that holds one block naming `name`. */
  lemma ScheduleConfigFor(generators: map<string, Generator>, name: string, announcement: Json)
    ensures var block := ConfigFor(name, announcement).fields[0].value.items[0];
      GenerateCommand.ScheduleBlocks(generators, [block])
      == Ok(if name in generators then [GenerateCommand.Task(generators[name], block)] else [])
  {
    var block := ConfigFor(name, announcement).fields[0].value.items[0];
    KeysCons(block.fields);
    GenerateCommand.ScheduleOneName(generators, block, Str(name));
    var tasks := if name in generators then [GenerateCommand.Task(generators[name], block)] else [];
    assert [block][1..] == [];
    assert tasks + [] == tasks;
  }

  /**
   * `config.json` written by the command loads back as the configuration
   * with `output` set to `"static"` and `purge` to `[]`.
   */
  lemma CreatedConfigLoads(d: Disk, name: string, announcement: Json)
    requires Create(d, ConfigFor(name, announcement)).Ok?
    ensures var config := ConfigFor(name, announcement);
      Config.Loaded(Create(d, config).value)
      == Ok(Obj(config.fields + [Field("output", Str("static")), Field("purge", Arr([]))]))
  {
    var config := ConfigFor(name, announcement);
    WriteThenRead(d, config, Config.ConfigPath, Null);
    ConfigForDefaults(name, announcement);
  }

  /** The configuration gains `output` and `purge`, appended in that order. */
  lemma ConfigForDefaults(name: string, announcement: Json)
    ensures var config := ConfigFor(name, announcement);
      Config.WithDefaults(config) == Ok(Obj(config.fields + [Field("output", Str("static")), Field("purge", Arr([]))]))
  {
    var config := ConfigFor(name, announcement);
    assert Keys(config.fields) == ["configs"];
    Config.WithDefaultsAbsent(config.fields);
  }

  /** The loaded configuration's `purge`, `output` and `configs`. */
  lemma CreatedConfigItems(d: Disk, name: string, announcement: Json)
    requires Create(d, ConfigFor(name, announcement)).Ok?
    ensures var d', block := Create(d, ConfigFor(name, announcement)).value, ConfigFor(name, announcement).fields[0].value.items[0];
      && Config.Loaded(d').Ok?
      && GetItem(Config.Loaded(d').value, "purge") == Ok(Arr([]))
      && GetItem(Config.Loaded(d').value, "output") == Ok(Str("static"))
      && GetItem(Config.Loaded(d').value, "configs") == Ok(Arr([block]))
  {
    CreatedConfigLoads(d, name, announcement);
    DefaultedItems(name, announcement);
  }

  /** The items `generate` reads from the configuration once defaults are added. */
  lemma DefaultedItems(name: string, announcement: Json)
    ensures var config := ConfigFor(name, announcement);
      var loaded := Obj(config.fields + [Field("output", Str("static")), Field("purge", Arr([]))]);
      && GetItem(loaded, "purge") == Ok(Arr([]))
      && GetItem(loaded, "output") == Ok(Str("static"))
      && GetItem(loaded, "configs") == Ok(config.fields[0].value)
  {
    var config := ConfigFor(name, announcement);
    var fields := config.fields + [Field("output", Str("static")), Field("purge", Arr([]))];
    assert fields[0].key == "configs" && fields[1].key == "output" && fields[2].key == "purge";
    LookupFirst(fields, 0);
    LookupFirst(fields, 1);
    LookupFirst(fields, 2);
  }

  /**
   * `generate` after the command: the output directory is `static`, nothing
   * is purged, and the single block is scheduled against the registry.
   */
  lemma CreatedConfigGenerates(d: Disk, api: Api.GitHubApi, name: string, announcement: Json)
    requires Create(d, ConfigFor(name, announcement)).Ok?
    ensures var d', generators := Create(d, ConfigFor(name, announcement)).value, BothRegistered(api);
      var block := ConfigFor(name, announcement).fields[0].value.items[0];
      var tasks := if name in generators then [GenerateCommand.Task(generators[name], block)] else [];
      && (MakeDirs(d', "static").Err? ==> GenerateCommand.Generate(d', generators) == Err(Failure(MakeDirs(d', "static").error, d')))
      && (MakeDirs(d', "static").Ok? && tasks == [] ==>
            GenerateCommand.Generate(d', generators) == Err(Failure(ValueError, MakeDirs(d', "static").value)))
      && (MakeDirs(d', "static").Ok? && tasks != [] ==>
            GenerateCommand.Generate(d', generators) == Ok(GenerateCommand.RunTasks(MakeDirs(d', "static").value, tasks, Str("static"))))
  {
    var d' := Create(d, ConfigFor(name, announcement)).value;
    var block := ConfigFor(name, announcement).fields[0].value.items[0];
    CreatedConfigItems(d, name, announcement);
    ScheduleConfigFor(BothRegistered(api), name, announcement);
    assert Iterate(Arr([block])) == Ok([block]);
    assert GenerateCommand.Purge(d', Arr([])) == Ok(d');
    GenerateCommand.GenerateRuns(d', BothRegistered(api), Config.Loaded(d').value, Arr([]), d', "static", [block]);
  }

  /**
   * Once the command has written its configuration, `generate` with the
   * registry both providers fill never completes: the block names no
   * registered generator, so no task is made, and `asyncio.wait` of no tasks
   * raises `ValueError` after the output directory is made.
   */
  lemma CreatedConfigRaises(d: Disk, api: Api.GitHubApi, announcement: Json)
    requires Create(d, ConfigFor("announcement", announcement)).Ok?
    ensures var d' := Create(d, ConfigFor("announcement", announcement)).value;
      && GenerateCommand.Generate(d', BothRegistered(api)).Err?
      && (MakeDirs(d', "static").Ok? ==>
            GenerateCommand.Generate(d', BothRegistered(api)) == Err(Failure(ValueError, MakeDirs(d', "static").value)))
  {
    CreatedConfigGenerates(d, api, "announcement", announcement);
    BothProvidersSeeAll(api);
  }

  /**
   * With the registered name, `generate` makes one task, the announcements
   * generator on the configured block, and runs it on the output directory.
   */
  lemma CreatedConfigFixedAnnounces(d: Disk, api: Api.GitHubApi, announcement: Json)
    requires Create(d, ConfigFor("announcements", announcement)).Ok?
    requires MakeDirs(Create(d, ConfigFor("announcements", announcement)).value, "static").Ok?
    ensures var config := ConfigFor("announcements", announcement);
      var d2 := MakeDirs(Create(d, config).value, "static").value;
      GenerateCommand.Generate(Create(d, config).value, BothRegistered(api))
      == Ok(DiskAfter(Announce(d2, config.fields[0].value.items[0], Str("static"))))
  {
    var config := ConfigFor("announcements", announcement);
    var block := config.fields[0].value.items[0];
    var d2 := MakeDirs(Create(d, config).value, "static").value;
    AnnouncementsFound(api);
    var g := BothRegistered(api)["announcements"];
    CreatedConfigGenerates(d, api, "announcements", announcement);
    GenerateCommand.RunOneTask(d2, GenerateCommand.Task(g, block), Str("static"));
    AnnouncementsRun(g, d2, block, Str("static"));
  }

  /** The registry both providers fill maps `announcements` to the announcements generator. */
  lemma AnnouncementsFound(api: Api.GitHubApi)
    ensures "announcements" in BothRegistered(api) && BothRegistered(api)["announcements"] == AnnouncementGenerator
  {
    BothProvidersSeeAll(api);
    assert (DefaultGenerators(api) + AnnouncementGenerators())[5] == AnnouncementGenerator;
  }

  /** The announcements generator's run is the corrected `Announce`. */
  lemma AnnouncementsRun(g: Generator, d: Disk, config: Json, path: Json)
    requires g == AnnouncementGenerator
    ensures g.Run(d, config, path) == Announce(d, config, path)
  {
  }
}
