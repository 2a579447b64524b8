# revanced-static-api, modelled in Dafny

revanced-static-api builds a static JSON API for ReVanced. A `config.json`
lists blocks. Each block names some generators and holds the settings they
need. Each generator writes JSON files under an output directory:
- releases and their index;
- contributors, sorted by contributions;
- the organisation's team;
- connections;
- donation links;
- announcements, numbered and filed per channel.

This project models that core:
- the file helpers: `write_json`, `to_json`, `read_json`, `create_if_not_exists`, `get_repository_name`;
- the GitHub client's record transformations and its contributor sort;
- every generator of `app/generator.py` and its registry, each run with the corrections listed under "## Findings" (the code as written is stated by separate members there);
- the synchronous API classes of `src/app/generator.py` and their provider;
- `load_config`;
- the `generate` command, including `purge` and task scheduling;
- the `announcement create` command;
- the `main.py` script.

The disk is a value, `Utils.Disk`. It maps file paths to text and records the
directories that were made. A directory also exists when something lies
beneath it. Every operation is written twice:
- a function from the old disk to `Ok(new disk)`, or to
  `Err(Failure(exception, disk at the moment of the exception))`. Writes
  made before an exception stay on disk, as they do in Python;
- a method on the `Utils.FileSystem` class, which holds the same state in
  fields and changes it in place. Each method is proved to end in the state
  the function describes (`Utils.Ends`).

Python exceptions are the constructors of `Json.Error`. JSON values are
`Json.Json`, with insertion-ordered dicts. `json.dumps`/`json.load` are
stood in for by `Serial.Dumps`/`Serial.Loads`, a self-delimiting text
encoding whose round trip and injectivity are proved. GitHub's HTTP
responses are an `Api.Upstream` value given to the client; a missing
response raises `UpstreamError`.

Modules: `Wrappers`, `Strings`, `Json`, `Serial`, `Utils`, `Api`,
`AnnouncementIds` (announcement numbering), `Generators`, `Config`,
`GenerateCommand`, `AnnouncementRecord` (the record `announcement create`
builds), `AnnouncementCommand`, `SourceApis`, `Dispatch`.

## Model

| member | source | states |
|---|---|---|
| Strings.Split | commands/announcement.py:29 | `str.split(sep)`: at least one part, no part holds the separator, and joining the parts with the separator gives the string back |
| Strings.LastSegment | app/utils.py:27-28 | the result is the last segment of the string: no separator in it, and the string is it or ends in separator + it |
| Strings.LastOfSplit | app/utils.py:27-28 | `split("/")[-1]` is the last segment |
| Strings.LastSegmentOfJoin | app/utils.py:27-28 | the last segment of `dir/name` is `name` when `name` has no separator |
| Json.Put | app/config.py:7-8 | dict assignment: the key then maps to the value and every other key keeps its value |
| Json.PutKeys | app/config.py:7-8 | assignment keeps the key order, appending a key that was absent |
| Json.Remove | app/api.py:72 | `del d[k]`: the key is gone and every other key keeps its value |
| Serial.LoadsDumps | app/utils.py:11-20 | the text `to_json` writes for a non-string loads back as the same value |
| Serial.DumpsInjective | app/utils.py:11-14 | two values with the same serialisation are equal |
| Utils.GetRepositoryName | app/utils.py:27-28 | the name has no `/`, is the repository's last segment, and is the repository itself when that has no `/` |
| Utils.RepositoryName | app/utils.py:27-28 | a string gives its name; anything else raises `AttributeError` |
| Utils.Format | app/generator.py:63 | `f"{v}"` gives a string unchanged and fails exactly on a list or dict |
| Utils.JoinAt | app/generator.py:47 | `join(path, b)` succeeds exactly when the configured path is a string |
| Utils.ToJson | app/utils.py:11-14 | a string is written verbatim; anything else is written as text that loads back as that value |
| Utils.Write | app/utils.py:5-9 | with `overwrite=False` an existing path is left alone; otherwise the write succeeds exactly when no ancestor is a file, the parent exists and the path is not a directory, and then only that file's text changes |
| Utils.Read | app/utils.py:16-20 | the default when nothing exists, `IsADirectoryError` on a directory, otherwise the file's decoded text, failing exactly when it does not decode |
| Utils.MakeDirs | app/utils.py:23-24 | `makedirs(exist_ok=True)` succeeds exactly when the path is a directory or neither a file nor beneath one; then the path is a directory, no file changes, and an existing directory leaves the disk as it was |
| Utils.RemoveTree | commands/generate.py:48-49 | `rmtree`: the path no longer exists, nothing is added, and every file outside the tree keeps its text |
| Utils.RemoveFile | commands/generate.py:50-51 | `os.remove`: a file no longer exists and every other file keeps its text |
| Utils.WriteThenRead | app/utils.py:5-20 | `read_json` after `write_json` of a non-string value gives that value back |
| Utils.WriteIdempotent | app/utils.py:5-9 | writing the same value to the same path twice equals writing it once |
| Utils.WriteKeepsValid | app/utils.py:5-9 | a write keeps the disk a tree (no file beneath a file, no path both file and directory) |
| Utils.RewriteSame | app/utils.py:5-9 | rewriting a file with the text it already holds leaves the disk unchanged |
| Utils.MakeDirsIdempotent | app/utils.py:23-24 | making the same directory twice equals making it once |
| Utils.MakeDirsKeepsValid | app/utils.py:23-24 | making a directory keeps the disk a tree |
| Utils.RemoveKeepsValid | commands/generate.py:46-51 | removing a tree or a file keeps the disk a tree |
| Utils.ReadAfterWrite | app/utils.py:5-20 | a write leaves every other path's read and existence as they were |
| Utils.ReadAfterMakeDirs | app/utils.py:16-24 | making a directory leaves every path outside it as it was for reading and existence |
| Utils.FileSystem.constructor | app/utils.py:5-24 | the file system starts in the given state |
| Utils.FileSystem.WriteJson | app/utils.py:5-9 | in place, `write_json` ends in the state `Write` gives, raising what it raises (also `src/app/utils.py`) |
| Utils.FileSystem.CreateIfNotExists | app/utils.py:23-24 | in place, `create_if_not_exists` ends in the state `MakeDirs` gives, raising what it raises |
| Utils.FileSystem.Rmtree | commands/generate.py:48-49 | in place, the new state is `RemoveTree` of the old |
| Utils.FileSystem.Remove | commands/generate.py:50-51 | in place, the new state is `RemoveFile` of the old |
| Api.Fetch | app/api.py:75-77 | a response is returned exactly when upstream has one for the request |
| Api.TransformAsset | app/api.py:104-111 | an asset with `name` and `browser_download_url` becomes `{name, download_url}`, and anything else fails |
| Api.TransformRelease | app/api.py:98-112 | succeeds exactly when the release is a dict with `tag_name`, `prerelease`, `published_at` and an iterable `assets` whose every asset transforms; then `tag`, `prerelease`, `published_at` and the transformed assets come from the upstream fields; a missing `tag_name` raises `KeyError` first |
| Api.TransformTeamMember | app/api.py:137-141 | a member becomes `{username, avatar, link}` exactly when it has those three upstream keys |
| Api.TransformContributor | app/api.py:63-68 | a contributor becomes `{username, avatar, link, contributions}` exactly when it has the four upstream keys |
| Api.Insert | app/api.py:81 | insertion adds exactly one element to the multiset |
| Api.SortDescSorted | app/api.py:81 | `sort(reverse=True)` orders by non-increasing key |
| Api.SortDescPermutes | app/api.py:81 | the sort is a permutation |
| Api.SortDescStable | app/api.py:81 | the sort is stable: the records of each key keep their upstream order |
| Api.StrippedContributor | app/api.py:63-73 | the key function deletes exactly the count, which is the upstream `contributions` |
| Api.KeyPass | app/api.py:70-73 | the key pass pairs every record with its count and strips it, and all counts are comparable exactly when each is an integer |
| Api.ContributorsSpec | app/api.py:52-83 | the returned list is sorted by non-increasing count, is a permutation of the stripped records, and keeps upstream order within a count |
| Api.GitHubApi.constructor | app/api.py:48-50 | the client keeps only the upstream it is given |
| Api.GitHubApi.GetRelease | app/api.py:85-124 | succeeds exactly when the response exists and the latest release (or, with `all`, every listed release) transforms; the latest release is the transformed upstream latest; `all` gives every upstream release transformed, in order |
| Api.GitHubApi.GetMembers | app/api.py:126-146 | succeeds exactly when the response exists, is iterable and every member transforms; the members are the upstream members transformed, in order |
| Api.GitHubApi.GetContributor | app/api.py:52-83 | the method returns what `Api.Contributors` specifies, including `TypeError` on uncomparable counts |
| Generators.MergeTag | app/generator.py:71-73 | on a list the tag is appended exactly when it is absent |
| Generators.MergeAppendOnly | app/generator.py:71-73 | the merged index extends the old one, holds the tag, and grows by one exactly when the tag was new |
| Generators.MergeIdempotent | app/generator.py:71-73 | merging the same tag again changes nothing |
| Generators.PublishEffect | app/generator.py:57-75 | an existing `<tag>.json` is kept and a missing one written; `latest.json` holds the release; the index is the old index merged with the tag; no other file changes |
| Utils.ReleaseFiles | app/generator.py:57-75 | making the release directory and the three writes change only the tag file (written only when absent), `latest.json` and the index |
| Utils.ReleaseIndexKept | app/generator.py:57-71 | making the directory and writing the tag file and `latest.json` leave the index reading as before |
| Generators.PublishFixed | app/generator.py:57-75 | a tree that already holds a publication's files is left unchanged by it |
| Generators.PublishIdempotent | app/generator.py:57-75 | publishing the same release twice leaves the disk as publishing it once |
| Generators.LatestReleaseTag | app/generator.py:52-58 | the release's `tag` is upstream's `tag_name`, and its text is its serialisation |
| Generators.PublishOn | app/generator.py:57-75 | in place, publication ends where `Publish` says |
| Generators.ReleaseStepOn | app/generator.py:52-75 | in place, one repository ends where `ReleaseStep` says |
| Generators.PublishReleaseOn | app/generator.py:53-75 | in place, naming and publishing ends where `PublishRelease` says |
| Generators.ReleasesOn | app/generator.py:46-75 | in place, the generator's loop ends where `Releases` says |
| Generators.AwaitedCallsRaise | app/generator.py:52 | as written, `await` on a synchronous client result raises `TypeError` before any write, for releases, contributors (line 99) and team (line 137) |
| Generators.ReleaseStepPublishes | src/app/generator.py:37-50 | with the result used directly, a release step leaves `latest.json` holding the fetched release, tagged with upstream's `tag_name` |
| Generators.WriteAtEffect | app/generator.py:117-119 | the joined file holds the value, reads back as it, and nothing else changes |
| Generators.WriteAtOn | app/generator.py:117-119 | in place, the write ends where `WriteAt` says |
| Generators.ContributorStepEffect | app/generator.py:97-102 | one step writes exactly its repository's file with the fetched list |
| Generators.ContributorsKeep | app/generator.py:96-102 | a file that no repository of the run names keeps its text |
| Generators.ContributorsWritten | app/generator.py:96-102 | each repository's file holds its contributors unless a later repository with the same name overwrote it |
| Generators.ContributorStepOn | app/generator.py:97-102 | in place, one repository ends where `ContributorStep` says |
| Generators.ContributorsOn | app/generator.py:90-102 | in place, the generator ends where `Contributors` says |
| Generators.ValueOr | app/generator.py:154-155 | a dict gives the key's value or `[]`; a list gives `[]` or fails |
| Generators.DonationsRecord | app/generator.py:153-165 | `donations.json` reads back as exactly `{links, wallets}`, each the configured value or `[]` |
| Generators.ConnectionsOn | app/generator.py:114-119 | in place, the generator ends where `Connections` says |
| Generators.TeamOn | app/generator.py:134-141 | in place, the generator ends where `Team` says |
| Generators.DonationsOn | app/generator.py:153-165 | in place, the generator ends where `Donations` says |
| AnnouncementIds.NewIdFresh | app/generator.py:188-193 | the new id is non-negative, above every stored id, and is 0 or one more than a stored id |
| AnnouncementIds.NewIdOk | app/generator.py:189-192 | when every stored id is an integer, an id is found |
| AnnouncementIds.NewIdFails | app/generator.py:189-192 | the first stored announcement without an integer id decides the exception |
| AnnouncementIds.AllocateId | app/generator.py:189-192 | the loop computes `NewId` |
| AnnouncementIds.NumberedId | app/generator.py:193 | the numbered announcement's `id` is the new id |
| Generators.AnnounceAsWrittenFails | app/generator.py:200-203 | as written the generator always raises, with `IsADirectoryError` on the channel file once the directory is made |
| Generators.AnnounceIndexEffect | app/generator.py:182-197 | the announcement gets the new id and is appended to `announcements.json`, the only file that changes |
| Generators.AnnounceEffect | app/generator.py:181-212 | after the fix, `announcements.json` and the channel list each gain the numbered announcement at the end, both `latest.json` files hold it, and nothing else changes |
| Generators.AnnounceOn | app/generator.py:181-212 | in place, the corrected generator ends where `Announce` says |
| Generators.AnnounceChannelOn | app/generator.py:200-212 | in place, the channel half ends where `AnnounceChannel` says |
| Generators.GenerateOn | app/generator.py:20-29 | in place, `generator.generate(config, path)` ends where `Run` says |
| Generators.GeneratorTable.constructor | app/generator.py:231 | the shared class-level table starts empty |
| Generators.RegisteredLookup | app/generator.py:238-239 | after registration a name is present exactly when it was or some generator has it, an unnamed entry is kept, and the last generator with the name wins |
| Generators.GeneratorProvider.constructor | app/generator.py:233-239 | the provider registers its generators into the shared table, in order |
| Generators.GeneratorProvider.Get | app/generator.py:241-251 | `get(name)` is the table entry when present and `None` otherwise |
| Generators.BothProvidersSeeAll | app/generator.py:253-272 | with both providers built, the table holds exactly the seven generator names, each mapped to its generator, and not `announcement` |
| Generators.NewProviders | app/generator.py:227-272 | the two providers share one table, which holds what both registered |
| Config.DefaultedEffect | app/config.py:7-8 | on a dict the key takes its own value or the default; anything else raises `TypeError` |
| Config.LoadedDefaults | app/config.py:4-10 | a missing file raises `FileNotFoundError` and a non-dict raises `TypeError`; otherwise `output` and `purge` keep their values or take `"static"` and `[]`, and every other key and the key order are kept |
| Config.WithDefaultsAbsent | app/config.py:7-8 | a dict without either key gains `output` and then `purge` at the end |
| Config.LoadConfig | app/config.py:4-10 | the method returns what `Loaded` specifies |
| GenerateCommand.PurgeOne | commands/generate.py:48-51 | the path no longer exists, the disk only shrinks, an absent path changes nothing, and files outside it keep their text |
| GenerateCommand.PurgeAllEffect | commands/generate.py:46-51 | after a purge no listed path exists, the disk only shrinks, and every file not under a listed path keeps its text |
| GenerateCommand.PurgeAllKeepsValid | commands/generate.py:46-51 | purging keeps the disk a tree |
| GenerateCommand.PurgeOn | commands/generate.py:46-51 | in place, `purge` ends where `Purge` says |
| GenerateCommand.ScheduleNames | commands/generate.py:35-40 | scheduling a block raises exactly when some name is a list or dict, and then raises `TypeError` |
| GenerateCommand.ScheduleOneName | commands/generate.py:36-40 | a known name makes one task on its block, any other hashable name makes none, and a list or dict raises |
| GenerateCommand.ScheduleNamesAppend | commands/generate.py:35-40 | the names of a block are scheduled in order, concatenating their tasks |
| GenerateCommand.ScheduleBlocksAppend | commands/generate.py:34-40 | blocks are scheduled in order, concatenating their tasks |
| GenerateCommand.ScheduleNamesOf | commands/generate.py:35-40 | the loop computes `ScheduleNames` |
| GenerateCommand.Schedule | commands/generate.py:34-40 | the nested loops compute `ScheduleBlocks` |
| GenerateCommand.RunTasksAppend | commands/generate.py:42 | tasks run one after another, each from the disk the previous left |
| GenerateCommand.RunTasksOn | commands/generate.py:42 | in place, the tasks end where `RunTasks` says, each task's exception dropped |
| GenerateCommand.GenerateRuns | commands/generate.py:18-43 | a failing output directory raises; otherwise the directory exists, no tasks raise `ValueError`, and the tasks run from the purged disk |
| GenerateCommand.GenerateAll | commands/generate.py:18-43 | in place, the command ends where `Generate` says |
| AnnouncementRecord.AttachmentUrls | commands/announcement.py:29 | no URLs when the option is absent or empty; otherwise the space-separated parts, in order |
| AnnouncementRecord.AnnouncementKeys | commands/announcement.py:24-33 | the announcement has exactly `author`, `title`, `content`, `channel`, `level`, in that order |
| AnnouncementRecord.AnnouncementDefaults | commands/announcement.py:25-32 | the author defaults to `ReVanced` and the level to 0; title and channel are stored verbatim |
| AnnouncementRecord.AnnouncementContent | commands/announcement.py:27-30 | `content` holds the message (`null` when absent) and the attachment URLs |
| AnnouncementCommand.ScheduleConfigFor | commands/generate.py:34-40 | the written block makes one task when its name is registered and none otherwise |
| AnnouncementCommand.CreatedConfigLoads | commands/announcement.py:38-39 | the written `config.json` loads as the configuration plus `output: "static"` and `purge: []` |
| AnnouncementCommand.ConfigForDefaults | app/config.py:7-8 | the command's configuration gains `output` and `purge` at the end |
| AnnouncementCommand.CreatedConfigItems | commands/generate.py:24-34 | `generate` then reads `purge` as `[]`, `output` as `"static"` and the single block |
| AnnouncementCommand.CreatedConfigGenerates | commands/generate.py:18-43 | `generate` after the command: a failing output directory raises, no task raises `ValueError`, and otherwise the one task runs |
| AnnouncementCommand.CreatedConfigRaises | commands/announcement.py:23 | as written, `generate` after the command always raises (`ValueError` once `static` is made) |
| AnnouncementCommand.CreatedConfigFixedAnnounces | app/generator.py:179 | naming `announcements`, `generate` runs exactly the announcements generator on the block |
| SourceApis.DonationVerbatim | src/app/generator.py:109-114 | `donation.json` holds exactly the configured links, and without `links` it raises `KeyError` before writing |
| SourceApis.SocialOn | src/app/generator.py:85-90 | in place, the social API ends where `Social` says |
| SourceApis.DonationOn | src/app/generator.py:109-114 | in place, the donation API ends where `Donation` says |
| SourceApis.GenerateOn | src/app/generator.py:27-114 | in place, `api.generate(config, path)` ends where `Run` says |
| SourceApis.FindApi | src/app/generator.py:122-127 | `get(name)` is `None` exactly when no API has the name; otherwise it is the first API that has it |
| SourceApis.DefaultApiNames | src/app/generator.py:130-140 | the default provider finds exactly `release`, `contributor`, `social`, `team` and `donation`, each named so and all on one client |
| Dispatch.RunOneName | main.py:13-16 | an unknown name changes nothing, and a known one runs its API on the block and the output |
| Dispatch.RunNamesAppend | main.py:12-16 | names run in order, each from the disk the previous left, and an exception stops the rest |
| Dispatch.RunBlocksAppend | main.py:11-16 | blocks run in order in the same way |
| Dispatch.RunNamesOn | main.py:12-16 | in place, one block ends where `RunNames` says |
| Dispatch.RunScript | main.py:1-16 | in place, the script ends where `Script` says, with the default provider |

## Left out

- HTTP: the GitHub responses are an `Api.Upstream` value passed in. The `prerelease` query parameter of `get_release` is not modelled, because it only changes the URL.
- Concurrency: `asyncio` tasks run one after another, in the order they were made. Interleaving at `await` points is not modelled. An exception ends only its own task and is otherwise dropped, as `asyncio.wait` does.
- JSON text: `json.dumps` indentation and the exact JSON syntax are not modelled. `Serial` is an injective stand-in. Because of this, `app/utils.py` and `src/app/utils.py` have one model, since they differ only in indentation.
- Path normalisation: paths are strings joined as `os.path.join` does. `..`, `.` and repeated `/` are not normalised.
- Utils.Format: `f"{v}"` on a list or dict is modelled as `TypeError`. Python would render it, which would give file names that hold brackets.
- Api.Contributors: Python compares counts that are not integers (two strings compare, for instance). The model only compares integers and raises `TypeError` for any other count when there are two or more records.
- Generators.Announce: the generator mutates the announcement inside the shared configuration (`new_announcement["id"] = …`). That aliasing across tasks is not modelled. The numbered copy is written instead.
- RemoveAnnouncementGenerator.generate is a stub in the source, and the model's run changes nothing.
- `get_generators` (imported at `commands/generate.py:9`) is not defined in `app/generator.py`. The command takes the name-to-generator map as a parameter, and `Generators.BothRegistered` gives the map both providers build.
- `main.py` imports `DefaultApiProvider` from `app.generator`, but it is defined in `src/app/generator.py`. The script is modelled with the latter.
- `purge` of an integer: `isdir`/`isfile` would ask about a file descriptor, and the model takes the answer to be no.
- The click command-line parsing, `wire_dependencies` and the dependency-injection container (`app/dependencies.py`) are not modelled. The generators receive the client directly.
- The "Generator … not found." message printed for an unknown name is not modelled (output only).
- `loop.close()` and the event loop's lifetime are not modelled.
- Generators.Generator.Run: runs the generators of `app/generator.py` with the three corrections under "## Findings". It does not `await` the client's synchronous results, and the announcements generator makes the directory `announcements/<channel>`. `Generators.GenerateOn`, `Generators.ReleasesOn`, `Generators.ContributorsOn`, `Generators.TeamOn`, `Generators.AnnounceOn`, `GenerateCommand.GenerateRuns` and `GenerateCommand.GenerateAll` therefore describe the corrected program. As written, the releases and team generators write nothing, the contributors generator only makes its directory, and the announcements generator leaves a directory at `announcements/<channel>.json`. Each of those tasks raises, and `asyncio.wait` drops the exception. Only `Generators.AwaitedCallsRaise` and `Generators.AnnounceAsWrittenFails` state that behaviour. `Dispatch.RunScript` is not affected, because the API classes of `src/app/generator.py` do not `await`.
- JSON numbers (`Json.Num`) are integers. Floats (`1.5` as an id, level or contribution count) are not modelled, and neither is Python's `1 == 1.0 == True`. `Json.AsInt` does count a boolean as an integer.

## Findings

| source | as written | input that shows it | evidently intended | confidence | as-written member | corrected member |
|---|---|---|---|---|---|---|
| app/generator.py:202-203 | `create_if_not_exists` is called on the channel's `.json` file path, which becomes a directory; `read_json` then opens it | any announcement, e.g. channel `"main"`: `announcements/main.json` is made a directory and opening it raises `IsADirectoryError` | make the directory `announcements/<channel>` that line 212 writes into | not executed | Generators.AnnounceAsWrittenFails | Generators.AnnounceEffect |
| commands/announcement.py:23 | the configuration names the generator `"announcement"` | `announcement create --title t --channel c`, then `generate`: no generator is registered under that name (`app/generator.py:179` registers `"announcements"`), no task is made, and `asyncio.wait([])` raises `ValueError` | name the generator `"announcements"` | not executed | AnnouncementCommand.CreatedConfigRaises | AnnouncementCommand.CreatedConfigFixedAnnounces |
| app/generator.py:52 | `await` on the result of the synchronous `GitHubApi.get_release` (also `get_contributor` at line 99 and `get_members` at line 137) | any repository whose release is fetched: a dict is not awaitable, so `TypeError` is raised before anything is written | use the returned value directly, as `src/app/generator.py:37` does | not executed | Generators.AwaitedCallsRaise | Generators.ReleaseStepPublishes |
