# Container Kit core, modelled in Dafny

Container Kit is a desktop application (Tauri and SvelteKit) around Apple's
`container` command-line tool. It also ships release tooling: Node scripts that
build the application and lay out a release tree, and a Go CLI that builds
the application and generates the Rust list of database migrations.
Most of the repository is plumbing: spawning processes, watching files, a SQL
plugin and file copying. Underneath it sit small rule sets, and this project
states them exactly and proves their properties:

- **Migration generators** (`migrations`, `go_migration`, `node_migration`, `numbers`).
  There are three generators: the Go `migration generate` and `migration validate`
  commands, and the TypeScript and JavaScript `MigrationGenerator` copies. Each
  keeps the `.sql` files of a listing, reads a version from the filename prefix,
  sorts by version and prints a fixed Rust template with one line per migration.
  The two number parsers differ: Go `strconv.Atoi` against JS `parseInt`.
  `numbers` models both.
- **CLI output check** (`command_output`). This is `validateCommandOutput`: it
  decides on the exit code and stdout of a `container` run.
- **Command builders** (`container_commands`). These are the argument vectors
  sent to `container` for containers, registry login and logout, DNS domains,
  the default registry and the system service.
- **File-watch events** (`watch_events`, `watchers`). These are the event-kind
  guards, and for each domain watcher the path, the default delay and the
  event filter, plus how the managed watcher wraps callbacks.
- **SQL proxy** (`sql_proxy`). It has three parts:
  - the SELECT classifier;
  - the proxy callback, which dispatches to select or execute, reshapes rows,
    answers `all` or the first row, answers `{rows: []}` on mutations and errors,
    and always closes the connection;
  - a `Connection` class that records what was sent.
- **Database schema and seed** (`db_schema`, `registry_seed`). These are the
  `registry` and `seeds` tables with their unique columns and defaults, and the
  `registries-seed-v1` seed with its idempotence guard. The seed is a `Database`
  class whose method updates both tables. It has the intended effect; as
  written, the seed never takes effect (see Findings).
- **Highlight cache** (`highlight`). This is the memoised code highlighter. It is
  a class over its cache map, with the renderer as a parameter.
- **Route redirect** (`layout`). This is the root `load` redirect rule.
- **Release scripts**:
  - `release_shared` covers the shared helpers: version lookup, URL encoding,
    `.env` parsing, `{{KEY}}` templates, the artifact check, the bundle
    directory guard, and the manifest and index records written to a
    `FileSystem` class.
  - `build_tauri`, `copy_release` and `build_and_copy` cover the three scripts:
    option parsing, sub-script argument vectors and fail-fast step order.
    For each run they state when it completes and which message it fails
    with. For a completed copy they state the release tree it leaves.
  - `go_build` covers the Go `build` command.
- **Shared pieces.** `text` holds the string helpers that the sources borrow
  from their runtimes (split, join, trim, replace). `wrappers` holds `Option`
  and `Result`.

The outside world is always a parameter:
- which paths exist;
- which commands fail, and with what message;
- what a process printed;
- what a directory listing returned;
- the clock, read once for each record that carries a date (the update
  manifest, the index and the README's release date);
- the renderer of the highlighter.

Methods that loop in the source (argument parsing, artifact checks, migration
sorting and duplicate detection, template filling, `.env` loading) are
`while` loops. Each is proved against a function of its inputs.

Each script has its own `parseArgs` over its own options, so `BuildTauri`,
`CopyRelease` and `BuildAndCopy` each carry a flag datatype with the same
rendering and round-trip lemmas; likewise `ReleaseShared.UrlEncode` and
`Highlight.FormatCode` are two source functions over one `Text.ReplaceChar`.
The repetition follows the source.

Where the source text spells a literal, the model sometimes writes it as
named pieces joined together, for example the Rust migration line as
`EntryOpen + version + EntryDescription + …`. The text is the same.

Three behaviours worth spelling out, since a reader might expect otherwise:
- the image watcher fires on data modifications, not metadata ones;
- `registry.name` has no unique constraint, only `registry.url` does;
- the watchers have no debounce logic of their own beyond the delay they pass
  to the file-system plugin.

## Model

| member | source | states |
|---|---|---|
| Numbers.NatToDecimal | cli/cmd/migration.go:336-343 | the decimal text of a version has digits only and no leading zero |
| Numbers.IntToDecimal | cli/cmd/migration.go:336-343 | a printed version is digits with an optional minus sign, with no line break or quote |
| Numbers.DigitsValueOfDecimal | cli/cmd/migration.go:336-343 | reading back the printed digits of n gives n |
| Numbers.Atoi | cli/cmd/migration.go:312-326 | Go `strconv.Atoi` accepts only 64-bit values and rejects empty text, `_` and a leading space |
| Numbers.LeadingDigits | scripts/generate-migrations.ts:31-36 | the digits `parseInt` reads are the longest digit prefix |
| Numbers.AtoiOfDecimal | cli/cmd/migration.go:312-326 | `Atoi` of the decimal text of every 64-bit integer is that integer (round trip) |
| Numbers.ParseIntOfDecimal | scripts/generate-migrations.ts:31-36 | `parseInt` of the decimal text of every integer is that integer (round trip) |
| Numbers.AtoiAgreesWithParseInt | scripts/generate-migrations.ts:31-36 | on a plain digit string in range, Go's and JS's parsers agree on its value |
| Numbers.DigitThenNonDigit | scripts/generate-migrations.ts:31-36 | on a digit followed by a non-digit, `Atoi` fails while `parseInt` returns the first digit |
| Numbers.ParseIntSkipsSpace | scripts/generate-migrations.ts:31-36 | `parseInt` ignores leading white space |
| Text.Split | cli/cmd/migration.go:312-326 | splitting gives at least one piece and no piece holds the separator |
| Text.JoinSplit | scripts/utils/shared.ts:554-559 | joining the split pieces with the separator gives back the text (round trip) |
| Text.SplitAfter | cli/cmd/migration.go:312-326 | text before the first separator is the first piece and the rest splits on its own |
| Text.JoinSplitTail | scripts/utils/shared.ts:554-559 | the pieces after the first, rejoined with `=`, are exactly the text after the first `=` |
| Text.TrimStart | scripts/utils/shared.ts:554-559 | trimming removes exactly a white-space prefix and leaves no leading white space |
| Text.TrimEnd | scripts/utils/shared.ts:554-559 | trimming removes exactly a white-space suffix and leaves no trailing white space |
| Text.IndexOf | scripts/utils/shared.ts:554-559 | the found index is the first occurrence; none is found if and only if the character is absent |
| Text.ReplaceChar | src/lib/helpers/highlight-code.ts:48-50 | replacing a character leaves none of it (when the replacement lacks it) and leaves text without it unchanged |
| Text.ReplaceCharLength | src/lib/helpers/highlight-code.ts:48-50 | each occurrence of the character counts for the replacement's length, every other character for one |
| Text.ReplaceCharAppend | src/lib/helpers/highlight-code.ts:48-50 | replacement distributes over concatenation |
| Text.ReplaceAllAbsent | scripts/utils/shared.ts:641-644 | a global replacement leaves text without the pattern unchanged |
| Migrations.Insert | scripts/generate-migrations.ts:68 | inserting into a sorted list keeps it sorted and adds exactly that migration |
| Migrations.SortByVersion | scripts/generate-migrations.ts:68 | the result is ordered by non-decreasing version and is a permutation of the input |
| Migrations.SortIsStable | scripts/generate-migrations.ts:68 | for every version, the migrations of that version keep their input order (stable sort) |
| Migrations.WithVersionInsert | scripts/generate-migrations.ts:68 | among migrations of one version, an inserted migration comes first, ahead of those already in the list |
| Migrations.Relabel | scripts/generate-migrations.js:59 | relabelling changes each description and nothing else |
| Migrations.RelabelInsert | scripts/generate-migrations.js:59 | relabelling commutes with sorted insertion |
| Migrations.SortRelabel | scripts/generate-migrations.js:69 | sorting then relabelling equals relabelling then sorting |
| Migrations.BodyUnlines | cli/cmd/migration.go:336-343 | the body is the migration lines, each ended by a line break |
| Migrations.SplitUnlines | cli/cmd/migration.go:329-349 | splitting newline-ended lines on `\n` gives the lines back (round trip) |
| Migrations.LineTextOneLine | cli/cmd/migration.go:336-343 | a migration line has no line break when its name and description have none |
| Migrations.NoLineBreaks | cli/cmd/migration.go:329-349 | no header, entry or footer line holds a line break |
| Migrations.RenderedIsUnlines | cli/cmd/migration.go:329-349 | the generated text is header lines, one line per migration in list order, then footer lines |
| Migrations.GeneratedLines | cli/cmd/migration.go:329-349 | splitting the generated text into lines gives the header, one line per migration in order, and the footer |
| Migrations.RenderRust | cli/cmd/migration.go:329-349 | the loop that writes the entries produces exactly the rendered template |
| Migrations.BodySnoc | cli/cmd/migration.go:336-343 | each loop step appends exactly one migration's line |
| GoMigration.Ext | cli/cmd/migration.go:288-290 | `filepath.Ext` is a suffix of the name that starts with `.` and has no further `.` or `/` |
| GoMigration.TrimSuffix | cli/cmd/migration.go:312-326 | trimming a present suffix leaves the text that, followed by the suffix, is the input; otherwise nothing changes |
| GoMigration.SqlExt | cli/cmd/migration.go:288-290 | a `<base>.sql` name has extension `.sql` and stem `<base>` |
| GoMigration.VersionOfSqlName | cli/cmd/migration.go:312-326 | the version of `<base>.sql` is `Atoi` of the text before the first `_`, or 0 |
| GoMigration.NumericPrefixIsVersion | cli/cmd/migration.go:312-326 | a numeric prefix before `_` is the version |
| GoMigration.NonNumericPrefixIsZero | cli/cmd/migration.go:321-324 | a prefix `Atoi` rejects gives version 0 |
| GoMigration.ToMigration | cli/cmd/migration.go:292-300 | a migration's description equals its filename and its version is read from the filename |
| GoMigration.Collect | cli/cmd/migration.go:286-301 | every kept entry is a `.sql` name with description equal to its filename |
| GoMigration.CollectOnlyKept | cli/cmd/migration.go:288-290 | every collected migration comes from a non-directory `.sql` entry |
| GoMigration.CollectKeepsAll | cli/cmd/migration.go:288-290 | every non-directory `.sql` entry is collected |
| GoMigration.ReadMigrationFiles | cli/cmd/migration.go:280-309 | the result is sorted by version and is a permutation of the collected entries (no stability promised) |
| GoMigration.ValidateVersions | cli/cmd/migration.go:428-442 | validation passes if and only if all versions are distinct; the map keeps the first filename seen per version |
| GoMigration.RunMigrationGenerate | cli/cmd/migration.go:218-277 | a missing directory fails; an existing output without `--force` succeeds without writing; an empty list succeeds without writing; otherwise the sorted list is rendered and written |
| GoMigration.RunMigrationValidate | cli/cmd/migration.go:397-445 | fails on a missing directory or unreadable listing; otherwise succeeds with the count if and only if versions are distinct |
| NodeMigration.OutFile | scripts/generate-migrations.ts:13-15 | both copies write a file named `generated_migrations.rs`, in their own output directory |
| NodeMigration.ParsedName | scripts/generate-migrations.ts:31-36 | the name without its extension is a prefix of the filename |
| NodeMigration.Description | scripts/generate-migrations.ts:58 | the TypeScript copy describes a migration by its filename, the JavaScript copy by `init` |
| NodeMigration.CollectKeepsSqlFiles | scripts/generate-migrations.ts:52-58 | every kept migration is a `.sql` file, with the version and description its copy assigns |
| NodeMigration.ReadMigrations | scripts/generate-migrations.ts:42-70 | a missing directory gives no migrations; otherwise the kept files are stably sorted by version |
| NodeMigration.Generate | scripts/generate-migrations.ts:98-130 | the output directory is created when missing; nothing is written when there are no migrations; otherwise the rendered sorted list is written to the output file, and a write error exits 1 |
| NodeMigration.CopiesDifferOnlyInDescription | scripts/generate-migrations.js:53-59 | the JavaScript copy collects the same migrations as the TypeScript copy, relabelled `init` |
| NodeMigration.SortedCopiesAgree | scripts/generate-migrations.js:69 | after sorting, the two copies still differ only in the description |
| NodeMigration.ParsedNameOfSql | scripts/generate-migrations.ts:31-36 | the parsed name of `<base>.sql` is `<base>` |
| NodeMigration.VersionOfSqlName | scripts/generate-migrations.ts:31-36 | the version of `<base>.sql` is `parseInt` of the text before the first `_`, or 0 |
| NodeMigration.VersionsAgreeOnNumericPrefix | scripts/generate-migrations.ts:31-36 | Go and JS read the same version from a numeric prefix |
| NodeMigration.VersionsDifferOnTrailingText | scripts/generate-migrations.ts:31-36 | on a digit then a non-digit before `_`, JS reads the digit and Go reads 0 |
| NodeMigration.SqlSuffixTestsAgree | scripts/generate-migrations.ts:52-54 | Go's extension test and JS's suffix test accept the same names |
| NodeMigration.FiltersAgreeOnFilesAndDirectories | cli/cmd/migration.go:288-290 | the filters agree on files and directories; Go also keeps special `.sql` entries, JS does not |
| CommandOutput.ValidateCommandOutput | src/lib/services/containerization/utils.ts:4-29 | stdout and stderr copied; error exactly when the code is null or stdout is empty; the signal message first, then the stdout message, else success |
| CommandOutput.NativeError | src/lib/services/containerization/registry/auth.ts:23-27 | a failed native call gives an error record with the message as stderr and no message |
| CommandOutput.SignalCheckFirst | src/lib/services/containerization/utils.ts:5-12 | with a null code, stdout does not change the verdict or the message |
| CommandOutput.OnlyPresenceOfCodeMatters | src/lib/services/containerization/utils.ts:23-28 | a non-zero code, stderr and signal do not change the verdict |
| CommandOutput.NativeErrorIsNotValidated | src/lib/services/containerization/registry/auth.ts:23-27 | a native error record is never a validated output |
| ContainerCommands.ListContainersInvocation | src/lib/services/containerization/containers.ts:10 | listing runs `container ls -a --format json` |
| ContainerCommands.GetAllContainers | src/lib/services/containerization/containers.ts:9-13 | the listing result is the validated output of that command |
| ContainerCommands.ContainerActionInvocation | src/lib/services/containerization/containers.ts:15-31 | start, stop and remove send their verb and the id, and nothing else |
| ContainerCommands.RunContainerAction | src/lib/services/containerization/containers.ts:15-31 | an action's result is the validated output of its command |
| ContainerCommands.ActionsDistinct | src/lib/services/containerization/containers.ts:15-31 | different actions send different commands |
| ContainerCommands.LoginArgs | src/lib/services/containerization/registry/auth.ts:6-15 | login sends eight arguments, with the username, `--password-stdin`, the scheme (default `auto`) and the registry |
| ContainerCommands.LoginInvocation | src/lib/services/containerization/registry/auth.ts:17 | the password goes to stdin |
| ContainerCommands.PasswordNotInArgs | src/lib/services/containerization/registry/auth.ts:6-17 | the argument vector does not depend on the password |
| ContainerCommands.RegistryLogin | src/lib/services/containerization/registry/auth.ts:5-28 | a native success is validated; a native failure becomes the error record |
| ContainerCommands.LogoutInvocation | src/lib/services/containerization/registry/auth.ts:31 | logout sends `registry logout <registry>` |
| ContainerCommands.CreateDnsInvocation | src/lib/services/containerization/dns.ts:9 | DNS creation runs `container s dns create <domain>` elevated |
| ContainerCommands.CreateDns | src/lib/services/containerization/dns.ts:8-19 | a native success is validated; a native failure becomes the error record |
| ContainerCommands.ListDnsInvocation | src/lib/services/containerization/dns.ts:25 | DNS listing sends `s dns ls` |
| ContainerCommands.NativeFailureIsError | src/lib/services/containerization/dns.ts:14-18 | a native failure always reports an error, and a success of login implies the native call succeeded |
| ContainerCommands.DefaultRegistryInvocation | src/lib/services/containerization/registry/default.ts:4-20 | inspect, set and unset send `registry default` with their verb and the registry |
| ContainerCommands.ServiceInvocation | src/lib/services/containerization/system/service.ts:4-20 | start, stop and status send `s` and their verb |
| ContainerCommands.RunPlain | src/lib/services/containerization/system/service.ts:4-20 | a plain command succeeds exactly when its code is present and stdout is non-empty |
| WatchEvents.Encode | src/lib/services/fs-events/utils.ts:1 | every typed event kind is encoded as an event object with one tag |
| WatchEvents.GuardsMatchKinds | src/lib/services/fs-events/utils.ts:7-103 | each guard holds on an encoded event exactly for its own kind (both directions) |
| WatchEvents.DataMetadataExclusive | src/lib/services/fs-events/utils.ts:18-36 | no event is both a data and a metadata modification |
| WatchEvents.SpecificModifyIsModify | src/lib/services/fs-events/utils.ts:43-55 | a data or metadata modification is a modification |
| WatchEvents.SingleTagExclusive | src/lib/services/fs-events/utils.ts:60-103 | on a single-tag event, create, remove, access and modify exclude each other |
| WatchEvents.NonObjectMatchesNothing | src/lib/services/fs-events/utils.ts:10-13 | an absent, null or string type matches no guard |
| Watchers.ContainerDataDirRequest | src/lib/services/fs-events/watch.ts:43-51 | the path is under the app data directory, with the default delay 1000 and non-recursive |
| Watchers.ResolverDirRequest | src/lib/services/fs-events/watch.ts:59-66 | the resolver watch is `/etc/resolver` with no base directory and the same defaults |
| Watchers.ManagedDelivery | src/lib/services/fs-events/watch.ts:17-23 | a callback error is logged with the path and never propagates |
| Watchers.ManagedSetup | src/lib/services/fs-events/watch.ts:31-34 | a setup failure is logged and passed on unchanged; a success logs nothing |
| Watchers.DomainDefaultDelay | src/lib/services/fs-events/containers.ts:12 | containers and images default to 2000 ms, the others to 1000 ms |
| Watchers.DomainRequest | src/lib/services/fs-events/dns.ts:10-51 | each domain watcher watches its own directory (the resolver `/etc/resolver`), non-recursively, with its default delay |
| Watchers.HandleEvent | src/lib/services/fs-events/dns.ts:34-51 | the callback runs exactly when the filter fires; only the resolver watcher passes the event; errors never propagate |
| Watchers.DomainFilters | src/lib/services/fs-events/containers.ts:17 | which event kinds fire each watcher (both directions) |
| Watchers.NoWatcherSeesAccess | src/lib/services/fs-events/network.ts:17 | no watcher fires on access or on metadata modification |
| Watchers.NetworkFiresOnlyWhenContainersFire | src/lib/services/fs-events/images.ts:17 | the network and image filters imply the container filter; DNS and containers fire alike |
| SqlProxy.IsSelectQuery | src/lib/db/index.ts:5-9 | a statement is a SELECT exactly when, after blanks, it starts with `select` in any case followed by a non-word character or the end |
| SqlProxy.KeywordOnlyAfterBlanks | src/lib/db/index.ts:5-9 | the keyword can only sit right after the leading blanks |
| SqlProxy.Connection.Select | src/lib/db/index.ts:18-19 | a select is recorded and its answer returned |
| SqlProxy.Connection.Execute | src/lib/db/index.ts:20-22 | an execute is recorded and its answer returned |
| SqlProxy.Connection.Close | src/lib/db/index.ts:40-41 | closing keeps the record of what was sent |
| SqlProxy.Values | src/lib/db/index.ts:33 | a row becomes its field values in field order |
| SqlProxy.AllValues | src/lib/db/index.ts:33 | each row is reshaped in order |
| SqlProxy.Proxy | src/lib/db/index.ts:12-45 | exactly one statement is sent (select or execute, by the classifier) and the connection ends closed |
| SqlProxy.MutationReturnsNoRows | src/lib/db/index.ts:20-25 | a non-SELECT returns `{rows: []}` |
| SqlProxy.ErrorReturnsNoRows | src/lib/db/index.ts:36-39 | any error returns `{rows: []}` |
| SqlProxy.SelectShapes | src/lib/db/index.ts:33-35 | `all` returns every reshaped row; otherwise the first row or none |
| SqlProxy.SelectAfterBlanks | src/lib/db/index.ts:5-9 | leading blanks and mixed case still classify as SELECT |
| SqlProxy.WordCharAfterKeyword | src/lib/db/index.ts:5-9 | `select` followed by a word character is not a SELECT |
| DbSchema.FillRegistry | src/lib/db/schema.ts:4-10 | an inserted registry row keeps the given name and url |
| DbSchema.FillSeed | src/lib/db/schema.ts:12-16 | an inserted seed row keeps the given name |
| DbSchema.RegistryDefaults | src/lib/db/schema.ts:8-9 | omitted registry flags default to false and the id is generated |
| DbSchema.SeedDefaults | src/lib/db/schema.ts:15 | an omitted `applied` defaults to false |
| DbSchema.InsertRows | src/lib/db/schema.ts:5-14 | a failed insert names the violated unique column |
| DbSchema.InsertRowsKeepsUnique | src/lib/db/schema.ts:5-14 | an insert succeeds exactly when the unique columns stay unique, and then appends the rows |
| DbSchema.RegistryNamesMayRepeat | src/lib/db/schema.ts:6 | two registries may share a name |
| DbSchema.RegistryUrlsMayNotRepeat | src/lib/db/schema.ts:7 | a second registry with a taken url is refused on `registry.url` |
| RegistrySeed.FindFirst | src/lib/db/seeds/registery.ts:18-22 | the lookup finds a row with that name, and finds none exactly when no row has it |
| RegistrySeed.Database.AddRegistriesSeedV1 | src/lib/db/seeds/registery.ts:17-36 | the tables change exactly as the intended seed effect says (both inserts committed together), and not at all on failure |
| RegistrySeed.SeedWrites | src/lib/db/seeds/registery.ts:28-35 | an unapplied seed adds the Docker registry as default and an applied seed record |
| RegistrySeed.SeedKeepsValid | src/lib/db/seeds/registery.ts:28-35 | the seed keeps every unique constraint |
| RegistrySeed.SeedIdempotent | src/lib/db/seeds/registery.ts:24-26 | after a successful seed, running it again changes nothing |
| RegistrySeed.FindFirstAfterAbsent | src/lib/db/seeds/registery.ts:18-22 | after the seed record is added, the lookup finds it |
| RegistrySeed.UnappliedSeedRowBlocks | src/lib/db/seeds/registery.ts:24-35 | an existing unapplied seed record makes the seed fail on the unique name |
| RegistrySeed.SeedAsWrittenNeverApplies | src/lib/db/seeds/registery.ts:32-35 | as written the unawaited inserts leave the tables unchanged, so the seed is never marked applied, while the intended effect adds the Docker registry |
| Highlight.FormatCode | src/lib/helpers/highlight-code.ts:48-50 | formatted code holds no tab and tab-free code is unchanged |
| Highlight.FormatCodeLength | src/lib/helpers/highlight-code.ts:48-50 | each tab becomes two spaces, so the text grows by one character per tab |
| Highlight.FormatCodeAppend | src/lib/helpers/highlight-code.ts:48-50 | formatting distributes over concatenation |
| Highlight.HighlightCache.HighlightCode | src/lib/helpers/highlight-code.ts:12-46 | the result and the new cache are those of the memo rule, and no key is lost |
| Highlight.HitSkipsRenderer | src/lib/helpers/highlight-code.ts:16-17 | a non-empty cached entry is returned without rendering |
| Highlight.CacheOnlyGrows | src/lib/helpers/highlight-code.ts:43 | the cache gains exactly the code's key, keeps every other entry and stores the returned html |
| Highlight.SecondCallReturnsFirstHtml | src/lib/helpers/highlight-code.ts:12-46 | a second call for the same code returns the first html without rendering, whatever the language |
| Highlight.EmptyEntryIsMiss | src/lib/helpers/highlight-code.ts:16-21 | an empty cached entry is rendered again |
| Layout.Load | src/routes/+layout.ts:7-15 | every redirect is a 301 |
| Layout.LoadCases | src/routes/+layout.ts:7-15 | unsupported systems go to the unsupported page, `/` goes home on supported ones, and nothing else redirects (each both ways) |
| Layout.RedirectTargetIsFinal | src/routes/+layout.ts:7-15 | loading a redirect's target does not redirect again |
| ReleaseShared.ValidateProjectStructure | scripts/utils/shared.ts:493-506 | passes exactly when the Tauri config and `package.json` exist, with the source's message otherwise |
| ReleaseShared.CheckRequiredTools | scripts/utils/shared.ts:511-527 | passes exactly when every tool probe works; otherwise names the first tool that does not answer |
| ReleaseShared.ExecuteCommand | scripts/utils/shared.ts:238-256 | succeeds exactly when the command does not fail; the error is the description and the failure |
| ReleaseShared.GetVersion | scripts/utils/shared.ts:130-156 | a non-empty override wins without reading the config; otherwise the config version; the result is never empty |
| ReleaseShared.UrlEncode | scripts/utils/shared.ts:168-170 | the result has no space and space-free text is unchanged |
| ReleaseShared.DecodeEncode | scripts/utils/shared.ts:168-170 | decoding `%20` back to spaces gives the original text (round trip) |
| ReleaseShared.UrlEncodeLength | scripts/utils/shared.ts:168-170 | each space grows the text by two characters, nothing else changes length |
| ReleaseShared.UrlEncodeOneSpace | scripts/utils/shared.ts:168-170 | one space becomes `%20` in place |
| ReleaseShared.ParseEnvLineMeaning | scripts/utils/shared.ts:554-559 | a line counts exactly when it has `=` after a non-empty start; key and value are the trimmed text before and after the first `=` |
| ReleaseShared.ParsedLines | scripts/utils/shared.ts:554-559 | every line is parsed on its own, in order |
| ReleaseShared.AssignDefined | scripts/utils/shared.ts:554-562 | a key is set exactly when some line sets it |
| ReleaseShared.AssignLastWins | scripts/utils/shared.ts:554-562 | a key's value comes from the last line that sets it |
| ReleaseShared.ParseEnvFile | scripts/utils/shared.ts:546-564 | the parsing loop yields the specified variables |
| ReleaseShared.Environment.LoadEnvironmentVariables | scripts/utils/shared.ts:546-564 | with no file nothing changes; otherwise the file's variables overwrite the environment |
| ReleaseShared.Placeholder | scripts/utils/shared.ts:641-644 | a placeholder starts with `{` |
| ReleaseShared.ProcessTemplate | scripts/utils/shared.ts:633-652 | an unreadable template fails with its path; otherwise every replacement is applied in order |
| ReleaseShared.ReplaceSkipsPlainText | scripts/utils/shared.ts:641-644 | replacing a `{`-pattern leaves brace-free text in front untouched |
| ReleaseShared.FillsEveryPlaceholder | scripts/utils/shared.ts:641-644 | every occurrence of `{{KEY}}` between brace-free pieces is replaced by the value |
| ReleaseShared.FirstMissing | scripts/utils/shared.ts:279-292 | finds the first path that does not exist, or none when all exist |
| ReleaseShared.CheckBuildArtifacts | scripts/utils/shared.ts:261-296 | passes exactly when all four artifacts exist; otherwise reports the first missing one in the order dmg, app bundle, signature, app |
| ReleaseShared.ValidateBundleFiles | scripts/utils/shared.ts:454-488 | passes exactly when all seven required files exist; otherwise names the first missing one in the order the check lists them |
| ReleaseShared.RequiredFilesAreWritten | scripts/utils/shared.ts:459-474 | every required file is one the copy steps write |
| ReleaseShared.ManifestContents | scripts/utils/shared.ts:359-369 | the manifest carries the version, the timestamp and the trimmed signature |
| ReleaseShared.ManifestUrl | scripts/utils/shared.ts:366 | the manifest url is `<domain>/<version>/macos/Container%20Kit.app.tar.gz` |
| ReleaseShared.ManifestNotes | scripts/utils/shared.ts:359-369 | the notes start with `Container Kit v<version>` |
| ReleaseShared.IndexContents | scripts/utils/shared.ts:406-439 | the index names the version as latest, has exactly that version, equal creation and update times, and the manifest link |
| ReleaseShared.EndpointIgnoresVersion | scripts/utils/shared.ts:431 | the endpoint keeps the literal `{version}` placeholder |
| ReleaseShared.IndexDmgLink | scripts/utils/shared.ts:406-439 | the DMG link is the URL-encoded `_aarch64.dmg` name under the version |
| ReleaseShared.FileSystem.CreateBundleStructure | scripts/utils/shared.ts:301-327 | an existing version directory without `--force` fails before anything is created; a failed `mkdir` reports its error; otherwise the three directories exist |
| ReleaseShared.FileSystem.CopyArtifacts | scripts/utils/shared.ts:332-347 | on success the four artifacts are copied into the macos directory; on failure nothing changes and the copy error is reported |
| ReleaseShared.FileSystem.CreateUpdateManifest | scripts/utils/shared.ts:352-379 | completes exactly when the signature is read and the manifest written, and then exactly the manifest is written; a failed read throws its error, since the read sits outside the `try`; a failed write exits 1 with its message; on failure nothing changes |
| ReleaseShared.FileSystem.UpdateIndex | scripts/utils/shared.ts:384-449 | reads the config again first, with no guard: a failed read throws its error and changes nothing; otherwise an existing index is backed up, then the new index, carrying the config's updater key, is written, or the write error exits 1 with the backup kept |
| ReleaseShared.FileSystem.WriteText | scripts/copy-build-files-to-release.ts:140-147 | a write sets exactly that file, or fails with the message and changes nothing |
| BuildTauri.ParseArgs | scripts/build-tauri.ts:70-104 | the parsing loop gives the specified outcome |
| BuildTauri.RenderAppend | scripts/build-tauri.ts:78-101 | rendering flags works flag by flag |
| BuildTauri.ParseRender | scripts/build-tauri.ts:78-101 | parsing rendered flags gives the options those flags set (round trip) |
| BuildTauri.ApplyAppend | scripts/build-tauri.ts:78-101 | flags take effect left to right |
| BuildTauri.HelpUnknownAndMissingValue | scripts/build-tauri.ts:91-101 | `-h` shows help; an unknown option is reported; a trailing `-t` leaves the target undefined |
| BuildTauri.BuildCommandWords | scripts/build-tauri.ts:144 | the build command is the words `tauri build --target <target>` |
| BuildTauri.BuildCommandSpaced | scripts/build-tauri.ts:144 | the build command is the four words joined by spaces |
| BuildTauri.PrepareDependencies | scripts/build-tauri.ts:125-135 | runs `pnpm install` then `pnpm db:generate`, stopping at the first failure with its message |
| BuildTauri.BuildApp | scripts/build-tauri.ts:137-174 | succeeds exactly when the build command works, the target is defined and the bundle, dmg and macos directories exist; each failure carries the source's message |
| BuildTauri.MissingOfMeaning | scripts/build-tauri.ts:195-204 | a path is reported missing exactly when it is expected and absent |
| BuildTauri.ValidateBuildArtifacts | scripts/build-tauri.ts:176-211 | all missing artifacts are reported, in order, and the check passes exactly when none is missing |
| BuildTauri.WrittenDmgDisagreesWithCopyCheck | scripts/build-tauri.ts:189 | as written, the expected DMG name differs from the one the copy step requires |
| BuildTauri.ExpectedArtifactsMatchCopyCheck | scripts/utils/shared.ts:272-277 | with the architecture label, the build check expects the files the copy step requires |
| BuildTauri.DefaultDmgName | scripts/utils/shared.ts:273 | for the default target the corrected DMG name is the copy step's |
| BuildTauri.AarchDmgName | scripts/utils/shared.ts:273 | the `aarch64` DMG name is the copy step's name |
| BuildTauri.DmgNameForTriple | scripts/build-tauri.ts:189 | the corrected DMG name uses the architecture before the first `-` |
| BuildTauri.BuildMain | scripts/build-tauri.ts:259-316 | help exits 0 and an unknown option 1 with its message; with the options read, the run completes exactly when the version, the checks, every command and every expected artifact pass, and otherwise ends with the first failing step's message |
| BuildTauri.RunWith | scripts/build-tauri.ts:266-315 | once the options are read: completes exactly when every check, command and artifact passes, and otherwise ends with the first failing step's message |
| BuildTauri.Preflight | scripts/build-tauri.ts:110-123 | passes exactly when the project structure and every tool check pass; a bad layout or the first missing tool gives its message |
| BuildTauri.Workflow | scripts/build-tauri.ts:296-310 | completes exactly when the dependency commands (unless skipped), the build and every expected artifact pass; otherwise the first failing step decides the exit and its message |
| BuildTauri.BuildAndValidate | scripts/build-tauri.ts:303-310 | completes exactly when the build works and every expected artifact exists; a failed build ends with its message (prefixed `Build workflow failed: ` only where the undefined target throws), missing artifacts with the validation message |
| CopyRelease.ParseArgs | scripts/copy-build-files-to-release.ts:77-112 | the parsing loop gives the specified outcome |
| CopyRelease.RenderAppend | scripts/copy-build-files-to-release.ts:85-109 | rendering flags works flag by flag |
| CopyRelease.ParseRender | scripts/copy-build-files-to-release.ts:85-109 | parsing rendered flags gives the options those flags set (round trip) |
| CopyRelease.ApplyAppend | scripts/copy-build-files-to-release.ts:85-109 | flags take effect left to right |
| CopyRelease.ApplyKeepsDomain | scripts/copy-build-files-to-release.ts:85-109 | flags other than `-d` keep the domain |
| CopyRelease.LastDomainWins | scripts/copy-build-files-to-release.ts:87-90 | the last `-d` sets the domain |
| CopyRelease.HelpAndUnknown | scripts/copy-build-files-to-release.ts:99-107 | `-h` shows help and an unknown option is reported |
| CopyRelease.ReleaseDateOfTimestamp | scripts/copy-build-files-to-release.ts:132 | the release date is the part of the ISO timestamp before `T` |
| CopyRelease.ReadmeReplacements | scripts/copy-build-files-to-release.ts:129-136 | the six README keys in the source's order |
| CopyRelease.UpdateReadme | scripts/copy-build-files-to-release.ts:114-148 | on success exactly README.md is written with the filled template; on failure nothing changes and the template or write error is reported |
| CopyRelease.PlainTextHasNoPlaceholder | scripts/utils/shared.ts:641-644 | brace-free text holds no placeholder |
| CopyRelease.LaterReplacementsKeep | scripts/utils/shared.ts:641-644 | once no `{` is left, later replacements change nothing |
| CopyRelease.ReadmeFillsVersion | scripts/copy-build-files-to-release.ts:129-138 | a template whose only placeholders are `{{VERSION}}` gets the version everywhere |
| CopyRelease.Preflight | scripts/copy-build-files-to-release.ts:160-171 | options, project check, version and artifact check in order; nothing is written; passes exactly when a plan is reached; help exits 0, each failing check exits 1 with its message, the artifact check naming the first missing file |
| CopyRelease.WriteBundle | scripts/copy-build-files-to-release.ts:173-185 | completes exactly when the bundle is new or `--force` is given and every write succeeds, leaving the tree `BundleWritten`; an existing bundle stops before any write; otherwise ends as `BundleExit`: the first failure, thrown for an unguarded read and exit 1 for a write |
| CopyRelease.BundleExit | scripts/utils/shared.ts:352-404 | a failing write ends the run with exit 1, except the two unguarded reads, the copied signature and the config that `updateIndex` reads again, which throw; the run throws exactly when one of those is its first failure, and the thrown message is the read's own error |
| CopyRelease.ThrowsOnlyWithOverride | scripts/utils/shared.ts:130-156 | a throwing run never completes and ends in exactly that throw; the config read at the index can throw only when `--version` gave a non-empty version, since otherwise `getVersion` reads the same config first and exits |
| CopyRelease.MakeBundle | scripts/copy-build-files-to-release.ts:173-177 | creates the directories and copies the artifacts: completes exactly when the bundle is new or forced and neither step fails; an existing bundle changes nothing; otherwise the failing step's message |
| CopyRelease.WriteRecords | scripts/copy-build-files-to-release.ts:180-185 | completes exactly when the signature is read, the manifest written, the config read again and the index and README written, leaving the tree `RecordsWritten`; otherwise ends as the first failure: a failed signature or config read throws its error, a failed write exits 1 with its message |
| CopyRelease.WriteIndexAndReadme | scripts/copy-build-files-to-release.ts:181-185 | completes exactly when the config is read again and the index and the README are written, leaving the tree `IndexWritten`; a failed config read throws its error before anything changes; otherwise the first failing write exits 1 with its message |
| CopyRelease.FinishBundle | scripts/copy-build-files-to-release.ts:182-185 | completes exactly when the template is read and the README written, leaving the tree `ReadmeWritten`; a failure changes nothing and gives its message |
| CopyRelease.CopyMain | scripts/copy-build-files-to-release.ts:154-189 | completes exactly when the checks pass, the bundle is new or forced and every write succeeds, and then the release tree is `BundleWritten`; every other run ends as the first failing check or write (`RunExit`), which is a thrown error exactly for the unguarded signature and config reads (`WritesThrow`); nothing changes before the bundle is created |
| CopyRelease.BundleComplete | scripts/copy-build-files-to-release.ts:174-185 | after the copy steps, every required file exists |
| CopyRelease.BundleWrittenContents | scripts/copy-build-files-to-release.ts:173-182 | after a completed run the copies, the manifest, the index and the README hold what the run wrote, the three directories exist, an earlier index survives as the backup, and every other path is unchanged |
| CopyRelease.BundleKeys | scripts/copy-build-files-to-release.ts:173-182 | the paths after a completed run are the old ones, the directories, the copies, the three records and the backup when an index existed |
| CopyRelease.BundleRecords | scripts/copy-build-files-to-release.ts:180-182 | after a completed run the manifest, the index and the README hold what was written |
| CopyRelease.BundleCopies | scripts/copy-build-files-to-release.ts:176-177 | after a completed run the four copies hold the copied artifacts |
| CopyRelease.BundleBackup | scripts/utils/shared.ts:397-404 | after a completed run an index that existed before is kept as the backup |
| CopyRelease.BundleKeepsOthers | scripts/copy-build-files-to-release.ts:173-182 | a completed run leaves every path it does not write as it was |
| CopyRelease.RecordsWrite | scripts/copy-build-files-to-release.ts:180-182 | the records stage writes the manifest, the index and the README, whatever tree it starts from |
| CopyRelease.RecordsKeep | scripts/copy-build-files-to-release.ts:180-182 | the records stage leaves every path it does not write as it was |
| CopyRelease.RecordsBackUp | scripts/utils/shared.ts:397-404 | the records stage keeps an index it finds as the backup |
| CopyRelease.IndexUntouchedBeforeRecords | scripts/copy-build-files-to-release.ts:173-177 | creating the bundle and copying leave `index.json` as it was |
| CopyRelease.StageKeepsBefore | scripts/utils/shared.ts:301-347 | creating the bundle and copying leave every path they do not copy to as it was |
| CopyRelease.CopiesAreNotRecords | scripts/utils/shared.ts:332-347 | no copied artifact lands on the manifest, the index, the backup or the README |
| BuildAndCopy.ParseArgs | scripts/build-and-copy-to-release.ts:78-130 | the parsing loop gives the specified outcome |
| BuildAndCopy.ParseRender | scripts/build-and-copy-to-release.ts:90-127 | parsing rendered flags gives the options those flags set (round trip) |
| BuildAndCopy.ApplyAppend | scripts/build-and-copy-to-release.ts:90-127 | flags take effect left to right |
| BuildAndCopy.ApplyKeeps | scripts/build-and-copy-to-release.ts:91-103 | flags for other options keep a value option |
| BuildAndCopy.LastValueWins | scripts/build-and-copy-to-release.ts:91-103 | the last `-v`, `-d` or `-t` sets its option |
| BuildAndCopy.SwitchSetsOnlyItsOwn | scripts/build-and-copy-to-release.ts:104-115 | `-f` and the skip switches set their own flag and nothing else |
| BuildAndCopy.HelpAndUnknown | scripts/build-and-copy-to-release.ts:117-126 | `-h` shows help and an unknown option is reported |
| BuildAndCopy.BuildArgs | scripts/build-and-copy-to-release.ts:145-155 | the build argv is `-v` when given, `-t` only off the default target, and `--skip-deps` when set |
| BuildAndCopy.CopyArgs | scripts/build-and-copy-to-release.ts:182-192 | the copy argv is `-v` when given, `-d` only off the default domain, and `-f` exactly when forced |
| BuildAndCopy.BuildScriptReadsItsOptions | scripts/build-and-copy-to-release.ts:136-171 | the build script parses back exactly the requested version, target and switch |
| BuildAndCopy.CopyScriptReadsItsOptions | scripts/build-and-copy-to-release.ts:173-208 | the copy script parses back exactly the requested version, domain and switch |
| BuildAndCopy.SubScriptsResolveSameVersion | scripts/build-and-copy-to-release.ts:147-149 | the sub-scripts resolve the same version the orchestrator resolved |
| BuildAndCopy.ExecuteBuildTauri | scripts/build-and-copy-to-release.ts:136-171 | the sub-run completes exactly when the build script completes when told the version, target and switch, and otherwise ends as that run does; a completed sub-run restores argv |
| BuildAndCopy.ExecuteCopyBuildFiles | scripts/build-and-copy-to-release.ts:173-208 | the sub-run completes exactly when the copy script completes when told the version, domain and switch, then leaving the tree `BundleWritten`, and otherwise ends as that run does, thrown error included; argv is restored unless the copy script exits the process |
| BuildAndCopy.ToldPlan | scripts/build-and-copy-to-release.ts:184-186 | a copy run told a version plans with exactly that version |
| BuildAndCopy.ReleaseMain | scripts/build-and-copy-to-release.ts:279-346 | help exits 0 and an unknown option 1; build only without `--skip-build`, copy only without `--skip-copy`, build first; the run completes exactly when the version resolves and both sub-runs that are not skipped complete, and otherwise ends as the first failing one, an error the copy throws exiting 1 with `Release workflow failed: `; never ends in a throw; skipping the copy writes nothing |
| BuildAndCopy.RunRelease | scripts/build-and-copy-to-release.ts:283-345 | a version that does not resolve stops the run with its message; otherwise the run completes exactly when the sub-runs that are not skipped complete, and ends as the first failing one (`SubScriptsExit`); never ends in a throw |
| BuildAndCopy.RunSubScripts | scripts/build-and-copy-to-release.ts:324-345 | the build unless skipped, then the copy unless skipped, then the summary; completes exactly when both complete, otherwise ends as the first failing sub-run, where an error the copy throws is caught and exits 1 with `Release workflow failed: ` and its message; never ends in a throw |
| BuildAndCopy.RunBuildStep | scripts/build-and-copy-to-release.ts:326-330 | without `--skip-build` the step ends as the build script's run; skipped, it runs nothing |
| BuildAndCopy.RunCopyStep | scripts/build-and-copy-to-release.ts:333-340 | without `--skip-copy` the step ends as the copy script's run, a thrown error passed on as thrown; skipped, it writes nothing |
| GoBuild.EffectiveTarget | cli/cmd/build.go:62-65 | an empty target becomes the default; a given one is kept |
| GoBuild.ValidateTauriProject | cli/cmd/build.go:92-112 | checks `src-tauri`, then the config, then `package.json`, with each message; passes exactly when none is missing |
| GoBuild.OtherStatErrorsPass | cli/cmd/build.go:95-108 | stat errors other than not-exist do not fail the check |
| GoBuild.TauriArgs | cli/cmd/build.go:132-142 | `tauri build`, then `--target <t>` unless empty or `universal`, then `--debug` in debug mode |
| GoBuild.TauriArgsFlags | cli/cmd/build.go:132-142 | `--target` and `--debug` appear exactly when they apply |
| GoBuild.DefaultTauriBuild | cli/cmd/build.go:62-65 | with no target the build runs `pnpm tauri build --target aarch64-apple-darwin` |
| GoBuild.RunBuild | cli/cmd/build.go:115-162 | install, frontend build and Tauri build in order; the first failure stops with its context |
| GoBuild.Run | cli/cmd/build.go:56-80 | an invalid project runs nothing; otherwise the build succeeds exactly when every command works |

## Left out

- I/O is a parameter or left out: process spawning, the file system, sleeps, printing, log lines and the summaries the scripts print (`showBuildSummary`, `showBundleSummary`, `showReleaseSummary`, the usage text).
- Timing is left out: the two-second pause before the release workflows, and the watchers' delay beyond being passed to the plugin.
- `formatBytes` and the sizes in the README replacements are left out because they use floating point; the sizes are given as text.
- `isSupportedVersion` is left out because it uses floating point; the layout rule takes its verdict as a parameter.
- Integers are unbounded. JS numbers beyond 2^53 are not modelled.
- In `processTemplate`, a `$` pattern inside a replacement value is not interpreted; the value is inserted as is.
- `path.join` normalisation of `..` and doubled slashes is not modelled; paths are joined with `/`.
- Cobra flag wiring is left out; flag values are parameters.
- `runMigrationList` and `runMigrationStatus` are left out; they only print.
- The UUID generator is left out; generated ids are parameters.
- `createContainer` is left out; it is an empty stub.
- A partly completed copy is not modelled; copying artifacts succeeds or fails as a whole.
- `validateBundle` checks that the JSON files parse; the model checks only that the files exist.
- A non-string `version` in the Tauri config is not modelled; the config read is a parameter. `getVersion` and `updateIndex` read the same file at different moments; one value stands for both reads.
- CopyRelease.CopyMain: a `Threw` end is `main`'s promise rejecting. Run on its own, the script then exits 1 through the `unhandledRejection` handler of scripts/utils/shared.ts:617-620, which logs `Unhandled Rejection: ` with the error's class name and message; that handler is not modelled, and the model stops at `Threw`.
- ReleaseShared.FileSystem.UpdateIndex: the backup copy of an existing index (scripts/utils/shared.ts:402) is not guarded and can throw; the model's backup always succeeds, because whether it runs depends on the tree at that moment and a failure would make every exit above depend on it too.
- CopyRelease.BundleExit: its throwing cases are the signature read and the config read; the throw of a failed index backup is not among them (see `ReleaseShared.FileSystem.UpdateIndex` above), nor is it in `CopyRelease.WriteIndexAndReadme`, `WriteRecords`, `WriteBundle`, `CopyMain` or the release's sub-run.
- Other failures of the outside world that the model leaves out: `os.Getwd` failing in the Go migration commands (cli/cmd/migration.go:221, 355, 400, 452), `Database.load` rejecting in src/lib/db/index.ts:13, and the highlighter promise rejecting in src/lib/helpers/highlight-code.ts:19.
- ReleaseShared.ConfigReadError: a missing config gives Node's `ENOENT` message for the path; any other read or parse failure is a parameter carrying its message as given.
- `checkEnvironment` in `buildTauri` is left out; it only prints a warning about `.env`.
- `loadEnvironmentVariables` in `buildTauri` is not linked into the build steps; it is modelled on its own.
- `path.relative` in the log messages is left out.
- Errors a sub-script throws are modelled as exits with code 1 of that step.
- RegistrySeed.Database.AddRegistriesSeedV1: models the intended effect, both inserts committed in one transaction. As written the inserts are never awaited, so the seed never takes effect (see Findings).
- A rejection of the watch promise after setup is not modelled.
- The code highlighter's rendering is an abstract function.
- BuildAndCopy.ReleaseMain: states the release tree after a completed copy only through `BuildAndCopy.ExecuteCopyBuildFiles`. Its own contract says only that skipping the copy writes nothing.
- BuildAndCopy.RunRelease: the same as `ReleaseMain`; the tree after a completed copy is stated one level down.
- BuildAndCopy.RunSubScripts: the same as `ReleaseMain`; the tree after a completed copy is stated one level down.
- BuildAndCopy.RunCopyStep: the same as `ReleaseMain`; the tree after a completed copy is stated one level down.
- BuildTauri.BuildAndValidate: checks for the DMG under the corrected name (`ExpectedArtifacts`, named after the architecture), not the name scripts/build-tauri.ts:189 builds from the full target triple. `BuildTauri.WrittenArtifacts` is the list as written (see Findings). For an `x86_64` target the corrected name keeps `x86_64`, where Tauri names the DMG `x64`.
- BuildTauri.Workflow: uses the corrected DMG name, as `BuildAndValidate` does.
- BuildTauri.RunWith: uses the corrected DMG name, as `BuildAndValidate` does.
- BuildTauri.BuildMain: uses the corrected DMG name, as `BuildAndValidate` does.
- SqlProxy.Values: takes a row's columns in the order the query lists them. `Object.values` lists integer-like keys first, in ascending order, and columns that share a name collapse into one key; neither is modelled.
- CommandOutput.ValidateCommandOutput: the JSON parse of stdout that callers do afterwards is left out.

## Findings

| source | as written | input that shows it | evidently intended | confidence | as-written member | corrected member |
|---|---|---|---|---|---|---|
| scripts/build-tauri.ts:189 | the build check expects `Container Kit_<version>_<target>.dmg`, with the full target triple | the default target `aarch64-apple-darwin`: the check looks for `Container Kit_<v>_aarch64-apple-darwin.dmg`, while the copy step (scripts/utils/shared.ts:273) requires `Container Kit_<v>_aarch64.dmg` in the same directory | the DMG is named after the architecture (`aarch64`), as the copy step and the index expect | medium, not executed | BuildTauri.WrittenDmgDisagreesWithCopyCheck | BuildTauri.ExpectedArtifactsMatchCopyCheck |
| src/lib/db/seeds/registery.ts:33-34 | the two inserts inside the transaction are started but not awaited, and a drizzle insert reaches the database only when awaited | an empty database: the transaction commits with nothing in it, no Docker registry and no seed row appear, and every later start tries again | both inserts awaited, so the registry row and the applied seed row commit together | medium, not executed | RegistrySeed.SeedAsWrittenNeverApplies | RegistrySeed.Database.AddRegistriesSeedV1 |
