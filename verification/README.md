# Verified model of the NestJS scaffold

This project models the parts of the scaffold that carry real logic and proves what they promise.

**The scaffold generator and its checker.** `scripts/select-scaffold.ts` turns a project to a new
ORM and database: it edits a compose document in place, rewrites lines of two env files, edits a package
manifest, renders the templates of an ORM profile, and writes and deletes files.
`src/config/scaffold.config.ts` is a separately written judge with tables of its own. The main results hold
for arbitrary documents, files, templates and manifests:

- Whatever the project and the templates were, the generator's output passes the checker **if and only if** a
  condition on both before the run holds (`ScaffoldRun.RunPassesIff`); a consistent project meets it under the
  conditions that `ScaffoldRun.ConsistentProjectCanBeTurned` lists.
- Selecting `a` and then `b` leaves exactly the project that selecting `b` leaves, **if and only if** a condition on
  the project before the first run holds (`ScaffoldRun.LastRunWins`): env and profile files are compared character by
  character, compose file and package manifest entry by entry. Each rewriter has the same law of its own.
- Replacing the placeholders of a template one after another fills its holes at once, for every template
  (`Placeholders.ReplacedIsFilled`), so which ORM a rendered module activates is read off the template
  (`ProfileTemplates.ModuleMentions`).
- Over every history of supported selections, of any length, no run stops and the project passes for the
  last one (`ScaffoldHistory.EveryHistoryPasses`).
- Everything a selection does not own keeps its value and its position: in the compose file after both of its edits
  (`ComposeStays.GeneratedElseStays`), in the manifest, and line by line in both env files.
- No project passes the checker for two selections, and the checker's list holds, in order, exactly the issues that
  the state of the project asks for (`IssueMeaning.ListedIffDue`, `IssueOrder.ListIsChosen`).
- What is written is also said value by value, in literal words: the URL in the compose file names the user, password,
  database, host and port that the same file declares (`ComposeWritten.UrlAgrees`), each profile file is its own
  template with its own values (`ProfileContents`), and every other file of the project is as it was
  (`RunContents.FileAfterRun`).

**The repository adapter.** `TypeOrmRepositoryAdapter` translates a neutral query language into TypeORM's.
Both languages get a meaning on rows with NULLs (SQL's three-valued comparison), and the answers agree for
every table, collation and page. Runs of operations on a table with a unique index keep it unique and send no
unguarded statement; what the replies say accounts for every row **if and only if** no removal that the driver
left uncounted found one.

**String normalisers.** The HTTP route label against lists of segments; the dashboard rewriter, which is
idempotent on every string, tree and set of files; the CORS origin list that validation and use share.

**Concurrent parts** as machines over events, for every interleaving: the health fan-out, overlapping
Prometheus scrapes, request accounting, graceful shutdown.

## How to read it

Where the source changes things step by step, the model does too: a class or a loop is proved equal to a
function of its inputs or of its old state, and the laws are lemmas about that function.

| module | source |
|---|---|
| `Text`, `TextFile`, `EnvGenerator`, `TestEnvGenerator`, `EnvContents` | line rewriters |
| `OrderedMap`, `Yaml`, `ComposeGenerator`, `ComposeDocument`, `ComposeLaws`, `ComposeUrl`, `ComposeUrlRoom`, `ComposeRepeat`, `ComposeStays`, `ComposeWritten`, `TestComposeGenerator` | compose files |
| `ScaffoldConfig`, `Placeholders`, `ProfileTemplates`, `ProfileContents` | the names of a selection; templates of the ORM profiles |
| `PackageGenerator`, `PackageAgreement`, `PackageContents` | package manifest |
| `ScaffoldChecker`, `ScaffoldConsistency`, `IssueMeaning`, `IssueOrder`, `MigrationCheck` | the checker |
| `ComposeAgreement`, `ScaffoldRun`, `ScaffoldHistory`, `ScaffoldWitness` | generator against checker |
| `ScaffoldScript`, `RunContents` | the script as steps on a working directory |
| `QueryTranslation`, `RepositoryAdapter`, `TableRuns` | repository adapter |
| `HttpRoute` | route label |
| `Separated`, `MetricPrefix`, `QuotedLabels`, `Expression`, `ExpressionMeaning`, `Dashboard`, `Observability`, `ObservabilityContents` | dashboard generator |
| `Cors` | CORS origins |
| `Results`, `Sequences` | helpers |
| `HealthFanOut`, `HealthGauge`, `RequestMetrics`, `Shutdown` | concurrent parts |

## What the proofs found

- The `DB_HOST` comment of `test/load-test-env.ts` is rewritten into a line that its own pattern no longer
  matches, so a second selection leaves the first database's name there
  (`TestEnvGenerator.StaleCommentSticks`; exact condition in `GeneratedTestEnvLastWins`).
- When another entry of `depends_on` or `volumes` already has the target's name, the generator writes a
  file with a repeated key, which neither it nor the checker can parse (`ComposeLaws.ReadableIff`,
  `LastSelectionWins`).
- Moving from one ORM to another leaves the first one's profile files behind, rendered over whatever the project
  had at these paths (`ScaffoldRun.ProfileFileSticks`).
- The marker by which the checker recognises Drizzle stands in the value of one placeholder, so a template without
  that placeholder has to write it out (`ProfileTemplates.DrizzleMarkerIff`).
- A `DB_TYPE` line that does not start its line is never rewritten, yet the checker's substring search
  sees it (`EnvGenerator.UnanchoredEnvKeepsOldType`).
- The migration check cannot tell a file named just `.ts` from no migration (`MigrationCheck.BlindSpot`).
- A base URL of slashes only in front of a non-root route gives a label with two leading slashes
  (`HttpRoute.CanonicalIff`).
- With a driver that does not count rows, a removal reports 0 rows and still removes
  (`TableRuns.UncountedRemovalTellsNothing`; exact condition in `RepliesAccountIff`).
- All scrapes share one gauge. If the client lets another scrape begin to collect between a scrape's check and the
  reading of the gauge, that scrape is answered without any health label (`HealthGauge.RenderedKeysIff`).
- A request whose stream is unsubscribed before it emits is never observed, and one that emits and then fails is
  observed twice (`RequestMetrics.DroppedOrDoubled`).
- The renaming of metrics reaches into the values of labels: for a job name such as `my_http_api` the dashboards ask
  for another job than the one that is scraped (`ObservabilityContents.RenamedJob`; exact condition in
  `SelectsScrapedJobIff`).
- A shutdown timeout longer than a timer can be, which the env schema accepts, becomes one millisecond
  (`Shutdown.OverlongTimeout`).

## Model

| member | source | states |
|---|---|---|
| Text.RewriteAllLastWins | src/config/typeorm-rdb-generator.ts:171-175 | for any lines and any two chains of first-match rewrites over the same independent patterns, running one and then the other leaves what the other alone leaves |
| Text.RewritesCommute | src/config/typeorm-rdb-generator.ts:171-175 | two independent first-match rewrites can be swapped on any lines |
| Text.RewriteAllMentions | src/config/typeorm-rdb-generator.ts:171-175 | a rewritten file contains a text exactly when an applied rewrite wrote it or an untouched line said it |
| EnvGenerator.EnvEditsIndependent | src/config/typeorm-rdb-generator.ts:171-175 | the env keys are rewritten independently: no line matches two of the patterns and each new line matches its own |
| TextFile.UnlinesRead | scripts/select-scaffold.ts:80-92 | every file is its lines with their terminators: `\n`, `\r`, U+2028 and U+2029 end a line for a pattern with the `m` flag |
| TextFile.ReadUnlines | scripts/select-scaffold.ts:80-92 | lines without terminators are read back from the file they were printed to |
| TextFile.FileIncludes | src/config/scaffold.config.ts:450-458 | a text without terminators occurs in a file exactly when it occurs in one of its lines |
| TextFile.TrimEndReads | scripts/select-scaffold.ts:69 | `trimEnd` of a whole file, in terms of its lines and terminators |
| TextFile.FileChainLastWins | scripts/select-scaffold.ts:64-70 | in every character of every file, the last of two chains of line rewrites wins, when the last line is there and when it is appended |
| EnvGenerator.GeneratedEnvLastWins | scripts/select-scaffold.ts:64-70 | selecting `a` and then `b` leaves the same `.env.example` as selecting `b`, in every character, with the URL line present or appended |
| EnvGenerator.GeneratedEnvMentions | src/config/scaffold.config.ts:450-452 | the generated file passes the checker's search exactly when a `DB_TYPE=` line starts a line or an unreachable line already says it |
| EnvGenerator.UnanchoredEnvKeepsOldType | src/config/typeorm-rdb-generator.ts:172 | a concrete file with a commented key cannot be turned: after every selection it still names the old database and not the new one |
| EnvGenerator.GeneratedEnvStays | src/config/typeorm-rdb-generator.ts:171-175 | with a URL line in the file, every line that is not the first of its key keeps its text, place and terminator |
| EnvGenerator.AppendedEnvStays | scripts/select-scaffold.ts:64-70 | without one, the same holds up to the end of the file, which is trimmed and followed by the new line |
| EnvContents.EnvSays | scripts/select-scaffold.ts:64-70 | in every file, the first line of each key reads the literal type, host, ports and URL of the selected database afterwards, and the URL line is appended when there is none |
| TestEnvGenerator.GeneratedTestEnvLastWins | scripts/select-scaffold.ts:80-92 | last-wins for `test/load-test-env.ts` holds exactly when no line carries the old comment, or both selections agree and only one line does |
| TestEnvGenerator.StaleCommentSticks | scripts/select-scaffold.ts:88-91 | for any two different databases, a file on which the second selection does not win |
| TestEnvGenerator.GeneratedTestEnvMentions | src/config/scaffold.config.ts:454-458 | the generated file passes the checker's search exactly when an assignment starts a line, whatever ends that line, or an untouched line already says it |
| TestEnvGenerator.GeneratedTestEnvStays | scripts/select-scaffold.ts:80-92 | every line that is not the first match of one of the four patterns keeps its text, place and terminator |
| EnvContents.TestEnvSays | scripts/select-scaffold.ts:80-92 | in every file, the first line that fits each pattern reads the selected type, the port 15432, and the two comments that name the database |
| ComposeDocument.Document.ReplaceMapEntry | src/config/typeorm-rdb-generator.ts:94-105 | the first entry of that name gets the new key and value in its place and the rest of the document stays, or the document stays and the missing key is reported |
| ComposeDocument.Document.RenameMapEntry | src/config/typeorm-rdb-generator.ts:107-116 | the same with the value kept |
| ComposeDocument.Document.SetEnvironment | src/config/typeorm-rdb-generator.ts:140-145 | the three assignments together put three keys into the environment of `app`, creating the map when it is missing, and stop at an environment that is no map |
| ComposeDocument.Document.TurnServices | src/config/typeorm-rdb-generator.ts:123-131 | finds the one RDB service and replaces it, or reports that there is not exactly one |
| ComposeDocument.Document.TurnApp | src/config/typeorm-rdb-generator.ts:133-145 | turns the dependency and the environment of `app`, or reports the first problem |
| ComposeDocument.Document.TurnVolumes | src/config/typeorm-rdb-generator.ts:147-148 | renames the data volume and keeps its value, or reports what is missing |
| ComposeDocument.CurrentDatabases | src/config/typeorm-rdb-generator.ts:124-126 | lists the RDB services in document order |
| ComposeDocument.MaterializeTypeOrmCompose | src/config/typeorm-rdb-generator.ts:118-150 | editing in place gives the reference rewriting of the whole tree, or the first problem in the source's order |
| ComposeGenerator.AcceptsIff | src/config/typeorm-rdb-generator.ts:118-150 | the generator accepts exactly the documents that parse, hold one RDB service and have the shape it needs |
| ComposeGenerator.RewrittenTwice | src/config/typeorm-rdb-generator.ts:131-148 | rewriting to `a` and then to `b` is rewriting to `b`, in every entry and position, when the names of `a` are fresh |
| ComposeGenerator.RewrittenUnique | src/config/typeorm-rdb-generator.ts:94-116 | the rewritten tree repeats no key exactly when the target's names were fresh |
| ComposeLaws.OnlyTargetRemains | src/config/typeorm-rdb-generator.ts:131 | after rewriting, the target is the only RDB service and has the target's body |
| ComposeLaws.ReadableIff | src/config/typeorm-rdb-generator.ts:94-116 | the written file can be read again exactly when no other dependency or volume had the target's name |
| ComposeLaws.LastSelectionWins | src/config/typeorm-rdb-generator.ts:118-150 | for every accepted document, two runs equal the second run exactly when the first target was fresh; otherwise the second run stops at invalid YAML |
| ComposeLaws.EverythingElseStays | src/config/typeorm-rdb-generator.ts:118-150 | every other top-level entry, service and volume keeps its value and position, and nothing is added |
| ComposeLaws.EverythingElseStaysInApp | src/config/typeorm-rdb-generator.ts:133-145 | every other key of `app`, dependency and environment key keeps its value and position |
| ComposeLaws.MaterializationFits | src/config/typeorm-rdb-generator.ts:13-85 | every row of the generator's table names an RDB and repeats no key |
| ComposeUrl.LastUrlWins | scripts/select-scaffold.ts:72-78 | writing the URL for one database and then another is writing it for the other, when the key was there and when it is inserted |
| ComposeUrl.UrlEditTouchesOnlyUrl | scripts/select-scaffold.ts:72-78 | outside the `DATABASE_URL` entries three levels down the edited document is the original |
| ComposeUrl.UrlEditIsOneLine | scripts/select-scaffold.ts:72-78 | of all entries three levels down, in document order, the edit overwrites the first `DATABASE_URL` only, or adds one behind the first `DB_DATABASE`; every other stays |
| ComposeUrl.UrlEditReadableIff | scripts/select-scaffold.ts:72-78 | the edit neither makes nor removes a repeated key |
| ComposeUrlRoom.UrlRoomIff | scripts/select-scaffold.ts:72-78 | the URL line of the rewritten file can be edited exactly when, in the file before the run and outside its RDB service, the first `DATABASE_URL` entry three levels down, or else the first `DB_DATABASE`, holds a one-line value |
| ComposeRepeat.RootCommutes | scripts/select-scaffold.ts:290-293 | on every file that a first run has set, rewriting the tree and editing the URL line commute, in every entry and position |
| ComposeRepeat.WrittenParsesIff | scripts/select-scaffold.ts:290-293 | the compose file that the script writes parses exactly when, in the file before the run, the target's names were fresh and the URL line had room |
| ComposeRepeat.GeneratedComposeLastWins | scripts/select-scaffold.ts:290-293 | the whole compose step run for `a` and then `b` gives the file of `b` alone exactly when the target's names were fresh and the URL line had room |
| ComposeWritten.DependencyWritten | src/config/typeorm-rdb-generator.ts:133-139 | every written file holds the dependency of `app` on the selected database with `condition: service_healthy`; unless another dependency had the name it is the one that a lookup finds |
| ComposeWritten.VolumeWritten | src/config/typeorm-rdb-generator.ts:147-148 | the data volume of the selected database is the value that the old one had |
| ComposeWritten.ServiceWritten | src/config/typeorm-rdb-generator.ts:13-85 | the service of the selected database is written key by key: image, restart policy, the settings that its image asks for, published port, the data volume at its path, and a health test |
| ComposeWritten.SettingsWritten | src/config/typeorm-rdb-generator.ts:140-145 | `app` is told the type, host and port of that service |
| ComposeWritten.UrlAgrees | scripts/select-scaffold.ts:52-62 | the URL for a container is put together from the same file: user, password and database as the service declares them, host and port as `app` is told, and the scheme of the database |
| ComposeWritten.UrlWritten | scripts/select-scaffold.ts:72-78 | the first `DATABASE_URL` line three levels down holds that URL, and there is one wherever there is a `DB_DATABASE` line |
| TestComposeGenerator.RenderTestCompose | src/config/typeorm-rdb-generator.ts:152-166 | the steps with the placeholder give the isolated one-service document |
| ComposeWritten.TestServiceWritten | src/config/typeorm-rdb-generator.ts:152-166 | for every key, what the test service holds: the real service without restart policy and volume, on the test port and in memory |
| ComposeWritten.TestNameWritten | src/config/typeorm-rdb-generator.ts:155 | the project name is `barebones-test` |
| TestComposeGenerator.RenderedTestComposeAgrees | src/config/scaffold.config.ts:230-273 | the rendered test file meets everything the checker asks of it |
| PackageGenerator.PackageManifest.ConfigurePackages | scripts/select-scaffold.ts:209-279 | deleting and assigning in place leaves the unmanaged entries in order, followed by the additions |
| PackageGenerator.LastConfigurationWins | scripts/select-scaffold.ts:209-279 | for every manifest, configuring for `a` and then `b` gives, entry by entry, what configuring for `b` gives |
| PackageGenerator.UnmanagedStays | scripts/select-scaffold.ts:210-232 | no package or script outside the managed lists is lost, added, changed or moved |
| PackageGenerator.ManagedNames | scripts/select-scaffold.ts:228-279 | a managed package is installed afterwards exactly when the selection adds it |
| PackageContents.ConfiguredSays | scripts/select-scaffold.ts:209-279 | for every manifest, selection and name: the literal version or command of the selection, nothing for a package or script of another one, and for any other name what was there before |
| PackageAgreement.ConfiguredPackagesAgree | src/config/scaffold.config.ts:367-419 | for every manifest, the configured packages cause no issue in the checker |
| PackageAgreement.NothingElseAdded | src/config/scaffold.config.ts:76-136 | the generator adds exactly the packages that the checker requires for the selection, and `@types/pg` for Drizzle on postgres |
| ScaffoldChecker.ScaffoldConsistencyIssues | src/config/scaffold.config.ts:351-477 | the collecting loops return the specified list of issues, in order |
| ScaffoldChecker.BaseComposeSection | src/config/scaffold.config.ts:185-228 | the same for `docker-compose.yml` |
| ScaffoldChecker.TestComposeSection | src/config/scaffold.config.ts:230-273 | the same for `docker-compose.test.yml` |
| ScaffoldConsistency.NoIssuesIffConsistent | src/config/scaffold.config.ts:351-477 | the list is empty exactly when the project agrees with the selection, stated without lists |
| ScaffoldConsistency.AtMostOneSelection | src/config/scaffold.config.ts:76-136 | no project passes for two different selections |
| IssueOrder.ContractIs | src/config/scaffold.config.ts:76-136 | the package, tool, driver and file names and the markers that the checker looks for, one by one |
| IssueMeaning.ListedIffDue | src/config/scaffold.config.ts:351-477 | for every state and every issue: the issue is listed exactly when the state asks for it, said for each kind of issue with literal names, texts and paths and without the list |
| IssueOrder.ListIsChosen | src/config/scaffold.config.ts:351-477 | for every state the list is, of the candidates in literal order, exactly those that are due, each as often as it is a candidate |
| MigrationCheck.SortedUnique | src/config/scaffold.config.ts:282-287 | a multiset of names has one sorted list |
| MigrationCheck.BeforeIff | src/config/scaffold.config.ts:286 | the order of the names, by their first difference |
| MigrationCheck.StemsCount | src/config/scaffold.config.ts:282-287 | a name is compared as often as a file is that name with the extension behind it |
| MigrationCheck.MismatchCounts | src/config/scaffold.config.ts:310-312 | the compared names agree exactly when every name has as many sources as outputs, and then no mismatch is reported |
| MigrationCheck.MismatchIff | src/config/scaffold.config.ts:310-316 | a mismatch is reported exactly when the multisets of stems differ, except for one empty stem against none |
| MigrationCheck.BlindSpot | src/config/scaffold.config.ts:310-316 | that exception exists |
| MigrationCheck.MigrationIssues | src/config/scaffold.config.ts:290-319 | which of the two issues are listed, and when none is |
| Separated.JoinInjective | src/config/scaffold.config.ts:312 | joining is injective on names without the separator, except for the empty list and one empty name |
| ComposeStays.GeneratedElseStays | scripts/select-scaffold.ts:290-293 | after rewriting and URL edit, every other top-level entry, service, volume, `app` key, dependency and environment entry keeps its value and position, but for `DATABASE_URL` entries three levels down |
| ComposeAgreement.GeneratedComposeAgrees | src/config/scaffold.config.ts:185-228 | the compose file the script writes passes the checker exactly when, in the file before the run, the target's names were fresh and the URL line had room |
| Placeholders.ReplaceEach | scripts/select-scaffold.ts:44-50 | the loop replaces one placeholder of the table after another |
| Placeholders.ReplacedIsFilled | scripts/select-scaffold.ts:44-50 | for every source and every table of inert values, replacing the placeholders one after another fills the holes of the source, each with its own value, and nothing else |
| Placeholders.NothingLeft | scripts/select-scaffold.ts:44-50 | for every source, no placeholder of the table is left |
| Placeholders.FirstReplaced | scripts/select-scaffold.ts:170-182 | `replace` with a text replaces its first occurrence and nothing else |
| Placeholders.ParsedUndone | scripts/select-scaffold.ts:44-50 | literals and holes are the source cut up: with the placeholders back in the holes they are the source again |
| Placeholders.FillIncludes | scripts/select-scaffold.ts:44-50 | a filled template holds a text exactly when a literal does, a hole's value does, or the end of a literal and the beginning of the value behind it do |
| ProfileTemplates.TableIsProper | scripts/select-scaffold.ts:94-161 | no value of the module tables holds, starts or ends a placeholder |
| ProfileTemplates.RenderModule | scripts/select-scaffold.ts:94-161 | the rendered module is the template with the table's placeholders replaced in order |
| ProfileTemplates.ProfileFiles | scripts/select-scaffold.ts:163-207 | reads the templates in the source's order and returns the rendered files by path, or the first missing template |
| ProfileTemplates.ModuleMentions | scripts/select-scaffold.ts:94-161 | for every template, the rendered module mentions a checker marker exactly when the template carries it |
| ProfileTemplates.RenderedModuleAgrees | src/config/scaffold.config.ts:437-448 | the rendered module activates its own ORM and no other exactly when the template carries its own marker and no other |
| ProfileTemplates.DrizzleMarkerIff | scripts/select-scaffold.ts:121-161 | Drizzle's module activates Drizzle exactly when a literal of the template says so or the template asks for the driver's imports |
| ProfileTemplates.PrismaMarkerIff | scripts/select-scaffold.ts:94-119 | Prisma's module activates Prisma exactly when a literal of the template does |
| ProfileTemplates.MikroormVerbatim | scripts/select-scaffold.ts:182-197 | MikroORM's module is its template, so it mentions exactly the markers that the template mentions |
| ProfileContents.PrismaProfile | scripts/select-scaffold.ts:170-182 | for every set of templates: exactly three files, the configuration and the schema with the first placeholder replaced by the literal URL and provider, the module with its two holes filled with the adapter of the database |
| ProfileContents.MikroormProfile | scripts/select-scaffold.ts:184-197 | exactly two files: the configuration with the literal port and driver package in its holes, and the module as it is |
| ProfileContents.DrizzleProfile | scripts/select-scaffold.ts:199-206 | exactly three files: the configuration with the literal URL and dialect, the module with seven literal texts, and the schema as it is |
| ProfileContents.ProfileStopsIff | scripts/select-scaffold.ts:40-42 | rendering stops exactly when a template of the profile is not there, at the first one in reading order |
| ScaffoldRun.RunPassesIff | scripts/select-scaffold.ts:281-347 | for every project, template set and selection, the output of a run has an empty issue list exactly when project and templates were selectable, and a run that stops had ones that were not |
| ScaffoldRun.LastRunWins | scripts/select-scaffold.ts:281-329 | for every project, two runs leave the same project as the second alone (env and profile files by character, compose file and manifest by entry) exactly when the first target fits the compose file, no old comment sticks, and every profile file of the first ORM that the second does not write already held exactly that text |
| ScaffoldRun.ProfileFileSticks | scripts/select-scaffold.ts:320-329 | a profile file that the second selection does not write, and that did not hold the rendered text before, keeps the second selection from winning |
| ScaffoldRun.ConsistentProjectCanBeTurned | scripts/select-scaffold.ts:281-347 | a project that passes for TypeORM, or stays with its ORM, passes for the new selection after the run, under conditions on its env and compose files and on the templates |
| ScaffoldHistory.EveryHistoryPasses | scripts/select-scaffold.ts:281-347 | starting from a project that passes and can be turned, any number of supported selections one after another all succeed, and the result passes for the last and can be turned on |
| ScaffoldHistory.SelectableStays | scripts/select-scaffold.ts:290-293 | turning a compose file changes nothing about which databases it can be turned to |
| ScaffoldHistory.EnvStaysAnchored | src/config/typeorm-rdb-generator.ts:171-175 | a run keeps the `DB_TYPE` line at the start of its line, also when the URL line is appended |
| ScaffoldWitness.SomeProjectIsTurnable | scripts/check-scaffold.ts:44-72 | some project meets the premises of the history theorem |
| ScaffoldWitness.SomeHistoryIsSupported | scripts/select-scaffold.ts:121-161 | with some templates, leaving TypeORM for Drizzle and every history of databases after that meet the premises of the history theorem |
| ScaffoldRun.RunFailsIff | scripts/select-scaffold.ts:285-307 | for a selection, the script stops before writing exactly when a file or template that it reads is missing, or at a compose file that does not parse or is not accepted |
| ScaffoldScript.PlannedIff | scripts/select-scaffold.ts:281-307 | whatever the arguments, the script gets to writing exactly with the two names of a selection for which everything it reads is there and the compose file is accepted |
| ScaffoldConfig.ParsedIff | src/config/scaffold.config.ts:321-349 | a selection is read from its two names, and from no others |
| ScaffoldConfig.RefusedIff | src/config/scaffold.config.ts:331-340 | which of the two errors is reported, the database first |
| ScaffoldRun.FilesAfterRun | scripts/select-scaffold.ts:320-329 | after writing and deleting, the profile files agree exactly when nothing of a third ORM was there and TypeORM's are |
| RunContents.RunWrites | scripts/select-scaffold.ts:281-307 | what a run leaves in each file that the scripts know by name, the text of active-scaffold.ts included |
| RunContents.FileAfterRun | scripts/select-scaffold.ts:318-329 | for every other path: deleted when it is one of the eight TypeORM files and another ORM is selected, the rendered text when it belongs to the profile, and otherwise as it was |
| RunContents.RunStopsAt | scripts/select-scaffold.ts:281-305 | at what a run stops: the first missing file or template in the order in which they are read, or the first problem of the compose file |
| RunContents.EndingIs | scripts/select-scaffold.ts:331-349 | which command ends a run, in the order install, client generation, check, lint, type check |
| ScaffoldScript.Workspace.SelectNamed | scripts/select-scaffold.ts:281-347 | the same from the command-line names on; names of no selection stop the run and change nothing |
| ScaffoldScript.Workspace.Select | scripts/select-scaffold.ts:281-347 | a run that stops while it plans and a dry run change nothing; otherwise the directory holds the project of the reference run, and the run ends with the first command that fails |
| ScaffoldScript.Workspace.Carry | scripts/select-scaffold.ts:320-329 | writing the planned files one after another and deleting TypeORM's gives the planned project |
| ScaffoldScript.Workspace.WriteEach | scripts/select-scaffold.ts:320-323 | the loop writes every listed file and leaves the others |
| ScaffoldScript.MakePlan | scripts/select-scaffold.ts:281-307 | the planned contents are those of the reference run, or its first problem in the source's order |
| ScaffoldScript.RunCommands | scripts/select-scaffold.ts:331-346 | the commands run in order up to the first that fails |
| ScaffoldScript.Workspace.DeleteEach | scripts/select-scaffold.ts:325-329 | deleting the listed files that exist removes exactly them |
| QueryTranslation.ToWhere | src/common/persistence/typeorm-repository.adapter.ts:172-194 | fills the translated filter key by key, or stops at the first `undefined` |
| QueryTranslation.WhereMeaning | src/common/persistence/typeorm-repository.adapter.ts:163-194 | on every row, also with NULLs, the translated filter is true exactly when the neutral filter matches |
| QueryTranslation.PlainNullMatchesEverything | src/common/persistence/typeorm-repository.adapter.ts:163-171 | why `null` is translated: passed on as it is, it would match a row it must not |
| QueryTranslation.OrderMeaning | src/common/persistence/typeorm-repository.adapter.ts:209-221 | ORDER BY in key order ranks any two rows as the neutral order does, under every collation |
| QueryTranslation.QueryMeaning | src/common/persistence/typeorm-repository.adapter.ts:127-221 | for every table and accepted criteria, a result answers the translated options exactly when it answers the criteria |
| QueryTranslation.TranslationKeepsKeys | src/common/persistence/typeorm-repository.adapter.ts:172-194 | translation succeeds exactly without `undefined`, keeps the keys, and leaves nothing that TypeORM would drop |
| RepositoryAdapter.ToOrder | src/common/persistence/typeorm-repository.adapter.ts:209-221 | fills the order in key order, skipping keys without a direction |
| RepositoryAdapter.TypeOrmRepositoryAdapter.ToFindManyOptions | src/common/persistence/typeorm-repository.adapter.ts:127-145 | builds the options of the criteria, or the contract error |
| RepositoryAdapter.TypeOrmRepositoryAdapter.FindOne | src/common/persistence/typeorm-repository.adapter.ts:49-59 | is the specified step: guarded filter, projection, one read, its first row or null returned, rows unchanged |
| RepositoryAdapter.TypeOrmRepositoryAdapter.FindMany | src/common/persistence/typeorm-repository.adapter.ts:61-63 | is the specified step: one read, its rows returned |
| RepositoryAdapter.TypeOrmRepositoryAdapter.Count | src/common/persistence/typeorm-repository.adapter.ts:65-71 | is the specified step, with and without a filter |
| RepositoryAdapter.TypeOrmRepositoryAdapter.Insert | src/common/persistence/typeorm-repository.adapter.ts:84-95 | is the specified step: one INSERT, generated columns merged, a unique violation translated |
| RepositoryAdapter.TypeOrmRepositoryAdapter.Update | src/common/persistence/typeorm-repository.adapter.ts:97-115 | is the specified step: guarded filter, empty patch a no-op, affected rows or 0 |
| RepositoryAdapter.TypeOrmRepositoryAdapter.Remove | src/common/persistence/typeorm-repository.adapter.ts:117-125 | is the specified step: guarded filter, driver errors passed on |
| TableRuns.RunKeepsUnique | src/common/persistence/typeorm-repository.adapter.ts:84-125 | in every run of operations no two rows share an index value |
| TableRuns.RunIsSafe | src/common/persistence/typeorm-repository.adapter.ts:49-125 | in every run, no unconditional single read, update or delete reaches the store, and no condition that TypeORM would drop |
| TableRuns.RunSends | src/common/persistence/typeorm-repository.adapter.ts:49-125 | in every run, the store receives exactly one statement per operation that neither breaks the contract nor is an empty patch, in order, with exactly the keys of that operation's filter and true of exactly the rows it matches |
| TableRuns.ContractBrokenIff | src/common/persistence/typeorm-repository.adapter.ts:282-291 | an operation breaks the contract exactly for an `undefined` value or a forbidden empty filter, and then nothing changes and nothing is sent |
| TableRuns.FailureChangesNothing | src/common/persistence/typeorm-repository.adapter.ts:243-255 | a failed operation leaves every row as it was |
| TableRuns.InsertOnlyAdds | src/common/persistence/typeorm-repository.adapter.ts:73-95 | an insert never changes an existing row, and succeeds exactly when it adds one |
| TableRuns.NotUniqueIff | src/common/persistence/typeorm-repository.adapter.ts:243-255 | an insert or update is refused as not unique exactly when its result would hold two rows with one index value |
| TableRuns.DriversRecognised | src/common/persistence/typeorm-repository.adapter.ts:257-280 | the signals of all three drivers are recognised, bare or wrapped, and a foreign-key failure is not |
| TableRuns.WriteFailuresReport | src/common/persistence/typeorm-repository.adapter.ts:243-280 | for every thrown value: an insert and an update answer with the constraint that postgres names, with none for mysql, with the thrown value itself for any other failure, and a thrown `undefined` or `null` crashes |
| TableRuns.DriversReport | src/common/persistence/typeorm-repository.adapter.ts:271-277 | the drivers' own signals, bare and wrapped: only postgres's names the constraint |
| TableRuns.RemovalPassesOn | src/common/persistence/typeorm-repository.adapter.ts:117-125 | a removal passes every failure on unchanged |
| TableRuns.InsertAnswers | src/common/persistence/typeorm-repository.adapter.ts:84-95 | an inserted row is answered with every column handed back, and otherwise with the data |
| TableRuns.ContractErrorNames | src/common/persistence/typeorm-repository.adapter.ts:172-194 | a broken contract names its operation and the first `undefined` key, or the empty filter |
| TableRuns.WritesMeanWhatTheySay | src/common/persistence/typeorm-repository.adapter.ts:97-125 | an update or removal reaches exactly the rows of the neutral filter and reports their number |
| TableRuns.UncountedWrites | src/common/persistence/typeorm-repository.adapter.ts:105-115 | an update without a change, and a write that the driver does not count, report zero rows |
| TableRuns.ListsMeanWhatTheySay | src/common/persistence/typeorm-repository.adapter.ts:61-63 | the rows that `findMany` returns answer the caller's criteria exactly when the database answered the options |
| TableRuns.OneRowMeansWhatItSays | src/common/persistence/typeorm-repository.adapter.ts:49-59 | `findOne` returns the first row of an answer to the caller's criteria, and null exactly when no row matches |
| TableRuns.CountMeansWhatItSays | src/common/persistence/typeorm-repository.adapter.ts:65-71 | a count is the number of rows the neutral filter matches |
| TableRuns.RowsAddUp | src/common/persistence/typeorm-repository.adapter.ts:84-125 | over every run, rows are those at the start plus successful inserts minus reported removals minus what uncounted removals took |
| TableRuns.RepliesAccountIff | src/common/persistence/typeorm-repository.adapter.ts:124 | the replies alone account for every row exactly when every uncounted removal of the run matched none |
| TableRuns.UncountedRemovalTellsNothing | src/common/persistence/typeorm-repository.adapter.ts:124 | without counting, that sum of replies fails |
| HttpRoute.JoinRouteIs | src/infra/metrics/http-metrics.util.ts:27-49 | for any base and non-empty route the label is `/` joined with all non-empty segments, with the one exception written out |
| HttpRoute.SegmentsSplit | src/infra/metrics/http-metrics.util.ts:9-25 | a slash between any two texts separates their segments |
| HttpRoute.CanonicalIff | src/infra/metrics/http-metrics.util.ts:42-48 | the label is canonical exactly unless an all-slash base meets a non-root route |
| HttpRoute.CanonicalRoundTrip | src/infra/metrics/http-metrics.util.ts:9-25 | a canonical label gives its segments back, so different segment lists have different labels |
| HttpRoute.FixedPoint | src/infra/metrics/http-metrics.util.ts:27-49 | a canonical label fed back without a base stays as it is |
| HttpRoute.NoDoubleSlash | src/infra/metrics/http-metrics.util.ts:9-25 | a canonical label has no adjacent slashes and only the root ends in one |
| HttpRoute.UnknownIff | src/infra/metrics/http-metrics.util.ts:28-40 | the label is `UNKNOWN` exactly without a usable route pattern |
| HttpRoute.PartsOfRequest | src/infra/metrics/http-metrics.util.ts:27-49 | of several patterns the first counts, and a missing base is an empty one |
| MetricPrefix.ReplaceMetricPrefixes | scripts/generate-observability.ts:31-40 | the loop applies one pass per known root, in order |
| MetricPrefix.PassesAtOnce | scripts/generate-observability.ts:31-40 | the passes one after another are one scan that gives every word with a known root the prefix |
| MetricPrefix.AtOnceTwice | scripts/generate-observability.ts:31-40 | that scan is idempotent on every string |
| MetricPrefix.ScanPrefixes | scripts/generate-observability.ts:31-40 | after it, every word that carries a known root carries it right behind the prefix |
| ExpressionMeaning.KnownWord | scripts/generate-observability.ts:31-40 | letters and digits, an underscore and one of the six literal roots: what stands before the root becomes the prefix and the rest stays |
| ExpressionMeaning.OtherWord | scripts/generate-observability.ts:31-40 | any other word stays as it is |
| ExpressionMeaning.ScanSplits | scripts/generate-observability.ts:31-40 | a character outside words separates what stands on both sides, so the three laws say what becomes of every text |
| QuotedLabels.ReplaceIsRelabel | scripts/generate-observability.ts:17-29 | the global replacement of a quoted label in any string is a rewriting of the pieces between its quotation marks |
| Expression.RewriteExpressionTwice | scripts/generate-observability.ts:63-65 | rewriting any expression a second time changes nothing |
| Expression.RewriteExpressionMeans | scripts/generate-observability.ts:17-40 | every quoted value behind the job or route label becomes the configured one, and every other piece has only its metric names renamed |
| ExpressionMeaning.LabelsSay | scripts/generate-observability.ts:17-29 | every quoted value behind the literal `job=` is the job name, every one behind `route!=` the excluded route, and every other piece is only renamed |
| Expression.RewriteExpressionPrefixes | scripts/generate-observability.ts:31-40 | every known metric in a rewritten expression has the configured prefix |
| Dashboard.RewriteTwice | scripts/generate-observability.ts:67-86 | rewriting any JSON tree a second time changes nothing |
| Dashboard.RewriteAt | scripts/generate-observability.ts:67-86 | the rewritten tree has the same places and member names, and holds at each place the rewriting of what was there |
| Dashboard.OnlyExpressionsChange | scripts/generate-observability.ts:67-70 | only strings directly under `expr` change |
| Observability.Generator.WriteFile | scripts/generate-observability.ts:88-102 | writes, lists or leaves the file, as its contents and the mode say |
| Observability.Generator.RewriteDashboard | scripts/generate-observability.ts:104-110 | the same for the rewriting of the dashboard that the file holds |
| Observability.Generator.Run | scripts/generate-observability.ts:112-140 | the program's files, list of stale artifacts and exit code are those of the specified run over its own artifacts |
| Observability.ProgramThenCheck | scripts/generate-observability.ts:112-140 | after the program has generated its own artifacts, its check is clean and generating again changes nothing |
| Observability.ProgramCheckPredicts | scripts/generate-observability.ts:130-134 | the program's check is clean exactly when generating would succeed and change nothing |
| Observability.CheckIff | scripts/generate-observability.ts:96-98 | a check never writes, and lists nothing exactly when every artifact is fresh |
| ObservabilityContents.PrometheusLines | scripts/generate-observability.ts:42-61 | the scrape configuration line by line, with the configured job, path and target |
| ObservabilityContents.ProgramWrites | scripts/generate-observability.ts:112-128 | a run leaves the scrape configuration in its literal file, each of the four dashboards rewritten in its own, and every other file as it was |
| ObservabilityContents.ProgramChecks | scripts/generate-observability.ts:112-134 | a check lists, in order, exactly the files that differ from what a run would leave, and throws exactly when one is missing or is no JSON |
| ObservabilityContents.SelectsScrapedJobIff | scripts/generate-observability.ts:17-47 | the dashboards select the job that is scraped exactly when no known metric name in the job name stands behind another prefix |
| ObservabilityContents.RenamedJob | scripts/generate-observability.ts:17-47 | a job name for which they select another job |
| Cors.ParseMeans | src/config/cors.config.ts:14-19 | any comma-free pieces with any space around them, joined by commas, parse to their non-empty cores in order |
| Cors.ParseJoin | src/config/cors.config.ts:14-19 | writing out any list of trimmed, non-empty, comma-free origins and parsing it gives the list back |
| Cors.ParseJoinParse | src/config/cors.config.ts:14-19 | parsing, writing out and parsing again is parsing once |
| Cors.OptionsOf | src/config/cors.config.ts:42-55 | for every written list of origins: `*` among them opens every origin and no other text does, production accepts exactly non-empty lists without `*` whose entries hold `://`, and without a list every origin is open |
| Cors.AcceptedIff | src/config/env.validation.ts:16-36 | the production rule accepts a value exactly when the CORS options list at least one origin and only entries with a scheme, never every origin |
| Cors.RejectedIff | src/config/env.validation.ts:18-36 | which error the rule reports, in terms of the options, and which origins it names |
| Cors.WildcardAnywhere | src/config/cors.config.ts:21-23 | a wildcard as any entry, with any space around it, allows every origin and is refused in production |
| HealthFanOut.HealthCoordinator.Finish | src/health/application/health.coordinator.ts:24-28 | one completion writes one snapshot and leaves one indicator fewer pending |
| HealthFanOut.HealthCoordinator.Settle | src/health/application/health.coordinator.ts:30-34 | once nothing is pending, the result is that of the complete run so far |
| HealthFanOut.CompleteHolds | src/health/application/health.coordinator.ts:21-34 | after any complete order the record holds exactly the indicator keys, each with its snapshot |
| HealthFanOut.CompleteReports | src/health/application/health.coordinator.ts:34-43 | what each indicator is reported with: its own snapshot, or `down` with the message of the error or a fixed one |
| HealthFanOut.OrderIndependentIff | src/health/application/health.coordinator.ts:24-28 | the result is independent of the completion order exactly when indicators that share a key agree |
| HealthFanOut.UpIff | src/health/application/health.coordinator.ts:30-43 | with distinct keys there is one snapshot per indicator, and the status is up exactly when every indicator resolved up |
| HealthGauge.HealthMetricsService.BeginCollect | src/health/health-metrics.service.ts:105-106 | the part before the await resets the gauge |
| HealthGauge.HealthMetricsService.EndCollect | src/health/health-metrics.service.ts:108-112 | the part after it sets one value per indicator, in any order of entries |
| HealthGauge.GaugeShows | src/health/health-metrics.service.ts:105-113 | in every interleaving the gauge is empty after a reset and otherwise encodes the check that finished last |
| HealthGauge.GaugeValues | src/health/health-metrics.service.ts:108-112 | the value of an indicator is 1 when the last finished check found it up and 0 when down |
| HealthGauge.LabelsIff | src/health/health-metrics.service.ts:105-113 | the labels are the indicator keys exactly when a check finished since the last reset |
| HealthGauge.QuiescentGauge | src/health/adapters/in/http/health.controller.ts:20-28 | with no scrape in flight the gauge encodes the last finished check, is all ones exactly when the HTTP adapter returns it, and holds a 0 exactly when the adapter answers 503 |
| HealthGauge.HealthMetricsService.Render | src/infra/metrics/metrics.service.ts:86-88 | the client reads the gauge into the answer of a scrape whose check has finished |
| HealthGauge.RenderedKeysIff | src/health/health-metrics.service.ts:104-113 | in every interleaving, a scrape is answered with the indicator labels exactly unless another scrape began to collect after its check and no check has finished since; then it is answered without any |
| HealthGauge.RenderedOwnIff | src/health/health-metrics.service.ts:104-113 | when no other check finishes in between, a scrape is answered with its own check exactly when no other scrape began to collect in between |
| HealthGauge.RenderedNeverMixed | src/health/health-metrics.service.ts:104-113 | no answer of any run mixes the values of two checks |
| HealthGauge.RenderedEmpty | src/health/health-metrics.service.ts:104-113 | the answer without labels does occur in the machine |
| RequestMetrics.MetricsInterceptor.Intercepted | src/infra/metrics/http-metrics.interceptor.ts:54-65 | one more active request, with its labels fixed |
| RequestMetrics.MetricsInterceptor.OnValue | src/infra/metrics/http-metrics.interceptor.ts:80-83 | one observation with the response status, or 200 |
| RequestMetrics.MetricsInterceptor.OnError | src/infra/metrics/http-metrics.interceptor.ts:84-90 | one observation with the resolved status, then one active request fewer |
| RequestMetrics.MetricsInterceptor.OnFinalize | src/infra/metrics/http-metrics.interceptor.ts:88-90 | one active request fewer |
| RequestMetrics.GaugeCountsOpen | src/infra/metrics/http-metrics.interceptor.ts:54-92 | in every interleaving the gauge is the number of requests intercepted and not finalised, and never negative |
| RequestMetrics.Undisturbed | src/infra/metrics/http-metrics.interceptor.ts:54-92 | what a request leaves in the histogram, and whether it is open, does not depend on the other requests |
| RequestMetrics.ObservationsAddUp | src/infra/metrics/http-metrics.interceptor.ts:79-87 | a request is observed once per emitted value and once if it failed |
| RequestMetrics.ObservationMeans | src/infra/metrics/http-metrics.interceptor.ts:16-22 | for every observation of every run: the event that left it, the method and route of its request, and the literal status law: its own status for an HTTP failure, the response status or 500 for any other, the response status or 200 for a value |
| RequestMetrics.ObservedOnce | src/infra/metrics/http-metrics.interceptor.ts:79-91 | a request that emits once and completes, or only fails, is observed exactly once with its labels |
| RequestMetrics.DroppedOrDoubled | src/infra/metrics/http-metrics.interceptor.ts:79-91 | a request whose stream is unsubscribed before it emits is never observed, and one that emits and fails is observed twice |
| Shutdown.Process.OnSignal | src/main.ts:87-101 | the first signal starts the close and the timer, a later one changes nothing |
| Shutdown.Process.OnCloseSettled | src/main.ts:103-113 | a settled close disarms the timer; a rejected one sets exit code 1 |
| Shutdown.Process.OnElapse | src/main.ts:96-99 | a due timer ends the process with exit code 1 |
| Shutdown.RunDecides | src/main.ts:79-116 | in every run the phase is the one read off the whole sequence of events, and close starts once exactly when a signal came |
| Shutdown.ForcedIff | src/main.ts:96-99 | the process is forced to exit exactly when the deadline passes before the close settles |
| Shutdown.TerminalIsFinal | src/main.ts:90-92 | no later event leads out of a settled close or a forced exit |
| Shutdown.ExitCodeIff | src/main.ts:98-112 | the exit code is 1 for a close rejected in time or a missed deadline, and 0 for every other run |
| Shutdown.DecidedByDeadline | src/main.ts:96-101 | a run is decided no later than the deadline |
| Shutdown.LaterSignalsIgnored | src/main.ts:88-92 | dropping every signal after the first changes nothing |
| Shutdown.OverlongTimeout | src/main.ts:96-99 | a timeout beyond the longest timer delay forces the exit after one millisecond |

## Left out

- YAML and JSON text: parsing, printing, comments, quoting and anchors belong to libraries. Documents start as trees; a printed tree is assumed to parse back to itself exactly when no map repeats a key.
- Node identity in the YAML document: the model addresses nodes by paths of keys, so two paths never share a node.
- `withDatabaseUrlCompose` works on printed lines with six leading spaces; the model takes these lines to be the entries of the maps three levels below the top, in document order, and a value that does not fit on its line to make the edit unreadable.
- `$` in a replacement: the values and lines that the script writes hold no `$` pattern that JavaScript would expand, so the model takes them as they are.
- The commands after writing (install, client generation, check, lint, type check): how they end is an input of `ScaffoldScript.Workspace.Select`, and they are taken to change none of the modelled files.
- ScaffoldRun.RunFailsIff: about the steps before the first write; a disk that refuses a write and a failing command are not among its causes.
- `check-scaffold` as a whole: `ScaffoldRun.Check` is its consistency list. The migration list is proved separately in `MigrationCheck`, and the scan of the templates' import specifiers is not modelled.
- A `package.json` without one of its three sections counts as missing.
- Moves between two ORMs other than TypeORM: the script leaves the first one's files behind; `ScaffoldRun.RunPassesIff` covers them through its condition on the files.
- The printed plan, and the shape of `barebones.config.json` around the two names: the file is the selection it holds.
- `scaffoldTemplateEsmIssues`: a line scan with back-references.
- Wording of issues and errors: issues are constructors that carry the same values.
- `sort()` orders by UTF-16 code unit; the model orders by character, which agrees below U+10000; what is proved of the comparison uses only that the order is total.
- TypeORM, databases and drivers: only the contract the adapter relies on. A plain `null` or `undefined` in a filter is dropped, a statement runs whole or not at all, a unique index ignores NULLs, and the database may fill columns, hand columns back, count rows or not, and fail on its own; all of these are inputs.
- TableRuns.NotUniqueIff: assumes a driver whose signal for a violated index differs from its other failures, because no adapter could tell them apart otherwise.
- Expression.RewriteExpressionTwice: assumes values free of quotation marks and `$` that do not end in `=`, and a prefix of letters and digits plus one underscore, because `$` has a meaning of its own in a replacement and a quotation mark would end the label.
- Observability.ProgramThenCheck: the printer is an input that gives back what it prints.
- HTTP adapters beyond the label and the 503: request parsing, Nest wiring and pipes.
- HealthGauge.RenderedKeysIff: the metrics client decides how much time passes between the end of the `collect` callback and its reading of the gauge; the client is not part of this model, which allows any events in between, and a client that leaves no gap is answered with the scrape's own check.
- RxJS: a stream emits, then ends once; nothing reaches the callbacks afterwards.
- Node's event loop in `Shutdown`: a due timer fires before anything else, and a process without pending work ends by itself.
- Joi's own rules around the CORS rule (required, non-empty string), the other CORS options, and every other env rule.
- Redis, MongoDB, BullMQ, cache, logging, Swagger, feature flags, response envelope, Docker and Grafana content.
