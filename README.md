# cosmos-migrator core, modelled in Dafny

cosmos-migrator is a command-line tool that runs migration scripts against
Azure Cosmos DB containers. This project models its core and proves
properties of that model:

- `executeMigration` (module `History`). Each database has a `_migrations`
  container, and in it one history document per target container, keyed by
  the container name. The document lists `{scriptName, executedOn}`
  entries. A script is skipped when the first history entry with its
  basename has a truthy `executedOn`. Otherwise its `run` is invoked. When the run completes, one
  entry is appended, or a new document is created, and the document is
  upserted. The Cosmos DB client is a `HistoryStore` class that holds
  every database's `_migrations` container as a map. Its `Execute` method
  is proved against the pure transition `Transition`.
- `migrate` (module `Driver`). A setting is the option, else the
  environment variable, else `''` (module `Config`). Configuration errors
  are pushed in a fixed order. The folder listing is sorted and then
  filtered to `.js` names (module `Listing`). More than 200 scripts is
  refused; more than 100 is warned about. The scripts are then executed
  one by one against the store, stopping at the first that fails.
- `validateScriptStructure` and `validate` (module `Validator`). A
  module's exports are a small model of JavaScript values: `undefined`,
  `null`, other primitives by their truthiness, strings, functions and
  objects. Checking them yields an ordered list of findings. `validate`
  loads every selected script and collects the findings per file. It then
  decides whether any finding is a hard error, i.e. does not start with
  `[warning]`.
- `Common` holds the ECMAScript helpers these use: `startsWith`,
  `endsWith`, `trim` (with the ECMAScript whitespace set) and the default
  `Array.prototype.sort` order on strings. `Paths` holds `path.basename`,
  the `${dir}/${file}` join and `path.resolve` against the working
  directory.

The imperative parts of the source are methods with loops or successive
pushes, each proved against a specification function:
- the `errors` arrays, built by `push`;
- the loop over the scripts in `migrate`;
- `validateScriptStructure`;
- the `allErrors` loop and the `hasHardErrors` loop in `validate`;
- the read–modify–upsert of `executeMigration`.

The properties are proved as lemmas about those functions.

Behaviour of the code worth knowing, which the model follows:
- `MIGRATIONS_DIR` left empty resolves to the working directory, which
  exists. The folder error is therefore reported exactly when the
  *resolved* folder is missing, not whenever the setting is empty.
- The `[warning]` message says that `updateItem()` takes precedence
  during execution. `executeMigration` never looks at `updateItem` and
  only calls `run`. A script that exports only `updateItem` therefore ends
  with `run` throwing. The model's `Script.run` is that outcome, supplied
  by the caller.
- A history document whose `scripts` is missing or `null` is read as
  holding no entries (`migrations?.scripts?.find`). A completed run then throws at
  `migrations.scripts.push`, so nothing is written; this is outcome
  `PushFailed`.
- Only the first entry with a script's name is looked at (`find`). When
  that entry has an empty `executedOn`, a later entry with a truthy one
  does not protect the script: it runs on every execute and gains one more
  entry each time.

## Model

| member | source | states |
|---|---|---|
| Common.TrimStartSpec | src/validate.js:34 | `trimStart` leaves a suffix that does not start with whitespace and removes only whitespace |
| Common.TrimEndSpec | src/validate.js:34 | `trimEnd` leaves a prefix that does not end with whitespace and removes only whitespace |
| Common.TrimEmptyIffWhitespace | src/validate.js:34 | `s.trim() === ''` exactly when every character of `s` is ECMAScript whitespace |
| Common.LexLeTotal | src/action.js:37 | the string order used by `sort()` is total |
| Common.LexLeTransitive | src/action.js:37 | the string order used by `sort()` is transitive |
| Common.LexLeAntisymmetric | src/action.js:37 | two strings ordered both ways are equal |
| Paths.StripTrailingSlashesSpec | src/execute-migration.js:16 | stripping leaves a prefix not ending in '/' and removes only '/' characters |
| Paths.AfterLastSlashSpec | src/execute-migration.js:16 | the result is the longest '/'-free suffix of the path |
| Paths.ResolveSpec | src/action.js:12-15 | an empty setting names the working directory, an absolute one is kept; against an absolute working directory the result is absolute and resolving it again changes nothing |
| Paths.BasenameOfJoin | src/execute-migration.js:16 | `path.basename` of `${dir}/${file}` is `file` for every non-empty, '/'-free entry name |
| Config.Pick | src/action.js:10-15 | a truthy option wins; otherwise the environment variable; the result is `''` only when both are |
| Config.OptionWins | src/action.js:10-15 | with every option given, the environment is never consulted |
| Listing.Insert | src/action.js:37 | inserting into a sorted list keeps it sorted and adds exactly that one element |
| Listing.SortNames | src/action.js:37 | `sort()` yields an ascending permutation of the listing |
| Listing.ScriptsOfCounts | src/action.js:45 | the `.js` filter keeps each `.js` name as often as it occurs and drops every other name |
| Listing.ScriptsOfKeepsOrder | src/action.js:45 | filtering a sorted list leaves it sorted |
| Listing.SelectScriptsSpec | src/validate.js:73-76 | the selected files are ascending and are exactly the `.js` entries of the listing, with their multiplicities |
| Listing.NoScriptsSelectsNothing | src/validate.js:73-81 | a listing without a `.js` name selects no file |
| History.FindEntry | src/execute-migration.js:24-26 | `find` returns nothing exactly when no entry has the name, and otherwise an entry with that name |
| History.EnsureTable | src/execute-migration.js:12-13 | `createIfNotExists` makes the `_migrations` container exist and changes no stored document |
| History.Upsert | src/execute-migration.js:51 | the document is stored under its id; every other document of every database is unchanged |
| History.SkipIffExecuted | src/execute-migration.js:24-34 | a script is skipped exactly when the first history entry with its basename has a truthy `executedOn`; a skip writes no history |
| History.RanIffNotExecuted | src/execute-migration.js:23-37 | `run` is invoked exactly when the script loaded and was not skipped |
| History.FailureKeepsHistory | src/execute-migration.js:37-51 | every outcome other than a completed, recorded run leaves all history unchanged |
| History.RecordedAppendsOneEntry | src/execute-migration.js:40-51 | a recorded run leaves the old list plus one `{scriptName, executedOn}` at its end, or a new one-entry document; every other container and database is unchanged |
| History.FirstRunCreatesRecord | src/execute-migration.js:46-49 | with no document for the container, a completed run creates one with `id` = container name and exactly one entry |
| History.TransitionKeepsWellKeyed | src/execute-migration.js:46-51 | every document stays stored under its own id |
| History.HealthyExecutedOn | src/execute-migration.js:24-29 | in a document with distinct names and truthy stamps, a name has a truthy `executedOn` exactly when it is listed |
| History.TransitionKeepsHealthy | src/execute-migration.js:40-44 | with a non-empty timestamp, names stay distinct and stamps truthy |
| History.SecondExecuteSkips | src/execute-migration.js:24-51 | when the target document, if any, has distinct names and truthy stamps, executing a script right after its recorded run skips it and changes nothing |
| History.BlankStampRunsAgain | src/execute-migration.js:24-44 | an entry with an empty `executedOn` does not protect its script: it runs and is listed twice |
| History.BlankFirstEntryRunsEveryTime | src/execute-migration.js:24-51 | when the first entry with the script's name has an empty `executedOn`, a completed run is recorded and leaves that first entry in place, so the same holds on the next execute |
| History.HistoryStore.Execute | src/execute-migration.js:4-52 | the new history and the outcome are those of `Transition` on the old history; history changes only on a recorded run |
| Driver.ConfigErrors | src/action.js:17-25 | each message is present exactly when its setting is missing, in the order DB_URL, DB_KEY, MIGRATIONS_DIR, with no other message |
| Driver.ConfigReportEmpty | src/action.js:26-30 | the report is empty, so there is no exit, exactly when both credentials are given and the folder exists |
| Driver.ConfigReportAllMissing | src/action.test.js:80-94 | with nothing configured and no folder, the report is the three messages in order |
| Driver.RunAllAppend | src/action.js:60-63 | when no file of a first part fails, running a list of files is running the first part, then the rest from the history it leaves |
| Driver.RunAllAgrees | src/action.js:60-63 | a chain of steps that ends with the files or at the first failure is the run of the loop |
| Driver.RunAllFailFast | src/action.js:58-69 | files are executed as ordered, every one but the last succeeded, and the loop stops early only after a failure |
| Driver.RunAllKeepsHistoryValid | src/action.js:60-63 | a run keeps every document under its id and, with non-empty stamps, keeps names distinct |
| Driver.FirstFailureStopsRun | src/action.js:58-69 | when the first file fails, nothing else is executed and no history changes |
| Driver.ExecuteInOrder | src/action.js:58-69 | the loop's trace and the new store are those of `RunAll` on the old store; it fails exactly when the last executed file failed |
| Driver.Migrate | src/action.js:7-70 | the outcome is: configuration errors iff a setting is missing; nothing to do iff the listing is empty; refusal iff over 200 `.js` files; otherwise the run over the selected files, with the warning iff over 100. Store unchanged unless scripts ran |
| Validator.HardIffNoWarningPrefix | src/validate.js:112 | a finding is hard exactly when its message does not start with `[warning]` |
| Validator.FindingsOf | src/validate.js:13-48 | one finding per rule, in the rules' order |
| Validator.FiredSpec | src/validate.js:13-48 | the rules reported are exactly the violated ones, in rank order, no more than there are rules |
| Validator.FindingsOfFired | src/validate.js:13-48 | the findings are one per violated rule, all rule findings, in strictly increasing rank |
| Validator.ValidateScriptStructure | src/validate.js:5-51 | the successive pushes yield exactly the structure errors of the exports |
| Validator.StructureErrorsSpec | src/validate.js:13-48 | for an object: at most five findings; each rule's finding appears iff the rule is violated; fixed order; the warning, if any, is last |
| Validator.WarningComesLast | src/validate.js:42-48 | in rank order the both-modes warning can only be the last finding |
| Validator.NotObjectReportedAlone | src/validate.js:8-11 | a falsy or non-object module yields exactly the "did not export an object" finding |
| Validator.BlankQueryRejected | src/validate.js:30-40 | with `updateItem` a function and `query` a string, the query finding appears iff the query is all whitespace |
| Validator.ContainerNameOnly | src/validate.test.js:28-47 | exporting only `containerName = 'test'` yields the databaseName finding and the mode finding, in that order |
| Validator.RunScriptPasses | src/validate.test.js:14-26 | a script with a database, a container and `run` yields no finding |
| Validator.UpdateItemScriptPasses | src/validate.test.js:14-26 | a script with a database, a container, `updateItem` and a query that is not all whitespace yields no finding, the shape of the `updateItem` examples |
| Validator.TitleFixQueryNotBlank | src/validate.test.js:14-26 | the query of the `001-jedi-title-fix.js` example is not all whitespace |
| Validator.IssuesOfSpec | src/validate.js:85-103 | every collected issue comes from a file, every failing file's issue is collected, and there are none exactly when every file loads and passes |
| Validator.IssuesInFileOrder | src/validate.js:85-103 | the `k`-th collected issue is the issue of the `k`-th failing file, named after it, and every failing file has one |
| Validator.IssuesComplete | src/validate.js:94-101 | the issue of every failing file is in `allErrors` |
| Validator.IssueSeverity | src/validate.js:94-101 | an issue names its file, holds a finding, is warnings-only exactly when it is the both-modes warning alone, and is hard on a load failure |
| Validator.SoftIssuesAreWarnings | src/validate.js:105-116 | there is no hard error exactly when every issue is the both-modes warning alone |
| Validator.CollectIssues | src/validate.js:85-103 | the loop's `allErrors` is the issue list of the files, in order |
| Validator.AnyHardError | src/validate.js:105-116 | `hasHardErrors` is set exactly when some message does not start with `[warning]` |
| Validator.Validate | src/validate.js:53-122 | the outcome is: folder error iff the resolved folder is missing; nothing to validate iff no `.js` file; otherwise the collected issues and the hard-error flag; success with the `.js` file count iff no issue |

## Left out

- The Cosmos DB client and the network. `createIfNotExists`, `item.read` and `items.upsert` are operations on the in-memory map of `HistoryStore`, and they never fail. The `CosmosClient` constructor is not modelled.
- `script.run(database, container)`: its effect on the target container is not modelled. Only how it ends (`Completes` or `Throws`) is an input.
- `script.run` and the `_migrations` container: the model assumes `run` never writes the `_migrations` container. In the code, a `run` that edits its own history document and then throws leaves that edit in place. A `run` that edits it and completes has the edit overwritten, because the record upserted at src/execute-migration.js:51 is built from the copy read at line 21, before the call at line 37. History.FailureKeepsHistory, History.RecordedAppendsOneEntry and History.SecondExecuteSkips hold under this assumption.
- `require` and the require cache. The module a path loads, or the error loading it throws, is an input: a map in `Migrate`, a function in `Validate`. A load failure's message stands for `err?.message || String(err)`.
- A history document whose `scripts` is present but not an array (`0`, `''`, an object): `migrations?.scripts?.find` throws a TypeError at src/execute-migration.js:24, before `run` is called. `Record.scripts` is an optional list, so this case is not modelled.
- `fs.existsSync` and `fs.readdirSync` are inputs: a set of existing paths and the listing.
- A `migrationsDir` that names a regular file: `fs.existsSync` is true for it, so the check at src/action.js:22 and src/validate.js:62 passes, and `fs.readdirSync` then throws at src/action.js:37 and src/validate.js:73, outside any `try`. The model treats every existing path as a folder, so this uncaught error is not modelled.
- `dotenv.config()` and `process.env` are inputs: the environment settings after loading.
- `process.cwd()` is a parameter.
- `path.resolve` and `path.join` do no normalisation of `.`, `..` or repeated slashes. A relative setting is joined to the working directory, and `path.join` is modelled as `${dir}/${file}`, the same join `migrate` writes.
- The default `sort()` compares UTF-16 code units. The model compares Dafny characters, which agrees for characters of the Basic Multilingual Plane.
- `typeof`: only `'string'`, `'function'` and `'object'` are told apart. Numbers, booleans, symbols and bigints are one primitive kind that keeps only its truthiness. Property lookup on a non-object export is never reached.
- `new Date().toISOString()`: the clock readings are a parameter, one per executed script.
- `console.log`, `console.warn` and `console.error` output is not modelled. The warning about more than 100 scripts is the flag `warned`.
- `process.exit(1)` is a terminal outcome (`ExitsWithOne`). Nothing after it is executed.
- The thrown "more than 200 migrations" error is the outcome `TooManyMigrations`.
- async/await: each await is an ordinary sequential step.
- Validator.ValidateScriptStructure: the unused `scriptFileName` parameter is dropped.
- The command-line entry point (`src/index.js`) and the example scripts under `migration-examples/` are not part of this model.
