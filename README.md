# roxy: environment lifecycle, modelled in Dafny

roxy keeps one container environment per project directory. `init` provisions a
container from a compose template and records it in an SQLite registry. `enter` and
`kill` pick one registered environment: by name, path or uuid, or, without a
selector, from the current directory. `kill` then tears that environment down.

This project models that core and proves properties of it. It has these parts:

- `Repo` (repo.dfy): the records.
- `Uuids`: the uuid and its canonical text.
- `Text`: Rust's `split` and `trim`. `str::lines` is modelled as a split at `\n` (`Docker.Lines`, see "## Left out").
- `Util`: `option_to_vec` and `get_entry_name`.
- `Sqlite`, the registry.
  - The table is a sequence of rows held by the class `Store`.
  - `Select` scans it with a loop, as the `find_*`/`list` loops do.
  - Every query is specified by the function `Query`.
- `Usecase`: the resolver `specify_env_to_operate`, as the function `Resolve` over a snapshot of the table.
- `EnterUsecase`, `KillUsecase` and `InitUsecase`: the three handlers, each a class over the runtime and the store.
- `Cli`: the mapping from the parsed subcommand to the use-case action.
- `Docker`, the runtime.
  - The compose document and its rewrite.
  - The extraction of the container id from `docker compose ps -q`.
  - The two step sequences, provisioning and teardown.

How the runtime is modelled:

- Each external operation's outcome comes from a "world" value.
- The class `DockerRuntime` logs, in order, every operation it attempts in `executed`.
- It also tracks which directories exist on the host.
- Each method's log and result are tied to a pure specification:
  - a plan, i.e. the full list of steps;
  - a run function that says how many plan steps are attempted and what is returned.

The resolver is written twice in the source: once in `specify_env_to_operate`, and
once inline in the `enter` handler. `EnterUsecase.EnterHandler.Handler` models the
inline copy statement by statement. Its postcondition proves that it enters exactly
the record that `Usecase.SpecifyEnvToOperate` selects, and nothing when that selects
nothing. So the two policies agree.

In four places the code does not do what the tool is meant to do, which is to keep one consistent record per project directory and to tear an environment down completely. The model follows the code:

- `init` does not check whether the path is already registered. A second `init` on a path adds a second row (`InitUsecase.NoPathUniquenessCheck`).
- `kill` never removes the record from the registry (`KillUsecase.KillHandler.Handle` leaves `store` unchanged).
- Without a selector, several records for the current directory are not reported as a consistency violation. The resolver takes the first one (`Usecase.NoSpecifierSeveralEnvironments`).
- Teardown stops at the first failing step instead of trying the later ones (`Docker.TeardownRun`).

## Model

| member | source | states |
|---|---|---|
| Uuids.Parse | src/infra/sqlite.rs:45 | `parse_str` accepts only texts of the simple, hyphenated, braced or URN length. Its round trip with the canonical text is `Uuids.ParseToString`. |
| Uuids.ToString | src/infra/sqlite.rs:65 | The canonical text is 36 characters with hyphens at positions 8, 13, 18 and 23. |
| Uuids.ParseToString | src/infra/sqlite.rs:45 | The canonical hyphenated text of a uuid, which is what the uuid column stores, parses back to that uuid. |
| Uuids.ToStringInjective | src/infra/sqlite.rs:145-148 | Distinct uuids have distinct texts, so a lookup by uuid text is a lookup by uuid. |
| Text.JoinSplit | src/infra/docker.rs:213 | Splitting output into lines loses nothing: joining the pieces with the separator gives the text back. |
| Text.TrimShape | src/infra/docker.rs:214-215 | A trimmed line is a contiguous part of the line, and everything dropped around it is white space. |
| Text.TrimEmptyIffBlank | src/infra/docker.rs:214 | A line trims to the empty string exactly when it is blank. |
| Util.OptionToVec | src/util/mod.rs:41-49 | The vector built by pushing the optional value is the option's elements. |
| Util.ElementsRoundTrip | src/util/mod.rs:41-49 | The option's elements number at most one. They are empty exactly for None and contain `t` exactly for `Some(t)`. Their first element gives the option back. |
| Util.FileName | src/util/mod.rs:38 | A file name, when there is one, is a normal path component: not empty, not `.` or `..`, and without `/`. |
| Util.GetEntryName | src/util/mod.rs:37-39 | The caller must supply a path that has a final component, since the source unwraps it. The result is a normal component. |
| Util.EntryNameOfChild | src/util/mod.rs:37-39 | The entry name of `dir/name` is `name`, whatever `dir` is. |
| Util.EntryNameIgnoresTrailingSlash | src/util/mod.rs:38 | A trailing slash does not change the file name. |
| Util.NoEntryName | src/util/mod.rs:38 | These paths have no file name, so `unwrap` would panic: `/`, the empty path, `.`, and any path ending in `/..`. |
| Sqlite.Where | src/infra/sqlite.rs:91 | The rows of a `SELECT ... WHERE`, in table order and no more than the table holds. Exactly the matching rows are kept (`Sqlite.WhereMembers`). |
| Sqlite.Except | src/infra/sqlite.rs:202 | The rows a `DELETE ... WHERE` leaves, no more than the table holds. Exactly the non-matching rows are kept (`Sqlite.ExceptMembers`). |
| Sqlite.Decode | src/infra/sqlite.rs:106-110 | A successful conversion gives one record per row; `Sqlite.DecodeShape` adds that each record is its row's. |
| Sqlite.Query | src/infra/sqlite.rs:84-193 | A successful query returns no more records than the table has rows. `Sqlite.Store.Select` is proved to compute it. |
| Sqlite.UuidWhereAtMostOne | src/infra/sqlite.rs:25 | Under the primary key on the uuid column, a lookup by uuid text matches at most one row. |
| Sqlite.WhereMembers | src/infra/sqlite.rs:84-168 | The rows a `find_by_*` query selects are exactly the rows of the table whose column equals the key. |
| Sqlite.ExceptMembers | src/infra/sqlite.rs:195-225 | The rows a `remove_by_*` keeps are exactly the rows of the table whose column differs from the key. |
| Sqlite.RecordFromParts | src/infra/sqlite.rs:39-58 | `record_from_parts` fails exactly when the uuid text does not parse, with the uuid error. Otherwise path, name and container id are copied verbatim, and the uuid is the parsed one. |
| Sqlite.FromRowOf | src/infra/sqlite.rs:63-68 | The row that `insert` writes for a record converts back to that record. |
| Sqlite.DecodeShape | src/infra/sqlite.rs:105-110 | A successful scan returns one record per row, each the conversion of its row. The scan fails exactly when some row does not convert. |
| Sqlite.DecodeAppend | src/infra/sqlite.rs:106-109 | One more row of the scan either propagates the earlier error, raises its own, or appends its record. |
| Sqlite.DecodeStep | src/infra/sqlite.rs:106-109 | One step of the scan loop: a row that does not match changes nothing, and a matching row appends its record or ends the scan with its error. |
| Sqlite.WhereErrorPersists | src/infra/sqlite.rs:105-110 | Once a scan has failed, the `?` makes the whole query fail with that same error. |
| Sqlite.WhereExceptPartition | src/infra/sqlite.rs:195-225 | Rows removed plus rows kept equal the rows of the table. |
| Sqlite.ExceptKeepsUnique | src/infra/sqlite.rs:25 | A delete keeps the uuid primary key intact. |
| Sqlite.EmptyTableQueries | src/infra/sqlite.rs:84-193 | On an empty table, `list` and every `find_by_*` return an empty result. |
| Sqlite.FindInsertedByUuid | src/infra/sqlite.rs:63-82 | Suppose a record's uuid is not yet in the table and its row is appended. Then `find_by_uuid` of that uuid returns exactly that record. |
| Sqlite.DeleteRemovesExactly | src/infra/sqlite.rs:195-225 | After a delete, no row matches the key and every row that did not match is kept. The number of rows drops by the number of matches. |
| Sqlite.Store.Open | src/infra/sqlite.rs:13-36 | The table is kept as it is (`CREATE TABLE IF NOT EXISTS`), with its primary key. |
| Sqlite.Store.Insert | src/infra/sqlite.rs:63-82 | For a new uuid, the record's row is appended and the result is Ok. For a uuid already present, the result is the database error and the table is unchanged. Either way the primary key holds. |
| Sqlite.Store.Select | src/infra/sqlite.rs:105-110 | The scan loop returns the query's result: the matching rows converted in table order, or the first conversion error. |
| Sqlite.Store.FindByPath | src/infra/sqlite.rs:84-111 | Returns the records of the rows whose path equals the key. |
| Sqlite.Store.FindByName | src/infra/sqlite.rs:113-139 | Returns the records of the rows whose name equals the key. |
| Sqlite.Store.FindByUuid | src/infra/sqlite.rs:141-168 | Returns the records of the rows whose uuid text equals the uuid's canonical text. Under the primary key (`Valid`) that is at most one record. |
| Sqlite.Store.List | src/infra/sqlite.rs:170-193 | Returns the records of every row. |
| Sqlite.Store.Find | src/domain/usecase/mod.rs:38 | `find(specifier)` routes to the lookup for the specifier's kind. |
| Sqlite.Store.Delete | src/infra/sqlite.rs:204-205 | A DELETE keeps exactly the non-matching rows and returns how many rows matched beforehand, 0 included. |
| Sqlite.Store.RemoveByPath | src/infra/sqlite.rs:195-206 | Deletes the rows with that path and returns how many there were. |
| Sqlite.Store.RemoveByName | src/infra/sqlite.rs:208-215 | Deletes the rows with that name and returns how many there were. |
| Sqlite.Store.RemoveByUuid | src/infra/sqlite.rs:217-225 | Deletes the rows with that uuid and returns how many there were. |
| Usecase.Resolve | src/domain/usecase/mod.rs:28-101 | With a specifier the outcome is a selection, a store error, no match or an ambiguity. Without one it is a selection, a store error, an empty registry or an undetermined choice. An empty table gives no match or an empty registry. The lemmas below state the policy case by case. |
| Usecase.SpecifyEnvToOperate | src/domain/usecase/mod.rs:28-101 | An empty registry selects nothing. The chosen record is the one `Resolve` selects, as the lemmas below state from `SpecifiedNoMatch` to `SelectedIsStored`. |
| Usecase.WhereAll | src/infra/sqlite.rs:173 | The query without WHERE selects the whole table. |
| Usecase.QueryStored | src/infra/sqlite.rs:84-193 | Every record a query returns is the conversion of a matching row of the table. |
| Usecase.QueryOfConvertible | src/infra/sqlite.rs:105-110 | When every row converts, a query succeeds with one record per matching row, in order. |
| Usecase.SpecifiedNoMatch | src/domain/usecase/mod.rs:46-50 | A specifier that matches no row selects nothing ("not found"). |
| Usecase.SpecifiedUniqueMatch | src/domain/usecase/mod.rs:52-55 | A specifier that matches exactly one row selects that row's record. |
| Usecase.UuidSpecifierNeverAmbiguous | src/domain/usecase/mod.rs:34-60 | Under the primary key a uuid specifier is never ambiguous. |
| Usecase.SpecifiedAmbiguous | src/domain/usecase/mod.rs:57-59 | A specifier that matches two or more rows selects none of them. |
| Usecase.SelectedMatchesSpecifier | src/domain/usecase/mod.rs:34-60 | The record a specifier selects has that uuid, path or name. |
| Usecase.NoSpecifierEmptyRegistry | src/domain/usecase/mod.rs:73-77 | Without a specifier, an empty registry selects nothing. |
| Usecase.NoSpecifierSingleEnvironment | src/domain/usecase/mod.rs:79-82 | Without a specifier, a registry with one environment selects it, whatever the current directory. |
| Usecase.NoSpecifierSeveralEnvironments | src/domain/usecase/mod.rs:85-100 | Without a specifier and with several readable environments, the first one registered for the current directory is selected, and nothing when none is. |
| Usecase.NoSpecifierSelectsCurrentDirectory | src/domain/usecase/mod.rs:85-96 | Without a specifier and with several environments, whatever is selected is registered for the current directory. |
| Usecase.UnreadableRowSelectsNothing | src/domain/usecase/mod.rs:38-44 | A store error selects nothing. Without a specifier, an unreadable row always fails the query. With a specifier, it fails the query when it matches (also lines 65-71 and 85-91). |
| Usecase.SelectedIsStored | src/domain/usecase/mod.rs:28-101 | The resolver invents nothing: a selected record is the conversion of a row of the table. |
| Cli.CliSubcommandToUsecaseAction | src/cli/mod.rs:24-51 | Each subcommand maps to the action of the same kind. `enter` and `kill` carry no specifier exactly when no selector is given. The priority of the selectors is `Cli.SpecifierIsFirstCandidate` and `Cli.PriorityOrder`. |
| Cli.Candidates | src/cli/mod.rs:27-37 | There are at most three candidate specifiers, and none exactly when no selector is given. |
| Cli.SpecifierIsFirstCandidate | src/cli/mod.rs:24-51 | For both `enter` and `kill`, the specifier is the first selector given, in the order name, path, uuid. |
| Cli.NameWins | src/cli/mod.rs:28-29 | A name is chosen whatever the path and the uuid hold. |
| Cli.PriorityOrder | src/cli/mod.rs:30-36 | A path is chosen only without a name, and a uuid only without a name and a path. No specifier is chosen exactly when no selector is given. |
| Cli.KillMapsLikeEnter | src/cli/mod.rs:24-51 | `kill` maps its selectors as `enter` does. `init` and `list` map to themselves. |
| Docker.VolumeBindingInjective | src/infra/docker.rs:136 | Distinct project paths give distinct workspace bindings. |
| Docker.RewriteVolumes | src/infra/docker.rs:129-138 | The rewrite fails with `InvalidComposeConfig` exactly when the document does not have one service. Otherwise the sole service's volumes become exactly the project binding, replacing any earlier value. The version, the other keys, the service name and the service's other keys are kept. |
| Docker.RewriteIdempotent | src/infra/docker.rs:136-138 | Rewriting a rewritten document changes nothing. |
| Docker.RewriteForgetsVolumes | src/infra/docker.rs:138 | The rewrite does not depend on the service's earlier volumes, None included. |
| Docker.ConfigDir | src/infra/docker.rs:53-54 | The configuration directory is `/tmp/pwnenv-<uuid>/`: 49 characters, with that prefix and a trailing slash. |
| Docker.ContainerIds | src/infra/docker.rs:212-216 | Every collected id is a non-empty single line with no white space at either end. The first is the first non-blank line, trimmed (`Docker.FirstContainerIdIsFirstNonBlankLine`). |
| Docker.Lines | src/infra/docker.rs:212-213 | No line contains a newline. |
| Docker.NonEmpty | src/infra/docker.rs:214 | The kept strings are non-empty, and there are no more of them than there were. |
| Docker.NonEmptyKeepsInputs | src/infra/docker.rs:214 | Every kept string is one of the input strings. |
| Docker.NonBlankTrimmed | src/infra/docker.rs:212-216 | Every collected id is non-empty and has no white space at either end. |
| Docker.IdsAreSingleLines | src/infra/docker.rs:212-216 | An id collected from lines contains no newline. |
| Docker.FirstContainerId | src/infra/docker.rs:212-227 | The result is the NotFound error exactly when no id is collected. Otherwise it is a trimmed single-line id. |
| Docker.FirstIdOfLines | src/infra/docker.rs:212-216 | The first collected id is the first non-blank line, trimmed. |
| Docker.NoIdOfBlankLines | src/infra/docker.rs:212-216 | Blank lines yield no id. |
| Docker.FirstContainerIdIsFirstNonBlankLine | src/infra/docker.rs:212-227 | The container id is the first non-blank line of the `ps -q` output, trimmed. |
| Docker.BlankOutputHasNoContainerId | src/infra/docker.rs:220-224 | Output with only blank lines gives the NotFound error. |
| Docker.PlanDockerCommands | src/infra/docker.rs:161-209 | In provisioning, the docker commands are the last two steps, and `ps` is the last one. |
| Docker.CopyTemplatesRun | src/infra/docker.rs:72-107 | Copying the templates takes at most four steps, and all four when it succeeds. A failed `create_new` or copy ends it with its own error. |
| Docker.CopyRunOutcome | src/infra/docker.rs:72-123 | Filling the directory succeeds exactly when both copies and the read of the template succeed, an existing file being tolerated. It then takes all six steps. A failing `create_new` of the Dockerfile ends it at step 1 with an error naming the file. |
| Docker.CopyRun | src/infra/docker.rs:72-123 | Filling the directory takes one to six steps: the two template copies and then the open and read of the compose template. `Docker.CopyRunOutcome` states when it succeeds and how it fails. |
| Docker.PrepareRun | src/infra/docker.rs:54-123 | The file steps succeed exactly when every one does. The stale-directory removal tolerates only its absence; any other failure ends the run at step 1, before `create_dir`. A failed `create_dir` ends it at step 2, with the directory in the error. |
| Docker.ValidateTemplate | src/infra/docker.rs:125-141 | Validation yields a document exactly when the template parsed, has one service and the rewrite serialises. The document is then the rewritten template. A template without exactly one service gives `InvalidComposeConfig`. |
| Docker.LaunchRun | src/infra/docker.rs:144-227 | Saving and starting succeeds exactly when `create`, `write_all`, `flush`, `up` and `ps` succeed and an id is listed. It then takes five steps, and the result is the first listed id. A failed `up` stops before `ps`. A failed `create` ends it at step 1 with an error naming the compose file. |
| Docker.FinishRun | src/infra/docker.rs:125-227 | The remaining steps succeed exactly when the template parses, has one service and serialises, every file step succeeds, `up` and `ps` succeed, and an id is listed; the result is then the first id. A document without exactly one service fails before any external step. A failed `up` stops the run before `ps`. |
| Docker.ProvisionRun | src/infra/docker.rs:48-228 | `provision_and_start` succeeds exactly when every step does, after all 13 steps, with the first listed id. A stale-directory fault stops it at step 1. A template without exactly one service stops it at step 8 with `InvalidComposeConfig`. Step 12 (`up`) is reached only with a valid template, and a failed `up` means `ps` is never attempted. |
| Docker.NoContainerWithoutValidTemplate | src/infra/docker.rs:129-186 | No docker command runs unless the template reached validation with exactly one service. `ps` never runs after a failed `up`. |
| Docker.ProvisionWritesRewrittenTemplate | src/infra/docker.rs:136-152 | A successful run writes the rewritten document: one service whose only volume is the project binding. |
| Docker.TeardownPlan | src/infra/docker.rs:234-276 | Teardown plans three steps: `docker kill` and `docker rm` of the record's container, then the removal of the directory. `Docker.TeardownOrder` states the order that is run. |
| Docker.TeardownDirAsWritten | src/infra/docker.rs:271-272 | The directory teardown builds is `/tmp/<uuid>`: 41 characters in all, starting with `/tmp/`. `Docker.TeardownDirAsWrittenMissesConfigDir` shows it is not the configuration directory. |
| Docker.TeardownRun | src/infra/docker.rs:234-279 | Teardown succeeds exactly when `kill` and `rm` succeed and the directory is removed. A failed `kill` ends it at step 1, a failed `rm` at step 2, and a missing directory gives NotFound at step 3. |
| Docker.TeardownOrder | src/infra/docker.rs:234-279 | Teardown starts with `docker kill`. The directory is removed only after both docker commands succeed. |
| Docker.TeardownDirAsWrittenMissesConfigDir | src/infra/docker.rs:272 | The directory teardown removes is not the one provisioning creates at line 54, not even up to a trailing slash. |
| Docker.DockerRuntime.ProvisionAndStart | src/infra/docker.rs:48-228 | The log grows by exactly the planned steps that `ProvisionRun` attempts, and the result is `ProvisionRun`'s. The configuration directory exists afterwards unless the stale removal or `create_dir` failed. |
| Docker.DockerRuntime.PrepareFiles | src/infra/docker.rs:54-123 | The log grows by the attempted prefix of the file steps, the result is `PrepareRun`'s, and the directories change as the first two steps say. |
| Docker.DockerRuntime.SaveAndStart | src/infra/docker.rs:125-227 | The log grows by the attempted prefix of the save-and-start steps, and the result is `FinishRun`'s. |
| Docker.DockerRuntime.CopyFiles | src/infra/docker.rs:72-123 | The log grows by the attempted prefix of the copy-and-read steps, and the result is `CopyRun`'s. The directories are unchanged. |
| Docker.DockerRuntime.CopyTemplates | src/infra/docker.rs:72-107 | The log grows by the attempted prefix of the two copies, and the result is `CopyTemplatesRun`'s. The directories are unchanged. |
| Docker.DockerRuntime.Launch | src/infra/docker.rs:144-227 | The log grows by the attempted prefix of the save, `up` and `ps` steps, and the result is `LaunchRun`'s. The directories are unchanged. |
| Docker.DockerRuntime.ReplaceConfigDir | src/infra/docker.rs:55-68 | The stale directory is removed, tolerating only its absence, and then created again. A failure ends the step with an I/O error naming the directory. |
| Docker.DockerRuntime.CopyTemplate | src/infra/docker.rs:72-88 | `create_new` tolerates an existing file, and then the template is copied. A failure ends the step with its I/O error (lines 91-107 are the same for the compose file). |
| Docker.DockerRuntime.ReadTemplate | src/infra/docker.rs:111-123 | The template is opened and then read. A failure ends the step with an I/O error naming the template. |
| Docker.DockerRuntime.SaveCompose | src/infra/docker.rs:144-158 | The compose file is created, written and then flushed. The first failure ends the step with an I/O error naming the file. |
| Docker.DockerRuntime.StartAndFindContainer | src/infra/docker.rs:161-227 | `up` runs; only if it succeeds does `ps` run. The result is the first listed container id, or the first error. |
| Docker.DockerRuntime.Enter | src/infra/docker.rs:230-232 | Records one attach to the record's container and nothing else. |
| Docker.DockerRuntime.Teardown | src/infra/docker.rs:234-279 | The log grows by the attempted teardown steps in order, and the result is `TeardownRun`'s. The directory disappears exactly when the teardown succeeds. |
| Docker.DockerRuntime.KillAsWritten | src/infra/docker.rs:234-279 | `kill` as written: `Teardown` of `/tmp/<uuid>`. |
| Docker.DockerRuntime.Kill | src/infra/docker.rs:234-279 | `kill` with the directory corrected: `Teardown` of `/tmp/pwnenv-<uuid>/`, the directory provisioning created. |
| Docker.ProvisionOnCleanHost | src/infra/docker.rs:48-228 | A successful provisioning on a clean host yields the record with the first listed id. Afterwards the configuration directory is the only directory, so `/tmp/<uuid>` does not exist. |
| Docker.ProvisionThenKillAsWritten | src/infra/docker.rs:272-276 | With the code as written, provisioning and then a clean kill ends in NotFound, and the configuration directory is left behind. |
| Docker.ProvisionThenKill | src/infra/docker.rs:272-276 | With the directory corrected, the same run succeeds and removes the configuration directory. |
| EnterUsecase.EnterHandler.Handler | src/domain/usecase/enter.rs:17-93 | The handler's inline policy attaches to exactly the record `specify_env_to_operate` selects for the same table, directory and specifier, at most once: the log grows by at most one operation. Not-found, ambiguous and store-error cases touch no runtime operation. |
| KillUsecase.KillHandler.Handle | src/domain/usecase/kill.rs:20-27 | `kill` runs once exactly when the resolver selects a record. It tears that record's container down, and its outcome is ignored. Otherwise no runtime operation runs. The registry is untouched. |
| KillUsecase.KillTargetsResolvedContainer | src/domain/usecase/kill.rs:21-26 | The teardown starts with `docker kill` on the resolved record's container, and that record is stored in the table. |
| InitUsecase.InitSpec | src/domain/usecase/init.rs:23-31 | The spec carries the supplied uuid and the given path, and is named after the path's final component. |
| InitUsecase.NoPathUniquenessCheck | src/domain/usecase/init.rs:21-44 | Registering a record for a path that is already registered adds one more row for that path. |
| InitUsecase.InitHandler.Handle | src/domain/usecase/init.rs:21-44 | Provisioning runs once, as `ProvisionRun` says. Then, only when it succeeded, the record built from the spec and the returned container is inserted: the table gains exactly that row if the uuid is new and is otherwise unchanged. The primary key holds. |

## Left out

- Uuid generation (init.rs:25).
  - The uuid is a parameter of `InitUsecase.InitHandler.Handle`.
  - Its freshness in the table is a case of the contract, not an assumption.
- Logging (`info!`/`error!`) has no effect on the model.
  - The resolver's distinct reasons appear as `Usecase.Resolution`.
  - The selected record is returned by `Usecase.SpecifyEnvToOperate`.
- Sqlite.Store.Insert: it fails only on the uuid primary key. Other SQL engine failures are not modelled, and neither are the failures of `prepare`, `query_map` and row reads:
  - opening the database;
  - preparing a statement;
  - reading a row.
- The SQL engine itself is replaced by the in-memory table.
- Row order of a SELECT is taken to be table (insertion) order.
- Lossy UTF-8 conversion is not modelled. Paths are strings, so `to_string_lossy` does not arise, and the `ps` output is taken as a string, so `String::from_utf8_lossy` (docker.rs:212) does not arise either.
- YAML text is not modelled.
  - `serde_yaml::from_str` is an oracle: the parsed `Compose`, or None.
  - `serde_yaml::to_string` is the bit `serializes`.
  - File contents are not modelled; the written document is recorded in the `WriteAll` effect.
- Subprocess execution, file creation, copying and flushing are oracles.
  - Each comes from the world value; the stdio streaming of `up` is not modelled.
  - `Error::Command` keeps only whether the command failed to spawn; error messages and statuses are dropped.
- Docker.DockerRuntime.Enter: `enter` and `is_running` in docker.rs are `todo!()`. `Enter` only records one attach, and `is_running` is not part of this model.
- The `handle` dispatch (src/domain/usecase/mod.rs:103-125) is not modelled. It only builds the docker and sqlite objects.
- These files have no decision logic and are not part of this model:
  - the list use case (src/domain/usecase/list.rs), which is table printing;
  - src/main.rs;
  - src/cli.rs;
  - the argument struct in src/cli/enter.rs, whose three optional fields are `Cli.Args`.
- `fs_present`, `create_dir` and `whoami` (src/util/mod.rs:8-35) are filesystem and process I/O and are not modelled.
- The traits in src/domain/repo.rs are not modelled; their signatures are stale. The model follows the implementations:
  - `provision_and_start` takes the shared resources and returns a `Result`;
  - the runtime operations take the whole record;
  - `find_by_path` returns a sequence, of which the resolver takes the first element.
- InitUsecase.InitHandler.Handle: the source ignores `provision_and_start`'s `Result` (init.rs:34-40), which does not type-check against the implementation. The model inserts only a successful result. The result of `insert` is discarded, as in the source.
- KillUsecase.KillHandler.Handle uses the corrected `Docker.DockerRuntime.Kill` (see Findings). The as-written behaviour is `Docker.DockerRuntime.KillAsWritten`.
- Sqlite.Store.Find: the composite `find(specifier)` is not in the source. It is modelled as routing by the specifier's kind to `find_by_uuid`, `find_by_path` or `find_by_name`.
- Concurrency between invocations is not modelled. Each invocation is one sequential run over one snapshot of the table.
- Docker.Lines: `str::lines` (docker.rs:213) is modelled as a split at `\n`. The Rust function drops a final empty line and strips a `\r` before each `\n`; the split keeps both. They yield the same container ids, because the empty piece is blank and `str::trim` removes the `\r`. That equivalence is argued here, not proved.

## Findings

| source | as written | input that shows it | evidently intended | confidence | as-written member | corrected member |
|---|---|---|---|---|---|---|
| src/infra/docker.rs:272 | Teardown removes `/tmp/<uuid>`, but provisioning created `/tmp/pwnenv-<uuid>/` (line 54). The comments at lines 53 and 271 both say `/tmp/<uuid>`, so line 54 may be the odd one out; the two sites disagree either way. | Provision successfully on a clean host, then kill with `docker kill` and `docker rm` both succeeding: the removal fails with NotFound, and `/tmp/pwnenv-<uuid>/` is left behind (`Docker.ProvisionThenKillAsWritten`, `Docker.TeardownDirAsWrittenMissesConfigDir`). | Both sites name one directory, so that the same run succeeds and leaves no directory. The fix could go at either line; the model makes teardown remove the directory provisioning created (`Docker.ProvisionThenKill`). | not executed | Docker.DockerRuntime.KillAsWritten | Docker.DockerRuntime.Kill |
