# realm-cli command core, modelled in Dafny

This project models three pieces of the Realm command-line tool:

- **The command factory** (`internal/cli/cli.go`). It builds each CLI command from a
  `CommandDefinition`. It resolves the telemetry mode, saving the profile only when the
  mode changes. It fills in the input, output and error streams and the terminal UI on
  first use. It wraps each phase's error under the command's display name. It also decides
  whether a failed run prints the usage text, and how the process ends.
- **`app diff`** (`internal/commands/app/diff.go`). `Resolve` fills in the local path and
  the remote app: it searches the working directory and may prompt for a path. `Handler`
  loads the app and resolves the remote app. It then prints the configuration diff,
  followed by the dependency diff and the hosting diff when those are requested.
- **`secrets delete`** (`internal/commands/secrets/delete.go`). `Handler` calls
  DeleteSecret once per selected secret. It then sorts the outputs with `sort.SliceStable`
  so that failed deletions come first, and prints them as a table built by `tableRowDelete`.

Layout:

- `results.dfy`: `Option` stands for Go's nil pointers and nil errors; `Result` stands for
  a `(value, error)` return.
- `text.dfy`: `strings.Join(…, "\n")` and the `%d` count, each with its inverse.
- `app_diff.dfy`: the `app diff` command, as the class `CommandDiff`.
- `secrets_delete.dfy`: the `secrets delete` command and the stable sort.
- `cli.dfy`: the factory, as the class `CommandFactory`.

The external calls of the two handlers are fields of an environment datatype (`DiffEnv`,
`DeleteEnv`). These are the Realm client, `local.LoadApp` and the dependency and hosting
helpers, `cli.ResolveApp`, and the secret selection. Each field returns the call's value
or its error.

Elsewhere, external results are method parameters:

- `Resolve` takes `local.LoadAppConfig` as a function parameter, and the answer to the
  "App filepath (local)" prompt as a value.
- The factory's methods take as values the outcomes of the profile load (`Setup`), the
  target file open (`Setup`), the profile save (`ConfigureTelemetry`, `Build`),
  `cmd.Execute` and `ui.Print` (`Run`), and the command handler (`RunE`).

The `app diff` handler also returns the calls it made, in order, and that trace is proved equal to the specification function
`DiffCalls`. The `secrets delete` handler returns the ids it passed to DeleteSecret, in
call order. DeleteSecret changes the server, so each call gets its own answer, indexed by
the call's number.

The specification functions are:

- `CollectDiffs`: the diff lines, or the first error met.
- `DiffCalls`: the calls the diff handler makes, in order.
- `Render`: the printed text.
- `ErrorsFirst`: failures then successes, each group in its original order.
- `Attempts` and `DeletionTable`: the delete outputs and the printed table.
- `EffectiveMode`: the telemetry mode in effect.

Both handlers, `SortErrorsFirst`, `ConfigureTelemetry` and `Build` are proved against
these, and the properties are proved as lemmas about them. The other members of the
factory and `Resolve` carry contracts of their own, giving the whole new state.
Examples are `EnsureUI`, `Setup`, `Close`, `Run`, `RunE` and `PersistentPreRun`.

`sort.SliceStable` is modelled as the insertion sort Go uses on short slices:
`SortErrorsFirst` with `InsertLeft`. `StableOrderIsUnique` shows that every stable
errors-first order equals `ErrorsFirst`. So Go's merging algorithm for longer slices ends
in the same order.

## Model

| member | source | states |
|---|---|---|
| AppDiff.CommandDiff.constructor | internal/commands/app/diff.go:30-41 | The command starts with the inputs its flags gave it. |
| AppDiff.CommandDiff.Resolve | internal/commands/app/diff.go:146-177 | Searches the given local path, or the working directory when it is blank. Prompts only when no path was given and no app was found there, and then searches the answer too. A load error or prompt error is returned, with the path answered so far kept. It succeeds exactly when every load and the prompt it needs succeed. On success the local path becomes the app's root directory when one was found. A blank remote app becomes the app's `Option()`, and one the operator gave is never replaced. The other inputs do not change. |
| AppDiff.CommandDiff.Handler | internal/commands/app/diff.go:79-144 | On any error, returns the first error met and prints nothing. Otherwise prints exactly one message: the identical-version text, or the header and the lines. The calls made are exactly `DiffCalls`, in that order. An app without a root directory fails with "no app directory found at <path>" before any other call. |
| AppDiff.NoAppDirectory | internal/commands/app/diff.go:86 | Computes the "no app directory found at <path>" message. |
| AppDiff.DependencyFacet | internal/commands/app/diff.go:99-111 | Prepares the dependency archive, then diffs it remotely, giving the first error met. |
| AppDiff.HostingFacet | internal/commands/app/diff.go:113-129 | Finds the local hosting files, fetches the remote assets and diffs them with the asset cache, giving the first error met. |
| AppDiff.CollectDiffs | internal/commands/app/diff.go:80-130 | Computes the combined diff lines: configuration, then dependencies, then hosting. It gives the first error met, or the missing-directory error. |
| AppDiff.Render | internal/commands/app/diff.go:132-141 | Computes the printed text: the identical-version message for no lines, otherwise the header line and the lines joined by line breaks. |
| AppDiff.DependencyCalls | internal/commands/app/diff.go:100-106 | Computes the dependency facet's calls: prepare, then diff only if preparing succeeded. |
| AppDiff.HostingCalls | internal/commands/app/diff.go:114-124 | Computes the hosting facet's calls, each made only when the one before it succeeded. |
| AppDiff.DiffCalls | internal/commands/app/diff.go:80-130 | Computes the handler's calls in source order, each included only when every earlier call succeeded. |
| AppDiff.CallError | internal/commands/app/diff.go:80-127 | Computes the error the handler meets at a call, made with the values the earlier calls returned. For LoadApp this includes the missing root directory. |
| AppDiff.StopsAtFirstFailure | internal/commands/app/diff.go:80-130 | Every call in the trace but the last succeeded. The diff fails if and only if the last call failed, and then with that call's error, so no call follows a failure. |
| AppDiff.DependencyFacetStops | internal/commands/app/diff.go:99-111 | The same property within the dependency facet. |
| AppDiff.HostingFacetStops | internal/commands/app/diff.go:113-129 | The same property within the hosting facet. |
| AppDiff.DiffCallsShape | internal/commands/app/diff.go:80-130 | Loading the app is always the first call. No remote call is made unless the app has a root directory. Facets that were not requested make none of their calls. When the diff succeeds, every requested facet's diff call was made. |
| AppDiff.IdenticalIffNoDiffs | internal/commands/app/diff.go:132-141 | The identical-version message is printed if and only if the combined diff is empty. |
| AppDiff.HeaderIsOneLine | internal/commands/app/diff.go:138-139 | The report header holds no line break. |
| AppDiff.ReportListsEveryDiff | internal/commands/app/diff.go:138-141 | A non-empty report, split into lines, is the header followed by every diff line, in order. |
| AppDiff.ConfigurationComesFirst | internal/commands/app/diff.go:94-130 | A successful diff starts with the configuration lines. Its length is the sum of the lengths of the requested facets, so nothing is dropped. |
| AppDiff.HostingOnlyAppends | internal/commands/app/diff.go:113-130 | Turning on `--include-hosting` only appends lines. Everything reported without it is a prefix of what is reported with it. |
| AppDiff.DependenciesOnlyAppend | internal/commands/app/diff.go:99-111 | With hosting off, turning on `--include-dependencies` only appends lines. |
| AppDiff.UnrequestedFacetsIgnored | internal/commands/app/diff.go:99-130 | The outcome does not depend on the calls of a facet that was not requested. |
| AppDiff.FacetErrorIsFatal | internal/commands/app/diff.go:94-109 | A configuration diff error, or a requested dependency facet's error, fails the whole diff with that error. |
| Text.JoinLines | internal/commands/app/diff.go:140 | Computes `strings.Join(lines, "\n")`. |
| Text.FirstNewline | internal/commands/app/diff.go:140 | Returns the position of the first line break. |
| Text.SplitLines | internal/commands/app/diff.go:140 | Splits on line breaks into at least one line, none of which holds a line break. |
| Text.SplitJoin | internal/commands/app/diff.go:140 | Joining lines with "\n" and splitting the result gives the lines back. |
| Text.Decimal | internal/commands/secrets/delete.go:73 | The `%d` text of a count is non-empty, all decimal digits, and has no leading zero. |
| Text.DigitChar | internal/commands/secrets/delete.go:73 | A digit value below ten maps to a decimal digit character. |
| Text.DecimalRoundTrip | internal/commands/secrets/delete.go:73 | Reading the printed count back gives the count. |
| SecretsDelete.SelectSecrets | internal/commands/secrets/delete.go:42-55 | Computes the app and the selected secrets, or the first error from app resolution, listing or selection. |
| SecretsDelete.Less | internal/commands/secrets/delete.go:68-70 | Computes the sort's comparison: a failed output is less than a successful one. |
| SecretsDelete.LessIsStrictWeakOrder | internal/commands/secrets/delete.go:68-70 | The comparison is irreflexive and transitive. Two outputs are incomparable if and only if they have the same outcome. |
| SecretsDelete.ErrorsFirst | internal/commands/secrets/delete.go:68-70 | Computes the failures followed by the successes, each in input order. |
| SecretsDelete.Failures | internal/commands/secrets/delete.go:68-70 | Every element kept is a failed deletion. |
| SecretsDelete.Successes | internal/commands/secrets/delete.go:68-70 | Every element kept is a successful deletion. |
| SecretsDelete.FiltersStep | internal/commands/secrets/delete.go:68-70 | The last output lands in exactly one of the two groups. |
| SecretsDelete.FiltersCount | internal/commands/secrets/delete.go:68-70 | The two groups together are as long as the outputs. |
| SecretsDelete.FiltersSplit | internal/commands/secrets/delete.go:68-70 | The two groups together hold exactly the outputs, as a multiset. |
| SecretsDelete.ErrorsFirstIsPermutation | internal/commands/secrets/delete.go:68-70 | The sorted outputs are a permutation of the outputs. |
| SecretsDelete.ErrorsFirstIsPartitioned | internal/commands/secrets/delete.go:68-70 | After sorting, no success comes before a failure. |
| SecretsDelete.FiltersOfConcat | internal/commands/secrets/delete.go:68-70 | Each group of a concatenation is the concatenation of the groups. |
| SecretsDelete.AllFailed | internal/commands/secrets/delete.go:68-70 | Outputs that all failed are their own failure group, and their success group is empty. |
| SecretsDelete.AllSucceeded | internal/commands/secrets/delete.go:68-70 | Outputs that all succeeded are their own success group, and their failure group is empty. |
| SecretsDelete.ErrorsFirstIsStable | internal/commands/secrets/delete.go:68-70 | The sort is stable: failures keep their relative order, and so do successes. |
| SecretsDelete.PartitionedSplits | internal/commands/secrets/delete.go:68-70 | A partitioned sequence is its failures followed by its successes. |
| SecretsDelete.StableOrderIsUnique | internal/commands/secrets/delete.go:68-70 | Any partitioned order that keeps both groups' orders is exactly `ErrorsFirst`, so every stable sort with this comparison gives it. |
| SecretsDelete.FailuresEndAt | internal/commands/secrets/delete.go:68-70 | Where the insertion pass stops, after a failure or at the start and before only successes, is exactly the end of the failures. |
| SecretsDelete.InsertFailure | internal/commands/secrets/delete.go:68-70 | Inserting a failed output just after the last failure of a sorted prefix gives the sorted prefix one longer. |
| SecretsDelete.InsertSuccess | internal/commands/secrets/delete.go:68-70 | A successful output appended to a sorted prefix gives the sorted prefix one longer. |
| SecretsDelete.InsertLeft | internal/commands/secrets/delete.go:68-70 | One insertion pass swaps the next output leftwards while it is less than its neighbour. The first i+1 cells then hold the sorted form of the first i+1 outputs, and the cells after them do not change. |
| SecretsDelete.SortErrorsFirst | internal/commands/secrets/delete.go:68-70 | Sorting in place leaves the array holding `ErrorsFirst` of its old contents. |
| SecretsDelete.TableRowDelete | internal/commands/secrets/delete.go:80-88 | "Deleted" holds true exactly when there is no error. "Details" holds the error's message for a failure and is not touched for a success. Every other key is kept, and no other key is added. |
| SecretsDelete.TableRows | internal/commands/secrets/delete.go:75 | There is one row per output. Row i is output i's base row filled in by `tableRowDelete`. |
| SecretsDelete.DeletionTitle | internal/commands/secrets/delete.go:73 | Computes "Deleted N secret(s)". |
| SecretsDelete.DeletionTable | internal/commands/secrets/delete.go:72-76 | Computes the printed table: the title for the count, the two headers and the rows. |
| SecretsDelete.RowDeletedIffNoDetails | internal/commands/secrets/delete.go:80-88 | Filled in from a base row without details, a row says deleted if and only if it has no details cell. |
| SecretsDelete.Attempts | internal/commands/secrets/delete.go:62-66 | There is one output per selected secret, in selection order. Output i pairs secret i with the answer of delete call number i. |
| SecretsDelete.RepeatedDeleteAnsweredPerCall | internal/commands/secrets/delete.go:63-66 | A secret selected twice gets each call's own answer. A first delete that succeeds can be followed by a second that fails. |
| SecretsDelete.IdsOf | internal/commands/secrets/delete.go:64 | There is one id per selected secret. |
| SecretsDelete.TableListsFailuresFirst | internal/commands/secrets/delete.go:68-75 | The printed table has one row per attempt. Row i is the row of the i-th sorted output, and the sorted outputs are the attempts rearranged, for any base rows. When the base rows carry no details, every row with details comes before every row without. |
| SecretsDelete.TitleCountsEveryAttempt | internal/commands/secrets/delete.go:72-73 | The title is "Deleted N secret(s)". N reads back as the number of attempts, failures included. |
| SecretsDelete.Handler | internal/commands/secrets/delete.go:41-78 | An error from app resolution, listing or selection is returned, with nothing printed and no delete call made. An empty selection prints "No secrets to delete". Otherwise there is one delete call per selected secret, in order, whatever the calls return. One table is printed, holding every attempt sorted errors-first. |
| Cli.ErrorText | internal/cli/cli.go:167 | Computes the `Error()` text. A `%w` wrapping reads "<context>: <cause>", and the suppression marker adds nothing. |
| Cli.ShowsUsage | internal/cli/cli.go:126 | Holds when the error is not a suppressUsageError. |
| Cli.DisplayName | internal/cli/cli.go:146-149 | The display name is `Display`, or `Use` when `Display` is blank. |
| Cli.HandlerFailure | internal/cli/cli.go:160-168 | A handler error reads "<display> failed: <error>" and suppresses the usage text. |
| Cli.SetupFailure | internal/cli/cli.go:181-189 | A setup error reads "<display> setup failed: <error>" and shows the usage text. |
| Cli.FeedbackFailure | internal/cli/cli.go:191-199 | A feedback error reads "<display> completed, but displaying results failed: <error>" and suppresses the usage text. |
| Cli.PhaseMessagesDiffer | internal/cli/cli.go:160-199 | The same error reported from the handler, setup and feedback phases gives three different messages. |
| Cli.EffectiveMode | internal/cli/cli.go:217-222 | The flag's mode is used unless no flag was given, in which case the profile's mode is used. |
| Cli.EffectiveModeSettles | internal/cli/cli.go:217-228 | Resolving again after the profile was updated gives the same mode, so a second configuration saves nothing. A profile with a mode never resolves to no mode. |
| Cli.CommandFactory.constructor | internal/cli/cli.go:82-98 | A new factory has no streams, no UI, no telemetry service, no events and nothing closed. |
| Cli.CommandFactory.Setup | internal/cli/cli.go:100-112 | A profile load error is fatal and changes nothing. With no output target the writer is unchanged. An open error is fatal with "failed to open target file: …". Otherwise the writer becomes the target file. |
| Cli.CommandFactory.Close | internal/cli/cli.go:114-118 | The output writer is closed only when output was redirected to a target file. |
| Cli.CommandFactory.Run | internal/cli/cli.go:124-140 | The usage text is printed if and only if the run failed with an error that is not usage-suppressed. The error goes to the UI if and only if the run failed and a UI exists. A failure without a UI, or whose printing fails, ends through log.Fatal with the original error. Otherwise a failure exits with code 1. |
| Cli.CommandFactory.ConfigureTelemetry | internal/cli/cli.go:217-235 | The effective mode is stored. The profile is saved exactly when that mode differs from the profile's, and a save error is returned. Otherwise the service is created for that mode and command. |
| Cli.CommandFactory.EnsureUI | internal/cli/cli.go:237-257 | Each stream and the UI are set only when still unset. They default to stdin and stdout. Errors go to the output target when there is one, and to stderr otherwise. Afterwards all are set, and a second call changes nothing. |
| Cli.CommandFactory.PersistentPreRun | internal/cli/cli.go:174-179 | Leaves the same streams and UI as `EnsureUI`: stdin and stdout by default, and errors to the output target or to stderr, each only where still unset. The command is handed those streams. |
| Cli.CommandFactory.Build | internal/cli/cli.go:143-206 | Telemetry is configured under the display name. The profile is saved exactly when the effective mode differs from the profile's, and a save failure is fatal and leaves the old service. The command carries the definition's use, description, help and aliases, and installs PreRunE, PostRunE and flags exactly when the definition supports them. |
| Cli.CommandFactory.RunE | internal/cli/cli.go:160-171 | Tracks the start event and then either the error event or the completion event. A handler error comes back as the suppressed-usage "<display> failed" error. |

## Left out

- Diff computations are external calls, each returning lines or an error. These are the remote configuration diff, the dependency archive diff, the hosting asset diff and its hash cache.
- The HTTP clients, the loading of local app directories, `cli.ResolveApp` and the survey prompts are external too. They are modelled only as the values and errors they return.
- The terminal UI's rendering formats (text and table layout, colours, `UIConfig`) are left out. The model records which log is printed, not how it looks.
- AppDiff.CommandDiff.Handler does not model the deferred `os.Remove` of the dependency upload file, which is a file-system side effect.
- AppDiff.CommandDiff.Resolve assumes that a failed prompt leaves the local path as it was.
- `log.Fatal` and `os.Exit` are returned as outcomes (`fatal`, `Exit`) instead of ending the process. Cli.CommandFactory.constructor does not model the fatal error when the default profile cannot be created.
- Cli.CommandFactory.Setup models `Profile.Load` only through the telemetry mode it yields.
- Cli.CommandFactory.Build does not model cobra's execution of the phases (PersistentPreRun, PreRunE, RunE, PostRunE in order) or flag parsing. It records which hooks exist. Their bodies are the members above.
- Registering global and command flags (`SetGlobalFlags`, `RegisterFlags`, the `app diff` `Flags` method and its `Inputs` accessor) is left out, because it is cobra and pflag wiring.
- Cli.CommandFactory.ConfigureTelemetry leaves out the telemetry service's internals, its public API key and the random object id it gets. Named telemetry modes are defined outside this model, so `Mode` only tells "no mode given" apart from a named mode.
- Go error values are modelled by their `Error()` text. `Cli.Error` keeps only the wrapping and the usage-suppression marker.
- SecretsDelete.SortErrorsFirst models `sort.SliceStable` as its insertion sort. Go's symmetric merge for slices longer than 20 is not modelled, but by `StableOrderIsUnique` it yields the same order.
- SecretsDelete.TableRowDelete returns the updated row instead of updating the caller's map in place, so map aliasing is not modelled.
- `tableRows` and `tableHeaders` are not part of this model. `TableRows` assumes `tableRows` fills in one row per output, in order, starting from a base row (`DeleteEnv.baseRow`) whose columns are left unspecified.
- The texts of the header constants are defined in a file that is not part of this model. Only their being distinct is used.
- How the secrets to delete are chosen (by flag or by prompt) is an external call that returns the selection or an error.
- The `describe` command and the user tests are context only and are not modelled.
