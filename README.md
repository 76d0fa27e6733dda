# docker-tea compose discovery, modelled in Dafny

docker-tea is a terminal UI for Docker written in Go. This project models the part of it that
finds Docker Compose projects, their services and their containers, together with the UI state
that the Compose tab drives. It covers:

- **ListComposeProjects**: runs `docker compose ls`, then applies a ladder of decoders (a JSON
  array, a JSON object, a manual line parser), merges in projects discovered from config files,
  removes duplicates by project, and fills in missing paths.
- **findComposeProjectPath**: finds a project's directory from its `working_dir` label, else
  from the `docker compose ls -a` listing, else uses `.`.
- **ListComposeServices**: locates the compose file, reads and decodes it, falls back to
  `docker compose config --services`, and as a last resort returns a dummy service.
- **ListComposeContainers**: tries the strategies in order (label lookups, then the compose
  CLI with its JSON and text output parsers), and uses test data only for the project `test`.
- **ComposeInspect**: its indentation scanner for compose files, with two passes.
- **FetchComposeContainers**: three passes. The first matches on names and labels. The second
  cross-references the IDs from `docker compose ps`. The third compares `_`-separated name parts.
- **FullModel**: tab switching, the Back key, row selection, the container-number prompt,
  jumping from a compose container to the containers tab, status icons, byte formatting, and
  the friendly error messages for the services fetch.
- **HandleDockerEvent**: the status line and the refresh commands.

## Modelling approach

- Subprocesses, the Docker API, the file system and the JSON/YAML decoders are parameters. They
  are either the already-decoded data or functions from text to an optional decoded value. So
  every branch of the Go code that depends on them is reachable, including failures.
- A loop in the Go code is a Dafny `method` with a loop.
  - Each such method is proved equal to a specification function over the whole input.
  - The properties of the Go behaviour are then proved as lemmas about that function.
- The FullModel state that the Go handlers mutate is a Dafny `class` with those fields.
  - Each handler method promises that its new state equals a pure step function of the old state.
  - The lemmas are stated about the step functions.
- GoStrings restates the few Go standard-library string functions the core uses: Fields, Split,
  TrimSpace, Contains, ToLower, Atoi and strconv's int formatting. Each has a contract of its
  own, and Split/Join carry a proved round trip.
- Go map iteration has no order. Where the Go code ranges over a map (the scanner's names and the
  YAML services map), the model picks any remaining key. The contracts then state only facts
  that hold whatever the order.

Files: `wrappers.dfy` (Option, Result), `gostrings.dfy`, `dockertypes.dfy`,
`composeparse.dfy`, `composeprojects.dfy`, `composeservices.dfy`, `composecontainers.dfy`,
`composescanner.dfy`, `composematcher.dfy`, `fullmodelui.dfy`, `events.dfy`.

## Model

| member | source | states |
|---|---|---|
| DockerTypes.ShortId | internal/docker/service.go:167-170 | the short ID is a prefix of the ID, 12 characters long or the whole ID when shorter |
| DockerTypes.WithService | internal/docker/service.go:1375-1378 | without a service the name is unchanged, otherwise it reads `name (service)` |
| DockerTypes.ApiName | internal/docker/service.go:162-165 | the display name is the first API name without its leading character, empty when there is none |
| DockerTypes.ContainerFromApi | internal/docker/service.go:161-182 | the record keeps image, command, status and state, and shortens the ID to a prefix of at most 12 characters |
| DockerTypes.ContainerFromLabelled | internal/docker/service.go:1346-1382 | with a non-empty service label the name gains ` (service)`, otherwise the record is the plain mapping |
| DockerTypes.ImageShortId | internal/docker/service.go:443-449 | the ID has at most 12 characters, without `sha256:` it is the plain short ID, and a short ID is kept whole |
| DockerTypes.ImageShortIdOfDigest | internal/docker/service.go:445-446 | a `sha256:` digest keeps the first 12 hex characters after the prefix |
| DockerTypes.ImageFromApi | internal/docker/service.go:437-458 | tags are kept when present and are exactly `["<none>:<none>"]` when absent; the ID is the 12-character short form of the API ID |
| DockerTypes.ListContainers | internal/docker/service.go:154-185 | an API error is passed through, otherwise every listed container is mapped in order |
| DockerTypes.ListImages | internal/docker/service.go:430-462 | an API error is passed through, otherwise every listed image is mapped in order |
| ComposeParse.OutputLines | internal/docker/service.go:894 | splitting the output into lines loses nothing: joining them on newlines gives the output back |
| ComposeParse.PresentFrom | internal/docker/service.go:896-968 | every record kept comes from some line |
| ComposeParse.PresentHas | internal/docker/service.go:896-968 | every line that yields a record contributes it |
| ComposeParse.PresentSnoc | internal/docker/service.go:896-968 | one more line appends its record, if it has one, and nothing else |
| ComposeParse.KeyValue | internal/docker/service.go:936-958 | a key's value is found exactly when the line contains the key |
| ComposeParse.JsonRecord | internal/docker/service.go:933-968 | a JSON-ish line yields a project exactly when it has a non-empty name and a path; status defaults to `unknown` |
| ComposeParse.ManualLineCases | internal/docker/service.go:896-968 | a first line containing `NAME` or `name` and blank lines are skipped, a line without `"name":` and with two fields or more gives name, status and path (`.` when there is no third field), other lines go to the JSON-ish reader, and every project has a name |
| ComposeParse.ManualRecordsFromLines | internal/docker/service.go:893-972 | the parsed projects are exactly the records of the individual lines |
| ComposeParse.ParseManualLine | internal/docker/service.go:896-968 | the loop body computes the record of one line |
| ComposeParse.ParseManualLines | internal/docker/service.go:895-971 | the loop yields the records of all lines in order |
| ComposeParse.ManualRecordsStep | internal/docker/service.go:895-971 | one more line extends the result by its record only |
| ComposeParse.ParseManual | internal/docker/service.go:890-972 | the parser yields the records of the output's lines |
| ComposeParse.PsStatus | internal/docker/service.go:1483-1486 | with three fields the status is `unknown`, otherwise it is the third and later fields joined by spaces |
| ComposeParse.PsState | internal/docker/service.go:1489-1494 | `up` anywhere (any case) gives running, else `exited` gives exited, else unknown |
| ComposeParse.PsService | internal/docker/service.go:1497-1501 | the service is the second `_`-separated part of the name, empty without `_` |
| ComposeParse.PsLineCases | internal/docker/service.go:1466-1519 | a line is skipped exactly when it is the header, blank or has under three fields; otherwise the short ID, name, status and state follow from its fields |
| ComposeParse.PsRecordsFromLines | internal/docker/service.go:1462-1521 | the parsed containers are exactly the records of the individual lines |
| ComposeParse.ParsePsLine | internal/docker/service.go:1466-1519 | the loop body computes the record of one line |
| ComposeParse.ParsePsLines | internal/docker/service.go:1466-1520 | the loop yields the records of all lines in order |
| ComposeParse.PsRecordsStep | internal/docker/service.go:1466-1520 | one more line extends the result by its record only |
| ComposeParse.ParsePsText | internal/docker/service.go:1462-1521 | the text parser yields the records of the output's lines |
| ComposeParse.FirstListing | internal/docker/service.go:815-829 | the first listing line for the project, with no earlier one, or none at all |
| ComposeParse.ListingPath | internal/docker/service.go:815-832 | the path from the listing is never empty |
| ComposeParse.ListingPathIsFirstMatch | internal/docker/service.go:815-832 | the path is the third field of the first matching line, and `.` when no line matches |
| ComposeParse.ScanListing | internal/docker/service.go:815-829 | the scan finds a path exactly when some line lists the project, and returns that line's third field |
| ComposeParse.FirstListingIsFirst | internal/docker/service.go:815-829 | a matching line with no earlier match is the one chosen |
| ComposeParse.FirstListingNone | internal/docker/service.go:815-829 | with no matching line nothing is chosen |
| ComposeParse.ProjectPath | internal/docker/service.go:800-833 | the path is never empty, and a non-empty `working_dir` label wins |
| ComposeParse.FindProjectPath | internal/docker/service.go:800-833 | the lookup returns the working directory, else the listing path, else `.` |
| ComposeProjects.Fill | internal/docker/service.go:788-790 | a missing path is filled in and nothing else changes; a present path leaves the project unchanged |
| ComposeProjects.DecodeLadder | internal/docker/service.go:737-758 | the array decoder is tried first, then the object decoder, then the manual parser |
| ComposeProjects.AppendAll | internal/docker/service.go:773-775 | the merged list is the projects followed by the discovered ones |
| ComposeProjects.FindName | internal/docker/service.go:765-771 | the search reports whether some project has the name |
| ComposeProjects.MergedProperties | internal/docker/service.go:763-776 | the decoded projects stay in front and unchanged, each added project has a name not seen before, and every discovered name ends up present |
| ComposeProjects.MergeDiscovered | internal/docker/service.go:763-776 | the merge loop computes that merge |
| ComposeProjects.KeySetSnoc | internal/docker/service.go:778-794 | one more project adds its key to the seen set |
| ComposeProjects.KeptProperties | internal/docker/service.go:778-794 | the kept projects have distinct keys, cover every key, and each is the first occurrence of its key |
| ComposeProjects.KeptOrder | internal/docker/service.go:778-794 | the kept projects are exactly the first occurrences of their keys, at strictly increasing input positions, so they keep their input order |
| ComposeProjects.KeptDistinct | internal/docker/service.go:778-794 | a list whose keys are already distinct is kept unchanged |
| ComposeProjects.KeptIdempotent | internal/docker/service.go:778-794 | deduplicating a deduplicated list changes nothing |
| ComposeProjects.FillAll | internal/docker/service.go:782-794 | every kept project has its path filled, in order |
| ComposeProjects.DeduplicateStep | internal/docker/service.go:779-793 | a project whose key is new is appended, filled; a repeated key adds nothing |
| ComposeProjects.Deduplicate | internal/docker/service.go:778-794 | the loop keeps the first project per key, with paths filled |
| ComposeProjects.ListComposeProjects | internal/docker/service.go:716-797 | a failing `compose ls` gives its error message, otherwise the result is the decoded, merged, deduplicated and filled inventory |
| ComposeProjects.InventoryProperties | internal/docker/service.go:716-797 | the inventory has distinct keys, non-empty paths, a project for every key of the merge, and every discovered name; its entries are the filled first occurrences of the merge, in merge order |
| ComposeServices.PathJoin | internal/docker/service.go:1177-1182 | joining a non-empty file name gives a non-empty path |
| ComposeServices.FirstCandidate | internal/docker/service.go:1168-1194 | the first of the four candidate file names that exists, or none |
| ComposeServices.FirstCandidateIs | internal/docker/service.go:1168-1194 | an existing candidate with none before it is the one chosen |
| ComposeServices.LocateCases | internal/docker/service.go:1164-1194 | a missing path fails, a file is used as is, and a directory uses its first candidate or fails naming that directory |
| ComposeServices.LocateComposeFile | internal/docker/service.go:1164-1194 | the loop over the candidates computes that choice |
| ComposeServices.FromYaml | internal/docker/service.go:1228-1244 | a YAML service keeps its name and its image, empty when there is none, and only its string port items |
| ComposeServices.YamlRecord | internal/docker/service.go:1221-1248 | the record built for a name carries that name |
| ComposeServices.StringItems | internal/docker/service.go:1238-1244 | the port loop keeps exactly the string items, in order |
| ComposeServices.ServicesFromMap | internal/docker/service.go:1221-1248 | the map loop gives one record per service name, whatever the iteration order |
| ComposeServices.CliLines | internal/docker/service.go:1258-1268 | each output line of `config --services` becomes at most one service |
| ComposeServices.CliLinesNamed | internal/docker/service.go:1261-1268 | every CLI service has a trimmed, non-empty name and no other data |
| ComposeServices.CliServicesNamed | internal/docker/service.go:1251-1272 | every service from the CLI fallback has a trimmed, non-empty name |
| ComposeServices.ServiceOfLine | internal/docker/service.go:1262-1267 | the loop body computes the service of one line |
| ComposeServices.ServicesFromLines | internal/docker/service.go:1261-1268 | the loop collects the services of all lines in order |
| ComposeServices.CliLinesStep | internal/docker/service.go:1261-1268 | one more line adds only its service |
| ComposeServices.ServicesFromCli | internal/docker/service.go:1251-1272 | the CLI fallback yields the services of its output lines |
| ComposeServices.ResolvedNonEmpty | internal/docker/service.go:1221-1282 | the YAML services, else the CLI services, else the dummy service: at least one service is always returned |
| ComposeServices.Load | internal/docker/service.go:1164-1218 | each failure (location, read, empty file, parse error, no services map) has its own message, otherwise the decoded services map is returned |
| ComposeServices.ListComposeServices | internal/docker/service.go:1160-1285 | a load failure is returned as is, otherwise the services are resolved from the map, the CLI or the dummy, and there is at least one |
| ComposeContainers.ByLabel | internal/docker/service.go:1327-1385 | a listing error gives no containers, otherwise each listed container is mapped with its service label |
| ComposeContainers.ContainersByProjectName | internal/docker/service.go:1327-1385 | the loop computes that mapping |
| ComposeContainers.FromPsEntry | internal/docker/service.go:1402-1426 | a `ps` JSON entry keeps image, status and state, gets a short ID and the `name (service)` display name |
| ComposeContainers.PsEntryRecordsProperties | internal/docker/service.go:1401-1430 | exactly the entries with an ID become containers |
| ComposeContainers.ContainersFromPsEntries | internal/docker/service.go:1401-1430 | the entry loop computes those containers |
| ComposeContainers.ContainersByComposeCommand | internal/docker/service.go:1388-1459 | JSON `ps` output is used first, then the text `ps`, then the legacy `docker-compose ps` |
| ComposeContainers.ViaComposeCommandShortIds | internal/docker/service.go:1388-1459 | every container found through the CLI has an ID of at most 12 characters |
| ComposeContainers.TestContainers | internal/docker/service.go:1524-1551 | the test data has two containers |
| ComposeContainers.FirstNonEmptyIsFirst | internal/docker/service.go:1293-1320 | the result of the strategy chain is empty only when every strategy found nothing, and otherwise is the first non-empty one |
| ComposeContainers.FirstNonEmptySnoc | internal/docker/service.go:1293-1320 | a strategy added at the end is used only when all earlier ones found nothing |
| ComposeContainers.LabelLookups | internal/docker/service.go:1293-1311 | the label lookups are tried in order: the name as given, then with `_` replaced by `-`, then lower-cased, each of the last two only when it differs |
| ComposeContainers.ListComposeContainers | internal/docker/service.go:1288-1324 | an empty name is the only error, otherwise the result is the first strategy that finds something |
| ComposeContainers.TestDataOnlyAsLastResort | internal/docker/service.go:1313-1321 | test data is returned only for the project `test`, and only when every real strategy found nothing |
| ComposeScanner.LeadLength | internal/ui/views/compose.go:148-157 | the leading blanks are all spaces or tabs, and the character after them is neither |
| ComposeScanner.IndentCountsBlanks | internal/ui/views/compose.go:148-157 | the indentation is the number of leading spaces plus four for each leading tab |
| ComposeScanner.IndentOf | internal/ui/views/compose.go:148-157 | the indentation loop computes that width |
| ComposeScanner.ViewsForNames | internal/ui/views/compose.go:141-182 | pass 1 looks at each line in turn |
| ComposeScanner.Step1 | internal/ui/views/compose.go:141-182 | skipped lines change nothing, a shallower line closes the section, and only a service entry adds a name |
| ComposeScanner.ServiceNameRecordedIff | internal/ui/views/compose.go:160-181 | a name is recorded exactly when a line inside `services:`, two deeper than the header and ending in `:`, declares it |
| ComposeScanner.ScanServiceNames | internal/ui/views/compose.go:137-182 | the first-pass loop computes those names |
| ComposeScanner.ViewsForService | internal/ui/views/compose.go:195-249 | pass 2 looks at each line in turn, for one service |
| ComposeScanner.Step2 | internal/ui/views/compose.go:195-249 | skipped lines change nothing, only image lines set the image, and only port lines append a port |
| ComposeScanner.NoImageLineNoImage | internal/ui/views/compose.go:232-235 | without an `image:` line in the service block the image stays empty |
| ComposeScanner.ImageIsLastImageLine | internal/ui/views/compose.go:232-235 | the image is the value of the last `image:` line of the block |
| ComposeScanner.PortsComeFromPortLines | internal/ui/views/compose.go:239-247 | a port is listed exactly when a deeper `- ` line of the block that mentions "port" carries it |
| ComposeScanner.ScanService | internal/ui/views/compose.go:185-249 | the second-pass loop for one service computes its record |
| ComposeScanner.RecordsOfDoneStep | internal/ui/views/compose.go:185-253 | adding a service's record keeps every record tied to a processed name |
| ComposeScanner.DoneCoveredStep | internal/ui/views/compose.go:185-253 | adding a record keeps every processed name covered |
| ComposeScanner.DistinctNamesStep | internal/ui/views/compose.go:185-253 | a new name keeps the record names distinct |
| ComposeScanner.CollectedStep | internal/ui/views/compose.go:185-253 | one iteration of the services loop keeps its invariant |
| ComposeScanner.CollectedAll | internal/ui/views/compose.go:185-253 | at the end of the loop there is exactly one record per service name |
| ComposeScanner.ScanLines | internal/ui/views/compose.go:134-253 | both passes give exactly one record per service name found by pass 1, whatever the order |
| ComposeScanner.ScanComposeServices | internal/ui/views/compose.go:131-254 | the scan runs only for a non-empty file when no services were given, otherwise the given services are kept |
| ComposeMatcher.VariantsOf | internal/ui/views/compose.go:462-467 | the variants have the name's length; character by character they are the lower-cased name, that name with `_` turned into `-`, and that name with `-` turned into `_` |
| ComposeMatcher.DashedForgetsSeparator | internal/ui/views/compose.go:466-467 | the dash variant forgets which separator the name used |
| ComposeMatcher.SeparatorSwapSameVariants | internal/ui/views/compose.go:462-467 | names that differ only in `-` against `_` have the same dash and underscore variants |
| ComposeMatcher.SeparatorSwapMatches | internal/ui/views/compose.go:485-490 | such names match the same container names |
| ComposeMatcher.NamePassIff | internal/ui/views/compose.go:478-538 | the first pass keeps exactly the listed containers whose name or labels match |
| ComposeMatcher.NamePassNoLonger | internal/ui/views/compose.go:478-538 | the first pass keeps no more containers than were listed |
| ComposeMatcher.ExactLabelIsComposeLike | internal/ui/views/compose.go:514-532 | the exact project-label rule is covered by the looser compose-like label rule |
| ComposeMatcher.LowerVariantsAreLower | internal/ui/views/compose.go:463-467 | lower-casing is idempotent on the name and on its variants |
| ComposeMatcher.ScanLabels | internal/ui/views/compose.go:507-533 | the label loop reports a match exactly when some label matches, whatever the order |
| ComposeMatcher.FirstPass | internal/ui/views/compose.go:478-538 | the first-pass loop computes the containers that match by name or label |
| ComposeMatcher.AddIfNew | internal/ui/views/compose.go:556-566 | a container is appended only when its ID is new, which keeps the IDs distinct |
| ComposeMatcher.AlreadyAdded | internal/ui/views/compose.go:557-563 | the loop reports whether the ID is already listed |
| ComposeMatcher.FirstCliMatch | internal/ui/views/compose.go:552-568 | the first listed container whose ID matches the CLI ID (by prefix or by its first 12 characters), or none |
| ComposeMatcher.FindCliMatch | internal/ui/views/compose.go:552-568 | the inner loop finds that container |
| ComposeMatcher.FirstCliMatchUnique | internal/ui/views/compose.go:552-568 | any index with the first-match property is the one chosen |
| ComposeMatcher.CliPassProperties | internal/ui/views/compose.go:541-574 | the second pass gives distinct IDs, only containers selected by some CLI entry, and every such container |
| ComposeMatcher.SecondPass | internal/ui/views/compose.go:549-571 | the CLI loop computes the second pass |
| ComposeMatcher.TokenPassProperties | internal/ui/views/compose.go:577-601 | the third pass gives distinct IDs and exactly the listed containers with a name part equal to a variant, ignoring case |
| ComposeMatcher.ScanTokens | internal/ui/views/compose.go:581-598 | the loop over name parts reports whether one equals a variant, ignoring case |
| ComposeMatcher.ThirdPass | internal/ui/views/compose.go:579-600 | the last-resort loop computes the third pass |
| ComposeMatcher.FetchComposeContainers | internal/ui/views/compose.go:453-604 | an empty project name and a listing error are the only failures, otherwise the later passes run only when the earlier ones found nothing |
| ComposeMatcher.MatchedAreListed | internal/ui/views/compose.go:453-604 | every matched container is one of the listed containers |
| ComposeMatcher.FallbackHasDistinctIds | internal/ui/views/compose.go:541-601 | when the first pass finds nothing, the result has distinct IDs |
| FullModelUi.NextTab | internal/ui/fullmodel.go:1070 | the next tab is a valid tab different from the current one |
| FullModelUi.PrevTab | internal/ui/fullmodel.go:1114 | the previous tab is a valid tab different from the current one |
| FullModelUi.TabKeysUndoEachOther | internal/ui/fullmodel.go:1067-1140 | tab and shift-tab undo each other |
| FullModelUi.NextTabCycles | internal/ui/fullmodel.go:1067-1109 | five presses of tab return to the start, and no fewer do |
| FullModelUi.TabAfterIs | internal/ui/fullmodel.go:1067-1109 | k presses of tab move k tabs on, modulo five |
| FullModelUi.SetCursor | internal/ui/fullmodel.go:2270-2272 | moving the cursor keeps the rows, lands on the row when it exists, and a row is selected exactly when the table has rows |
| FullModelUi.NextTabStep | internal/ui/fullmodel.go:1067-1109 | in list mode tab moves to the next tab and fetches its data, in any other mode the key falls through |
| FullModelUi.PrevTabStep | internal/ui/fullmodel.go:1111-1140 | in list mode shift-tab moves to the previous tab and fetches its data, in any other mode the key falls through |
| FullModelUi.BackStep | internal/ui/fullmodel.go:1142-1152 | Back always returns to list mode, and stops the stats refresh when leaving monitor mode |
| FullModelUi.TabStepsUndo | internal/ui/fullmodel.go:1067-1140 | in list mode, a tab step followed by a shift-tab step restores the state, and the reverse as well |
| FullModelUi.FirstProject | internal/ui/fullmodel.go:1004-1022 | the first project meeting the test, with none before it, or none |
| FullModelUi.FindProject | internal/ui/fullmodel.go:1004-1022 | the search loop finds that project |
| FullModelUi.FirstContainer | internal/ui/fullmodel.go:2222-2266 | the first container meeting the test, with none before it, or none |
| FullModelUi.FindContainer | internal/ui/fullmodel.go:2222-2266 | the search loop finds that container |
| FullModelUi.SelectionAfter | internal/ui/fullmodel.go:951-1026 | updating the selection changes only the selected ID, name, path and the status line |
| FullModelUi.ComposeSelection | internal/ui/fullmodel.go:990-1023 | selecting a compose row changes only the selection and the status line |
| FullModelUi.EmptyRowClearsSelection | internal/ui/fullmodel.go:955-960 | with no row selected the selection is cleared |
| FullModelUi.ContainerRowSelected | internal/ui/fullmodel.go:962-967 | on the containers tab the selection is the ID and name of the row under the cursor |
| FullModelUi.ComposeRowSelected | internal/ui/fullmodel.go:990-1023 | on the compose tab the selection is the project under the cursor |
| FullModelUi.ComposeSelectionKeepsPath | internal/ui/fullmodel.go:990-1001 | the project's name becomes ID and name, and a known path is kept with the status line untouched |
| FullModelUi.ComposePathFallback | internal/ui/fullmodel.go:1003-1022 | a missing path of the selected project comes from the first project with the same name (status `Found project path:`); when that one has no path either, from the first project in list order with a non-empty path (the fallback status); a path is found exactly when some project has one |
| FullModelUi.BaseName | internal/ui/fullmodel.go:2236-2239 | the base name is a prefix of the display name |
| FullModelUi.BaseNameOfDisplay | internal/ui/fullmodel.go:2236-2239 | cutting at the first `" ("` recovers a name without spaces from its `name (service)` form |
| FullModelUi.JumpTarget | internal/ui/fullmodel.go:2219-2267 | the jump target is a valid index into the containers |
| FullModelUi.FindJumpTarget | internal/ui/fullmodel.go:2219-2267 | the three search loops compute the jump target |
| FullModelUi.JumpProperties | internal/ui/fullmodel.go:2207-2277 | the jump switches to the containers tab in list mode; found, the cursor moves to the target, the selection becomes its ID and name when the table holds that row, and the status names it; not found, the status says so; the target is the first container whose ID has the given prefix, when there is one |
| FullModelUi.PromptActionOf | internal/ui/fullmodel.go:1281-1315 | a container number that is accepted is a valid index |
| FullModelUi.BetweenOneAndNine | internal/ui/fullmodel.go:1289 | the Go string comparison `"1" <= key <= "9"` holds exactly for keys starting with 1-8, and for "9" |
| FullModelUi.PromptDigits | internal/ui/fullmodel.go:1287-1314 | of the keys that reach the prompt, a single digit 1-9 switches to that container when it exists and reports out of range otherwise; any other such key cancels |
| FullModelUi.PromptStepSwitch | internal/ui/fullmodel.go:1290-1302 | a key that picks compose container i makes the prompt step the switch to that container, and i is in range |
| FullModelUi.FirstStateWord | internal/ui/fullmodel.go:1527-1540 | the first state word the lower-cased state contains, with none before it, or none |
| FullModelUi.StatusIconIsFirstWord | internal/ui/fullmodel.go:1526-1540 | the icon prefixed to the state is that of the first state word it contains; with none the state is unchanged |
| FullModelUi.Pow1024 | internal/ui/fullmodel.go:2026-2037 | every power of 1024 is positive |
| FullModelUi.MulMonotone | internal/ui/fullmodel.go:2031-2035 | multiplying by a non-negative number keeps the order |
| FullModelUi.ScaleStep | internal/ui/fullmodel.go:2031-2035 | one step of the scaling loop keeps bytes between div·n and div·(n+1) |
| FullModelUi.FormatBytes | internal/ui/fullmodel.go:2026-2037 | below 1024 the plain count is printed with ` B`, otherwise the unit is the largest power of 1024 not above the value |
| FullModelUi.ContainsPrefix | internal/ui/fullmodel.go:636-640 | a string contains its own prefix |
| FullModelUi.AbsentChar | internal/ui/fullmodel.go:636-640 | a string without one of the pattern's characters does not contain the pattern |
| FullModelUi.FriendlyServicesErrors | internal/ui/fullmodel.go:633-642 | the missing-file and parse errors from ListComposeServices get their friendly messages |
| FullModelUi.CharOnlyAt | internal/ui/fullmodel.go:636-640 | a separator character occurs only at the three places it was put |
| FullModelUi.AbsentByAlignment | internal/ui/fullmodel.go:636-640 | a pattern fails to occur when each placement of its separator character mismatches |
| FullModelUi.NoServicesFailureNotNoFile | internal/ui/fullmodel.go:636 | the no-services error does not trigger the missing-file message |
| FullModelUi.NoServicesFailureNotBadParse | internal/ui/fullmodel.go:638 | the no-services error does not trigger the parse-error message |
| FullModelUi.NoServicesFailureNoServices | internal/ui/fullmodel.go:640 | the no-services error contains `no services found` |
| FullModelUi.FriendlyNoServicesError | internal/ui/fullmodel.go:633-642 | the no-services error from ListComposeServices gets the `Check if it has a 'services:' section` message |
| FullModelUi.FullModel.constructor | internal/ui/fullmodel.go:322-345 | a new model starts on the containers tab in list mode with `Initializing...`, no selection and no data, with its tab index below the tab count (`Valid`) |
| FullModelUi.FullModel.PressNextTab | internal/ui/fullmodel.go:1067-1109 | the tab key performs the tab step on the model's fields and keeps the tab index valid |
| FullModelUi.FullModel.PressPrevTab | internal/ui/fullmodel.go:1111-1140 | shift-tab performs the shift-tab step on the model's fields and keeps the tab index valid |
| FullModelUi.FullModel.PressBack | internal/ui/fullmodel.go:1142-1152 | Back performs the back step on the model's fields |
| FullModelUi.FullModel.UpdateSelection | internal/ui/fullmodel.go:951-1026 | updateSelection sets the fields as the selection function says |
| FullModelUi.FullModel.SelectProject | internal/ui/fullmodel.go:990-1023 | selecting the compose row sets the fields as the compose selection says |
| FullModelUi.FullModel.JumpToContainer | internal/ui/fullmodel.go:2207-2277 | jumpToContainer sets the fields as the jump function says |
| FullModelUi.FullModel.SelectFound | internal/ui/fullmodel.go:2269-2276 | selecting the found container, or reporting that there is none, sets the fields accordingly |
| FullModelUi.FullModel.PromptKey | internal/ui/fullmodel.go:1281-1315 | a key that reaches the container-number prompt performs the prompt step on the model's fields |
| FullModelUi.FullModel.SwitchToNumbered | internal/ui/fullmodel.go:1290-1302 | a key that picks compose container i announces the switch and jumps, which is the prompt step for that key |
| Events.RefreshFor | internal/ui/events.go:65-74 | exactly the four resource kinds get a refresh, each its own |
| Events.EventCommandsShape | internal/ui/events.go:58-82 | at most two commands: the refresh first when there is one, and the stats fetch last exactly when the monitored container is the event's |
| Events.HandleDockerEvent | internal/ui/events.go:58-82 | the status line describes the event, nothing else in the model changes, and the commands are returned in order |

## Left out

- The Docker client, subprocesses (`docker compose ls`, `ps`, `config --services`, the legacy
  `docker-compose ps`), the file system and context timeouts are not modelled. They become
  parameters holding their outcome.
- The JSON and YAML decoders are not modelled. They become function parameters from text to an
  optional decoded value, or the decoded value itself.
- tryExtractProjectsViaConfig is left out, because it runs a subprocess for each config file.
  Its result is the abstract `discovered` input of ListComposeProjects.
- InspectComposeProject and tryExtractProjectsViaConfig's other callers are left out. They are
  outside the discovery core.
- Project timestamps, the Ports field of containers, and the `%v` error details that are
  appended to messages are dropped. The messages keep their fixed text.
- Goroutines, the Bubble Tea event loop, event subscription and the spinner are left out. They
  are concurrency and rendering.
- Rendering, widths and the table widget's internals are left out. SetCursor models the clamping
  the table performs, and a table has a selected row exactly when it has rows.
- FullModelUi.FormatBytes: does not model the floating-point division or the `%.1f` formatting.
  The result is the unit and divisor, with the `bytes / div` text left abstract.
- GoStrings.ToLower and EqualFold: ASCII case mapping only. Go folds all of Unicode.
- DockerTypes.ShortId, DockerTypes.ImageShortId, ComposeParse.PsLine, ComposeContainers.FromPsEntry,
  ComposeMatcher.CliIdMatches and FullModelUi.ContainerMeets (its IdHeadFold test): lengths and
  cuts such as `len(id) > 12`, `id[:12]`, `id[7:19]` and `id[:6]` count characters, where Go counts
  UTF-8 bytes. The two agree on the ASCII hex IDs that Docker prints; on an ID with non-ASCII
  characters the model keeps more characters than Go does.
- GoStrings.Atoi: does not model the 64-bit overflow error. It is used only on short digit
  strings here.
- ComposeServices.PathJoin: does not model filepath.Join's Clean step. It joins with one `/`.
- DockerTypes.ApiName and DockerTypes.ImageShortId require the shapes
  (`NamesWellFormed`, `ImageIdWellFormed`) without which the Go slices `Names[0][1:]` and
  `id[7:19]` would panic. The panic itself is not modelled.
- FullModel.PromptKey and FullModelUi.PromptDigits: Quit (`q`, `ctrl+c`), Help (`?`), Refresh (`r`)
  and Back (`esc`, outside list mode) are handled by Update's global key switch
  (internal/ui/fullmodel.go:1036-1152), which returns before the prompt code is reached. These
  keys never reach the prompt, and the prompt step is not a model of them; the two members are
  about the keys that do reach it.
- The keys that FullModel.Update handles after a key falls through are left out, apart from the
  prompt keys.
- Unreachable code in the tab handlers is not modelled. In list mode the tab always changes, so
  the tab switch returns first. The code after it is never reached: the NextTab command batch
  (internal/ui/fullmodel.go:1088-1106, fetchComposeProjects plus fetchComposeServices in inspect
  mode), the PrevTab `cmds` append (internal/ui/fullmodel.go:1132-1137) and both trailing
  `return m, nil`.
- ComposeProjects.DecodeLadder: does not model a `projects` slice that a failed json.Unmarshal
  leaves partly filled and that the manual parser then appends to
  (internal/docker/service.go:738, 754-756). The array decoder is modelled as all-or-nothing.
- DockerEvent is defined in the internal/docker package, outside the modelled files. Its three fields used by
  HandleDockerEvent are modelled as a record.
- internal/config, main.go and the rest of the UI are not part of this model.
- Behaviour of the Go code that the model keeps as written:
  - a port item such as `- "8080:80"` is not collected, because the scanner keeps only list
    lines that themselves mention "port";
  - ListComposeProjects returns an error when `docker compose ls` fails, rather than an empty
    list;
  - ports are taken from any `- ` line deeper than the service's properties, not only at one
    fixed depth.
