# Helm chart browser: navigation state machine

A Dafny model of the core of `helm-browser`, a terminal program that lets a
user pick a configured Helm repository, then one of its charts, then one
version of that chart, and writes that version's default `values.yaml` to the
current directory. The model covers the session record, the pagination
arithmetic, the `Update` transition function that reacts to key presses and
to the results of the asynchronous `helm` commands, the messages those
commands deliver, and the name of the written file.

Layout (one module per file):

- `model.dfy` (`BrowserModel`): the seven screens, the repository / chart /
  version records, the session `Model`, which carries the pagination helpers
  `CurrentPage`, `PageStart`, `PageEnd` and `CursorInPage` with
  `PageSize = 10`, and the initial session.
- `events.dfy` (`Events`): the incoming messages `Msg`, the command requests
  `Cmd` (`NoCmd` stands for Go's nil command), and the decoding of key names:
  which arm of the key switch a key falls into, and Go's `strconv.Atoi` on a
  one-character string.
- `fetch.dfy` (`Fetch`): the message each asynchronous command produces from
  the outcome of the `helm` process (a parameter), and the values file name:
  the last `/`-separated segment of the chart name, `-`, the version,
  `-default-values.yaml`.
- `update.dfy` (`Transitions`): `Update(m, msg)`. Go's `Update` gets the model
  by value and returns the changed copy, so this function is its exact
  counterpart. `Run` feeds a message sequence to it and draws the frame of
  each new session, as the Bubble Tea runtime does after every `Update`. It
  stops at `Quit` or at a panic in either.
- `session.dfy` (`Sessions`): the same session as a class whose `Update`
  method assigns the fields one at a time, in the order of the Go switch. Its
  postcondition is that it leaves exactly the session `Transitions.Update`
  computes.
- `rows.dfy` (`Rows`): the rows a list screen draws, with the cursor marker.
- `view.dfy` (`Views`): the indexing the view does in the headings of the
  chart and version lists. It can go out of range, so drawing a frame can
  panic too.
- `pagination_lemmas.dfy`, `navigation_lemmas.dfy`, `message_lemmas.dfy`,
  `invariant_lemmas.dfy`, `scenarios.dfy`: the properties.

In several places the code does not do what a user would expect from the
help text (main.go:595, 609 and 614) or from the names of the screens. The
model follows the code:

- Digit `0` selects nothing: `Atoi("0")` is 0, which fails the `num >= 1`
  test. So no number key reaches the tenth row of a page, although the help
  text offers `0`.
- On the error screen only `q`/`ctrl+c` do anything; every other key leaves
  the session unchanged.
- On the Complete screen every key quits except up/`k`/down/`j`. Those keys
  fall into the cursor-movement arm, which does nothing off the list screens.
- The index refresh result keeps the refresh screen; only the repository
  list moves to the repository screen.
- Back is taken while a list is still loading and leaves `loading` set.
  Charts or versions that arrive later are stored and reset the cursor to 0
  whatever screen is shown.
- The error screen ignores keys, but not late results of commands. A finished
  download moves it to Complete, and a loaded repository list moves it to the
  repository list.
- Choosing a version keeps the cursor where it was; the repository and chart
  choices reset it to 0.
- The diagnostic in an error message is the text of Go's error value. For a
  command that exits non-zero, that is `exit status N`, not the tool's
  standard error output.

Index out of range. Enter and the number keys check only that the list is
non-empty, or that the row exists, before they index a list with the
cursor or with a remembered choice. The headings of the chart and version
lists index the lists with the remembered choices. `InvariantLemmas.Wellformed`
keeps the cursor and the remembered choices inside their lists. Every message
keeps that invariant except one: a chart list arriving while the version list
is shown. That cannot happen while one command runs at a time. But Back
during a load lets two chart searches run at once. When the stale list lacks
the chosen chart, the invariant is broken, and the version list is no longer
loading. So the frame drawn right after that message indexes past the end of
the chart list (main.go:533), and the program crashes in `View`
(`InvariantLemmas.StaleChartListBreaksView`). The panic at main.go:300 or 308,
which Enter on such a session would raise, is therefore never reached from
the initial session (`InvariantLemmas.ViewCrashesBeforeUpdatePanics`).
`InvariantLemmas.StaleChartListCrashes` gives an eight-message run from
program start that ends in that crash of the view. The model represents Go's
run-time panic as `Panic(index, length)` in `Update` and as
`ViewPanic(index, length)` in the view.

## Model

| member | source | states |
|---|---|---|
| `BrowserModel.Model.CurrentPage` | main.go:120-122 | the page number p satisfies p·10 ≤ cursor < (p+1)·10 |
| `BrowserModel.Model.PageStart` | main.go:125-127 | the page start is a multiple of 10 with start ≤ cursor < start + 10 |
| `BrowserModel.Model.PageEnd` | main.go:130-136 | the page end is the smaller of start + 10 and the list length |
| `BrowserModel.Model.CursorInPage` | main.go:139-141 | the offset is below 10 and equals cursor − page start |
| `Events.Classify` | main.go:252-340 | each key arm is chosen exactly by its two key names (q/ctrl+c, up/k, down/j, enter/space, backspace/esc) |
| `Events.ParseDigit` | main.go:348 | parsing a single character succeeds exactly on a decimal digit, giving its value |
| `Events.Shortcut` | main.go:347-348 | a key is a page shortcut exactly when it is one character in '1'..'9'; '0' is not |
| `Fetch.UpdateReposResult` | main.go:154-162 | a successful refresh yields the refresh message; a failure yields an error ending in the diagnostic |
| `Fetch.LoadReposResult` | main.go:165-182 | decoded repositories are delivered unchanged; a run or parse failure yields an error ending in the diagnostic |
| `Fetch.LoadChartsResult` | main.go:185-202 | decoded charts are delivered unchanged; a run or parse failure yields an error ending in the diagnostic |
| `Fetch.LoadVersionsResult` | main.go:205-222 | decoded versions are delivered unchanged; a run or parse failure yields an error ending in the diagnostic |
| `Fetch.LastSegment` | main.go:235-236 | the segment has no '/', ends the name, and is either the whole name or follows a '/' |
| `Fetch.ValuesFileName` | main.go:235-237 | the file name ends in -default-values.yaml and has no '/' when the version has none, so it lands in the current directory |
| `Fetch.DownloadResult` | main.go:225-246 | completion exactly when both the values command and the write succeed, naming the values file; otherwise an error ending in the first failure's diagnostic |
| `Transitions.Init` | main.go:105-115 | the program starts on the refresh screen, loading, and requests the index refresh |
| `PaginationLemmas.PageStartUnique` | main.go:120-127 | the page start is the only multiple of 10 within one page of the cursor |
| `PaginationLemmas.PageWindow` | main.go:125-136 | for a cursor inside a list, the shown window [start, end) holds the cursor, lies in the list and has 1 to 10 rows |
| `PaginationLemmas.CurrentPageWithinCount` | main.go:469-472 | the "Page p of n" line never shows p > n |
| `PaginationLemmas.CrossingPageBoundary` | main.go:120-141 | one row below a page's last row is row 0 of the next page |
| `PaginationLemmas.TwentyFiveRowsCursorAt23` | main.go:125-141 | cursor 23 of 25 shows rows 20..24 with the cursor on the fourth |
| `NavigationLemmas.UpKeyMovesCursor` | main.go:256-272 | up/k moves the cursor one row up on a list screen when above row 0 and changes nothing else |
| `NavigationLemmas.DownKeyMovesCursor` | main.go:274-290 | down/j moves the cursor one row down on a list screen when above the last row and changes nothing else |
| `NavigationLemmas.MovesKeepCursorOnList` | main.go:256-290 | cursor keys never take the cursor off the list, move it by at most one, and keep it on 0 for an empty list |
| `NavigationLemmas.EnterSelectsCursorRow` | main.go:292-316 | Enter on a row records it, starts loading, moves to the next screen and requests that row's load or download; only the version list keeps the cursor |
| `NavigationLemmas.EnterOnEmptyList` | main.go:292-322 | Enter on an empty list changes nothing |
| `NavigationLemmas.EnterPastEndPanics` | main.go:294-315 | Enter with the cursor past the end of a non-empty list indexes out of range |
| `NavigationLemmas.DigitSelectsPageRow` | main.go:347-383 | digit n selects row pageStart + n − 1 exactly as Enter on that row would (the version list keeps the cursor), and does nothing when the row is missing |
| `NavigationLemmas.DigitMatchesRowLabel` | main.go:347-352 | the digit that selects a row is the last digit of the number printed in front of it |
| `NavigationLemmas.DigitZeroIgnored` | main.go:340-348 | "0" quits on Complete and does nothing elsewhere |
| `NavigationLemmas.TenthRowHasNoShortcut` | main.go:347-383 | no key of the default arm selects the tenth row of a page |
| `NavigationLemmas.BackByScreen` | main.go:324-338 | Back returns to the previous list with the cursor on the earlier choice and the left list cleared, quits on Complete, does nothing elsewhere, and keeps the loading flag |
| `NavigationLemmas.QuitKeysQuit` | main.go:253-254 | q and ctrl+c quit from every screen with the session unchanged |
| `NavigationLemmas.CompleteScreenKeys` | main.go:256-344 | on Complete every key quits except up/k/down/j, which do nothing |
| `NavigationLemmas.ErrorScreenKeys` | main.go:252-384 | on the error screen q/ctrl+c quit and every other key leaves the session unchanged |
| `NavigationLemmas.ErrorScreenAbsorbsKeys` | main.go:249-418 | any run of key presses on the error screen ends with the same session |
| `MessageLemmas.ErrorFromAnyScreen` | main.go:411-415 | an error message from any screen shows the error screen, ends loading and stores the text verbatim |
| `MessageLemmas.RepoUpdateKeepsScreen` | main.go:386-388 | the refresh result keeps the screen, stays loading and requests the repository list |
| `MessageLemmas.LoadedListResetsCursor` | main.go:390-404 | a loaded list replaces the stored one, ends loading and resets the cursor; only repositories change the screen |
| `MessageLemmas.LastSegmentUnique` | main.go:235-236 | the last segment is the only '/'-free suffix that is the whole name or follows a '/' |
| `MessageLemmas.LastSegmentOfPlainName` | main.go:235-236 | a name without '/' is kept whole |
| `MessageLemmas.LastSegmentOfQualifiedName` | main.go:235-236 | for repo/chart the chart part is kept |
| `MessageLemmas.ValuesFileNameOfQualifiedChart` | main.go:235-237 | the file of repo/chart at a version is chart-version-default-values.yaml |
| `MessageLemmas.SuccessfulDownloadCompletes` | main.go:406-409 | a successful download shows Complete with "Successfully downloaded: " and the file name |
| `MessageLemmas.FailedCommandShowsDiagnostic` | main.go:411-415 | every command failure ends on the error screen with the diagnostic at the end of the error text |
| `InvariantLemmas.InitialModelWellformed` | main.go:105-110 | the initial session satisfies the selection invariant |
| `InvariantLemmas.WellformedNeverPanics` | main.go:292-383 | no message panics a session that satisfies the invariant |
| `InvariantLemmas.WellformedPreserved` | main.go:249-418 | every message keeps the invariant except a chart list arriving on the version list |
| `InvariantLemmas.ChartsOnVersionListBreakInvariant` | main.go:396-399 | a chart list arriving on the version list can break the invariant |
| `InvariantLemmas.WellformedIsDrawn` | main.go:481-535 | a session that satisfies the invariant is drawn without an index out of range |
| `InvariantLemmas.OrderlyRunNeverCrashes` | main.go:249-418 | a run with no chart list arriving on the version list never crashes, neither in `Update` nor in the view, and keeps the invariant |
| `InvariantLemmas.StaleChartListBreaksView` | main.go:396-399 | a chart list arriving on the version list breaks the invariant exactly when it lacks the chosen chart, and then the next frame indexes past its end |
| `InvariantLemmas.ViewCrashesBeforeUpdatePanics` | main.go:249-418 | from a session that satisfies the invariant, no message order makes `Update` panic; every session still drawn satisfies the invariant again |
| `InvariantLemmas.RunAppend` | main.go:249-418 | a run that goes on through its first messages continues from the session they leave |
| `InvariantLemmas.StaleChartListCrashes` | main.go:530-535 | from program start, seven messages with Back during a chart load run without a crash, and the stale chart list that follows crashes the view with index 1 and length 1 |
| `Sessions.Session.constructor` | main.go:105-110 | the object starts as the initial session |
| `Sessions.Session.ChooseRepo` | main.go:294-301 | records the repository, resets the cursor, starts loading, shows the chart list and requests the charts, or panics past the list end |
| `Sessions.Session.ChooseChart` | main.go:302-309 | records the chart, resets the cursor, starts loading, shows the version list and requests the versions, or panics past the list end |
| `Sessions.Session.ChooseVersion` | main.go:310-316 | records the version, starts loading, shows the download screen and requests the download, or panics past the list end |
| `Sessions.Session.CursorUp` | main.go:256-272 | the fields become the cursor-up successor of the session |
| `Sessions.Session.CursorDown` | main.go:274-290 | the fields become the cursor-down successor of the session |
| `Sessions.Session.Select` | main.go:292-322 | Enter in place gives the transition Enter gives |
| `Sessions.Session.GoBack` | main.go:324-338 | Back in place gives the transition Back gives |
| `Sessions.Session.OtherKey` | main.go:340-384 | a default-arm key in place gives the transition of that key |
| `Sessions.Session.KeyPress` | main.go:251-384 | a key press in place gives the transition of that key |
| `Sessions.Session.Update` | main.go:249-418 | the in-place update panics exactly when the transition function does, and otherwise leaves the fields and returns the command it computes |
| `Views.Draw` | main.go:481-535 | the frame is drawn exactly when the list is loading, the screen has no heading naming a choice, or the remembered choices lie inside their lists; otherwise the panic reports the first index out of range, the chart before the repository on the version list |
| `Rows.VisibleRows` | main.go:441-464 | the drawn rows are indices start..end−1 of the list, numbered index + 1, with 1 to 10 rows and exactly the cursor's row marked when the cursor is on the list |
| `Scenarios.ChooseSecondOfThreeRepositories` | main.go:347-358 | after loading argo, external-secrets and apisix, key "2" and down-then-Enter both request the charts of external-secrets |
| `Scenarios.EnterOnFirstVersion` | main.go:310-316 | Enter on the first of versions 5.46.8 and 5.46.7 requests the download of argo/argo-cd 5.46.8 |
| `Scenarios.ArgoCdBaseName` | main.go:235-236 | the base name of argo/argo-cd is argo-cd |
| `Scenarios.ArgoCdFileName` | main.go:235-237 | argo/argo-cd 5.46.8 is written to argo-cd-5.46.8-default-values.yaml |
| `Scenarios.ArgoCdDownloadMessage` | main.go:235-244 | the successful download of argo/argo-cd 5.46.8 reports that file name |
| `Scenarios.DownloadOfArgoCdCompletes` | main.go:406-409 | that download completes the session with "Successfully downloaded: argo-cd-5.46.8-default-values.yaml" |
| `Scenarios.ChartSearchFails` | main.go:189-191 | a chart search exiting non-zero shows the error screen with "Failed to search charts: exit status 1" |
| `Scenarios.EmptyRepositoryList` | main.go:390-394 | an empty repository list draws no rows, keeps the cursor on 0 and ignores Enter and number keys |

## Left out

- Running `helm` (`exec.Command`, `Run`, `Output`): the outcome of each run is a parameter of the `Fetch` functions.
- JSON decoding of the tool's output, including its empty-output-is-empty-list case: the decoded list, or the decoder's failure, is given.
- Writing the values file (`os.WriteFile`): only its name and its failure, as a parameter, are modelled.
- The `helm` lookup in `main` and the process exit codes: they run before or outside the state machine.
- The Bubble Tea runtime: commands are not run, and their results are fed to `Update` as explicit messages in any order the caller chooses.
- What the runtime does after a panic (restoring the terminal, exiting): the model stops at `Panic`.
- The text and styles of the view: only the window of drawn rows, the cursor marker and the indexing the view does are modelled.
- The frame drawn before the first message: `Run` starts from a session taken as already drawn. The initial session is drawn without a panic.
- The order in which Go evaluates the two index expressions at main.go:533 is taken as left to right; it matters only for which index a panic reports.
- Go's 64-bit `int` limits: the cursor and choices are unbounded naturals, and no transition brings them near the limit.
- Sessions.Session.Update: says nothing about the fields after a panic, because the Go program has crashed at that point.
