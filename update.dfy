/**
 * The transition function: one message in, the next session and the
 * command to run out. Go's `Update` receives the model by value and returns
 * the changed copy, so a function on `Model` is its exact counterpart.
 */
module Transitions {
  import opened BrowserModel
  import opened Events
  import opened Views

  /**
   * The result of one message. `Panic` is Go's run-time index-out-of-range
   * failure, raised when a selection indexes past the end of its list.
   */
  datatype Transition = Next(model: Model, cmd: Cmd) | Panic(index: nat, length: nat)

  /** The program's start: the initial session and the index refresh to run. */
  function Init(): (r: Transition)
    ensures r.Next? && r.model.state == RepoUpdate && r.model.loading && r.cmd == UpdateRepos
  {
    Next(InitialModel(), UpdateRepos)
  }

  /** Up/k: one row up on a list screen, never above row 0. */
  function MoveUp(m: Model): Model {
    if IsListScreen(m.state) && m.cursor > 0 then m.(cursor := m.cursor - 1) else m
  }

  /** Down/j: one row down on a list screen, never past the last row. */
  function MoveDown(m: Model): Model {
    if IsListScreen(m.state) && m.cursor < m.ActiveLength() - 1 then m.(cursor := m.cursor + 1) else m
  }

  /**
   * Selects row `i` of the current list: records it, marks the session as
   * loading, moves to the next screen and requests the matching command.
   */
  function SelectAt(m: Model, i: nat): Transition {
    match m.state
    case RepoList =>
      if i < |m.repos| then
        Next(m.(selectedRepo := i, cursor := 0, loading := true, state := ChartList), LoadCharts(m.repos[i].name))
      else Panic(i, |m.repos|)
    case ChartList =>
      if i < |m.charts| then
        Next(m.(selectedChart := i, cursor := 0, loading := true, state := VersionList), LoadVersions(m.charts[i].name))
      else Panic(i, |m.charts|)
    case VersionList =>
      if i < |m.versions| then
        Next(m.(selectedVersion := i, loading := true, state := Download),
             DownloadValues(m.versions[i].name, m.versions[i].version))
      else Panic(i, |m.versions|)
    case _ => Next(m, NoCmd)
  }

  /** Backspace/Esc: one screen back with the cursor on the earlier choice; quits on Complete. */
  function Back(m: Model): Transition {
    match m.state
    case ChartList => Next(m.(state := RepoList, cursor := m.selectedRepo, charts := []), NoCmd)
    case VersionList => Next(m.(state := ChartList, cursor := m.selectedChart, versions := []), NoCmd)
    case Complete => Next(m, Quit)
    case _ => Next(m, NoCmd)
  }

  /** The row a page-relative number key picks, if it exists on the current list. */
  function ShortcutTarget(m: Model, key: string): Option<nat> {
    match Shortcut(key)
    case Some(n) =>
      if IsListScreen(m.state) && m.PageStart() + n - 1 < m.ActiveLength() then Some(m.PageStart() + n - 1) else None
    case None => None
  }

  function KeyStep(m: Model, key: string): Transition {
    match Classify(key)
    case QuitKey => Next(m, Quit)
    case UpKey => Next(MoveUp(m), NoCmd)
    case DownKey => Next(MoveDown(m), NoCmd)
    case SelectKey =>
      if IsListScreen(m.state) && m.ActiveLength() > 0 then SelectAt(m, m.cursor)
      else if m.state == Complete then Next(m, Quit)
      else Next(m, NoCmd)
    case BackKey => Back(m)
    case DefaultKey =>
      if m.state == Complete then Next(m, Quit)
      else
        match ShortcutTarget(m, key)
        case Some(i) => SelectAt(m, i)
        case None => Next(m, NoCmd)
  }

  /** The state machine: the session after one message, and the command it issues. */
  function Update(m: Model, msg: Msg): Transition {
    match msg
    case KeyMsg(key) => KeyStep(m, key)
    case RepoUpdateMsg => Next(m.(loading := true), LoadRepos)
    case ReposLoadedMsg(repos) => Next(m.(repos := repos, loading := false, state := RepoList, cursor := 0), NoCmd)
    case ChartsLoadedMsg(charts) => Next(m.(charts := charts, loading := false, cursor := 0), NoCmd)
    case VersionsLoadedMsg(versions) => Next(m.(versions := versions, loading := false, cursor := 0), NoCmd)
    case DownloadCompleteMsg(filename) =>
      Next(m.(loading := false, state := Complete, message := "Successfully downloaded: " + filename), NoCmd)
    case ErrorMsg(text) => Next(m.(loading := false, state := Error, error := text), NoCmd)
    case OtherMsg => Next(m, NoCmd)
  }

  /**
   * What a run of messages leaves: still running, quit, crashed on a panic in
   * `Update`, or crashed on a panic while drawing the frame that follows.
   */
  datatype RunResult =
    | Running(model: Model)
    | Exited(model: Model)
    | Crashed(index: nat, length: nat)
    | ViewCrashed(index: nat, length: nat)

  /**
   * Feeds the messages to `Update` one at a time, in order, and draws the
   * frame of each new session, as the Bubble Tea runtime does. It stops at
   * the first panic or `Quit`. Other commands are not run: their results are
   * the later messages of the sequence.
   */
  function Run(m: Model, msgs: seq<Msg>): RunResult
    decreases |msgs|
  {
    if msgs == [] then Running(m)
    else
      match Update(m, msgs[0])
      case Panic(i, n) => Crashed(i, n)
      case Next(m', cmd) =>
        match Draw(m')
        case ViewPanic(i, n) => ViewCrashed(i, n)
        case Drawn => if cmd == Quit then Exited(m') else Run(m', msgs[1..])
  }
}
