/**
 * The session as a mutable object: `Update` changes its fields one
 * assignment at a time, in the order of the Go switch, and is proved to
 * leave exactly the state `Transitions.Update` computes.
 */
module Sessions {
  import opened BrowserModel
  import opened Events
  import Transitions

  class Session {
    var state: Screen
    var repos: seq<HelmRepo>
    var charts: seq<HelmChart>
    var versions: seq<HelmVersion>
    var selectedRepo: nat
    var selectedChart: nat
    var selectedVersion: nat
    var cursor: nat
    var loading: bool
    var error: string
    var message: string

    /** The fields as one session value. */
    function Snapshot(): Model
      reads this
    {
      Model(state, repos, charts, versions, selectedRepo, selectedChart, selectedVersion, cursor, loading, error, message)
    }

    constructor ()
      ensures Snapshot() == InitialModel()
    {
      state := RepoUpdate;
      repos, charts, versions := [], [], [];
      selectedRepo, selectedChart, selectedVersion, cursor := 0, 0, 0, 0;
      loading := true;
      error, message := "", "";
    }

    /** Chooses repository row `i` and requests its charts; `panicked` when there is no such row. */
    method ChooseRepo(i: nat) returns (cmd: Cmd, panicked: bool)
      modifies this
      ensures Snapshot() == old(Snapshot()).(selectedRepo := i, cursor := 0, loading := true, state := ChartList)
      ensures panicked <==> i >= |repos|
      ensures !panicked ==> cmd == LoadCharts(repos[i].name)
    {
      selectedRepo := i;
      cursor := 0;
      loading := true;
      state := ChartList;
      if selectedRepo < |repos| {
        cmd, panicked := LoadCharts(repos[selectedRepo].name), false;
      } else {
        cmd, panicked := NoCmd, true;
      }
    }

    /** Chooses chart row `i` and requests its versions; `panicked` when there is no such row. */
    method ChooseChart(i: nat) returns (cmd: Cmd, panicked: bool)
      modifies this
      ensures Snapshot() == old(Snapshot()).(selectedChart := i, cursor := 0, loading := true, state := VersionList)
      ensures panicked <==> i >= |charts|
      ensures !panicked ==> cmd == LoadVersions(charts[i].name)
    {
      selectedChart := i;
      cursor := 0;
      loading := true;
      state := VersionList;
      if selectedChart < |charts| {
        cmd, panicked := LoadVersions(charts[selectedChart].name), false;
      } else {
        cmd, panicked := NoCmd, true;
      }
    }

    /** Chooses version row `i` and requests its download; the cursor stays. */
    method ChooseVersion(i: nat) returns (cmd: Cmd, panicked: bool)
      modifies this
      ensures Snapshot() == old(Snapshot()).(selectedVersion := i, loading := true, state := Download)
      ensures panicked <==> i >= |versions|
      ensures !panicked ==> cmd == DownloadValues(versions[i].name, versions[i].version)
    {
      selectedVersion := i;
      loading := true;
      state := Download;
      if selectedVersion < |versions| {
        cmd, panicked := DownloadValues(versions[selectedVersion].name, versions[selectedVersion].version), false;
      } else {
        cmd, panicked := NoCmd, true;
      }
    }

    /** Up/k. */
    method CursorUp()
      modifies this
      ensures Snapshot() == Transitions.MoveUp(old(Snapshot()))
    {
      if state == RepoList || state == ChartList || state == VersionList {
        if cursor > 0 {
          cursor := cursor - 1;
        }
      }
    }

    /** Down/j. */
    method CursorDown()
      modifies this
      ensures Snapshot() == Transitions.MoveDown(old(Snapshot()))
    {
      match state
      case RepoList => if cursor < |repos| - 1 { cursor := cursor + 1; }
      case ChartList => if cursor < |charts| - 1 { cursor := cursor + 1; }
      case VersionList => if cursor < |versions| - 1 { cursor := cursor + 1; }
      case _ =>
    }

    /** Enter/Space. */
    method Select() returns (cmd: Cmd, panicked: bool)
      modifies this
      ensures panicked <==> Transitions.KeyStep(old(Snapshot()), "enter").Panic?
      ensures !panicked ==>
        Snapshot() == Transitions.KeyStep(old(Snapshot()), "enter").model &&
        cmd == Transitions.KeyStep(old(Snapshot()), "enter").cmd
    {
      cmd, panicked := NoCmd, false;
      match state
      case RepoList => if |repos| > 0 { cmd, panicked := ChooseRepo(cursor); }
      case ChartList => if |charts| > 0 { cmd, panicked := ChooseChart(cursor); }
      case VersionList => if |versions| > 0 { cmd, panicked := ChooseVersion(cursor); }
      case Complete => cmd := Quit;
      case _ =>
    }

    /** Backspace/Esc. */
    method GoBack() returns (cmd: Cmd)
      modifies this
      ensures Transitions.Back(old(Snapshot())) == Transitions.Next(Snapshot(), cmd)
    {
      cmd := NoCmd;
      match state
      case ChartList =>
        state := RepoList;
        cursor := selectedRepo;
        charts := [];
      case VersionList =>
        state := ChartList;
        cursor := selectedChart;
        versions := [];
      case Complete => cmd := Quit;
      case _ =>
    }

    /** Any other key: quits on Complete, else tries it as a page-relative number. */
    method OtherKey(key: string) returns (cmd: Cmd, panicked: bool)
      requires Classify(key) == DefaultKey
      modifies this
      ensures panicked <==> Transitions.KeyStep(old(Snapshot()), key).Panic?
      ensures !panicked ==>
        Snapshot() == Transitions.KeyStep(old(Snapshot()), key).model &&
        cmd == Transitions.KeyStep(old(Snapshot()), key).cmd
    {
      cmd, panicked := NoCmd, false;
      if state == Complete {
        cmd := Quit;
      } else if |key| == 1 {
        var num := ParseDigit(key[0]);
        if num.Some? && 1 <= num.value <= PageSize {
          var absoluteIndex := Snapshot().PageStart() + num.value - 1;
          match state
          case RepoList => if absoluteIndex < |repos| { cmd, panicked := ChooseRepo(absoluteIndex); }
          case ChartList => if absoluteIndex < |charts| { cmd, panicked := ChooseChart(absoluteIndex); }
          case VersionList => if absoluteIndex < |versions| { cmd, panicked := ChooseVersion(absoluteIndex); }
          case _ =>
        }
      }
    }

    /** Handles one key press in place, dispatching on the key name as Go's switch does. */
    method KeyPress(key: string) returns (cmd: Cmd, panicked: bool)
      modifies this
      ensures panicked <==> Transitions.KeyStep(old(Snapshot()), key).Panic?
      ensures !panicked ==>
        Snapshot() == Transitions.KeyStep(old(Snapshot()), key).model &&
        cmd == Transitions.KeyStep(old(Snapshot()), key).cmd
    {
      cmd, panicked := NoCmd, false;
      if key == "ctrl+c" || key == "q" {
        cmd := Quit;
      } else if key == "up" || key == "k" {
        CursorUp();
      } else if key == "down" || key == "j" {
        CursorDown();
      } else if key == "enter" || key == " " {
        cmd, panicked := Select();
      } else if key == "backspace" || key == "esc" {
        cmd := GoBack();
      } else {
        cmd, panicked := OtherKey(key);
      }
    }

    /**
     * Handles one message in place. When `panicked`, the program has crashed
     * on an index out of range and the fields are no longer meaningful.
     */
    method Update(msg: Msg) returns (cmd: Cmd, panicked: bool)
      modifies this
      ensures panicked <==> Transitions.Update(old(Snapshot()), msg).Panic?
      ensures !panicked ==>
        Snapshot() == Transitions.Update(old(Snapshot()), msg).model &&
        cmd == Transitions.Update(old(Snapshot()), msg).cmd
    {
      cmd, panicked := NoCmd, false;
      match msg
      case KeyMsg(key) =>
        cmd, panicked := KeyPress(key);
      case RepoUpdateMsg =>
        loading := true;
        cmd := LoadRepos;
      case ReposLoadedMsg(rs) =>
        repos := rs;
        loading := false;
        state := RepoList;
        cursor := 0;
      case ChartsLoadedMsg(cs) =>
        charts := cs;
        loading := false;
        cursor := 0;
      case VersionsLoadedMsg(vs) =>
        versions := vs;
        loading := false;
        cursor := 0;
      case DownloadCompleteMsg(filename) =>
        loading := false;
        state := Complete;
        message := "Successfully downloaded: " + filename;
      case ErrorMsg(text) =>
        loading := false;
        state := Error;
        error := text;
      case OtherMsg =>
    }
  }
}
