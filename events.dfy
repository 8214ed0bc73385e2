/** Incoming messages, outgoing command requests and the decoding of key names. */
module Events {
  import opened BrowserModel

  datatype Option<T> = None | Some(value: T)

  /** A message delivered to the state machine: a key press or the result of an asynchronous command. */
  datatype Msg =
    | KeyMsg(key: string)
    | RepoUpdateMsg
    | ReposLoadedMsg(repos: seq<HelmRepo>)
    | ChartsLoadedMsg(charts: seq<HelmChart>)
    | VersionsLoadedMsg(versions: seq<HelmVersion>)
    | DownloadCompleteMsg(filename: string)
    | ErrorMsg(text: string)
    | OtherMsg  // any other runtime message, such as a window resize

  /** The command a transition asks the runtime to run; `NoCmd` is Go's nil command. */
  datatype Cmd =
    | NoCmd
    | Quit
    | UpdateRepos
    | LoadRepos
    | LoadCharts(repoName: string)
    | LoadVersions(chartName: string)
    | DownloadValues(chartName: string, version: string)

  /** The arm of the key switch a key name falls into. */
  datatype KeyAction = QuitKey | UpKey | DownKey | SelectKey | BackKey | DefaultKey

  function Classify(key: string): (action: KeyAction)
    ensures action == QuitKey <==> key == "ctrl+c" || key == "q"
    ensures action == UpKey <==> key == "up" || key == "k"
    ensures action == DownKey <==> key == "down" || key == "j"
    ensures action == SelectKey <==> key == "enter" || key == " "
    ensures action == BackKey <==> key == "backspace" || key == "esc"
  {
    if key == "ctrl+c" || key == "q" then QuitKey
    else if key == "up" || key == "k" then UpKey
    else if key == "down" || key == "j" then DownKey
    else if key == "enter" || key == " " then SelectKey
    else if key == "backspace" || key == "esc" then BackKey
    else DefaultKey
  }

  /** Go's integer parse of a one-character string: it succeeds exactly on a decimal digit. */
  function ParseDigit(c: char): (n: Option<nat>)
    ensures n.Some? <==> '0' <= c <= '9'
    ensures n.Some? ==> n.value < 10 && c as int == '0' as int + n.value
  {
    if '0' <= c <= '9' then Some(c as int - '0' as int) else None
  }

  /**
   * The page-relative number a key selects: a one-character key that parses
   * to a number in 1..PageSize.
   */
  function Shortcut(key: string): (n: Option<nat>)
    ensures n.Some? <==> |key| == 1 && '1' <= key[0] <= '9'
    ensures n.Some? ==> 1 <= n.value <= 9 && key[0] as int == '0' as int + n.value
  {
    if |key| == 1 then
      match ParseDigit(key[0])
      case Some(num) => if 1 <= num <= PageSize then Some(num) else None
      case None => None
    else None
  }
}
