/**
 * What the asynchronous commands deliver back to the state machine. The
 * external `helm` process and the JSON decoder are not modelled: their
 * outcome is a parameter, and only the message built from it is.
 */
module Fetch {
  import opened BrowserModel
  import opened Events

  /** Whether `suffix` is the tail of `s`. */
  predicate EndsWith(s: string, suffix: string) {
    |suffix| <= |s| && s[|s| - |suffix|..] == suffix
  }

  /**
   * The outcome of running the tool and decoding its output: the decoded
   * list, a failed run, or output the decoder refused. `detail` is the text
   * the Go error value prints.
   */
  datatype ToolResult<T> = Ran(output: T) | RunFailed(detail: string) | ParseFailed(detail: string)

  /** Message of the index refresh; `runError` is the error of the run, if any. */
  function UpdateReposResult(runError: Option<string>): (msg: Msg)
    ensures msg.RepoUpdateMsg? <==> runError.None?
    ensures runError.Some? ==> msg.ErrorMsg? && EndsWith(msg.text, runError.value)
  {
    match runError
    case None => RepoUpdateMsg
    case Some(e) => ErrorMsg("Failed to update repos: " + e)
  }

  function LoadReposResult(result: ToolResult<seq<HelmRepo>>): (msg: Msg)
    ensures msg.ReposLoadedMsg? <==> result.Ran?
    ensures result.Ran? ==> msg.repos == result.output
    ensures !result.Ran? ==> msg.ErrorMsg? && EndsWith(msg.text, result.detail)
  {
    match result
    case Ran(repos) => ReposLoadedMsg(repos)
    case RunFailed(e) => ErrorMsg("Failed to list repos: " + e)
    case ParseFailed(e) => ErrorMsg("Failed to parse repos: " + e)
  }

  function LoadChartsResult(result: ToolResult<seq<HelmChart>>): (msg: Msg)
    ensures msg.ChartsLoadedMsg? <==> result.Ran?
    ensures result.Ran? ==> msg.charts == result.output
    ensures !result.Ran? ==> msg.ErrorMsg? && EndsWith(msg.text, result.detail)
  {
    match result
    case Ran(charts) => ChartsLoadedMsg(charts)
    case RunFailed(e) => ErrorMsg("Failed to search charts: " + e)
    case ParseFailed(e) => ErrorMsg("Failed to parse charts: " + e)
  }

  function LoadVersionsResult(result: ToolResult<seq<HelmVersion>>): (msg: Msg)
    ensures msg.VersionsLoadedMsg? <==> result.Ran?
    ensures result.Ran? ==> msg.versions == result.output
    ensures !result.Ran? ==> msg.ErrorMsg? && EndsWith(msg.text, result.detail)
  {
    match result
    case Ran(versions) => VersionsLoadedMsg(versions)
    case RunFailed(e) => ErrorMsg("Failed to search versions: " + e)
    case ParseFailed(e) => ErrorMsg("Failed to parse versions: " + e)
  }

  /** The part of `s` after its last '/', or all of `s` when it has none. */
  function LastSegment(s: string): (segment: string)
    ensures '/' !in segment
    ensures EndsWith(s, segment)
    ensures |segment| < |s| ==> s[|s| - |segment| - 1] == '/'
    decreases |s|
  {
    if |s| == 0 then ""
    else if s[|s| - 1] == '/' then ""
    else
      var init := s[..|s| - 1];
      var segment := LastSegment(init) + [s[|s| - 1]];
      assert s == init + [s[|s| - 1]];
      assert s[|s| - |segment|..] == init[|init| - |segment| + 1..] + [s[|s| - 1]];
      segment
  }

  const ValuesSuffix: string := "-default-values.yaml"

  /** Name of the file the chart's default values are written to. */
  function ValuesFileName(chartName: string, version: string): (filename: string)
    ensures EndsWith(filename, ValuesSuffix)
    ensures '/' !in version ==> '/' !in filename
  {
    LastSegment(chartName) + "-" + version + ValuesSuffix
  }

  /**
   * Message of the download: `showError` is the error of the values
   * command, `writeError` that of writing the file.
   */
  function DownloadResult(chartName: string, version: string, showError: Option<string>, writeError: Option<string>): (msg: Msg)
    ensures msg.DownloadCompleteMsg? <==> showError.None? && writeError.None?
    ensures msg.DownloadCompleteMsg? ==> msg.filename == ValuesFileName(chartName, version)
    ensures showError.Some? ==> msg.ErrorMsg? && EndsWith(msg.text, showError.value)
    ensures showError.None? && writeError.Some? ==> msg.ErrorMsg? && EndsWith(msg.text, writeError.value)
  {
    if showError.Some? then ErrorMsg("Failed to get chart values: " + showError.value)
    else if writeError.Some? then ErrorMsg("Failed to write values file: " + writeError.value)
    else DownloadCompleteMsg(ValuesFileName(chartName, version))
  }
}
