/** Properties of the asynchronous result messages. */
module MessageLemmas {
  import opened BrowserModel
  import opened Events
  import opened Fetch
  import opened Transitions

  /** A failure moves every screen to Error, ends loading and keeps the text verbatim; nothing else changes. */
  lemma ErrorFromAnyScreen(m: Model, text: string)
    ensures Update(m, ErrorMsg(text)) == Next(m.(state := Error, loading := false, error := text), NoCmd)
    ensures Update(m, ErrorMsg(text)).model.error == text
  {
  }

  /** The index refresh keeps the refresh screen, stays loading and requests the repository list. */
  lemma RepoUpdateKeepsScreen(m: Model)
    ensures Update(m, RepoUpdateMsg) == Next(m.(loading := true), LoadRepos)
    ensures Update(m, RepoUpdateMsg).model.state == m.state
  {
  }

  /**
   * A loaded list replaces the stored one, ends loading and puts the cursor
   * on row 0. Only the repository list moves to its screen; loaded charts and
   * versions leave the screen as it is.
   */
  lemma LoadedListResetsCursor(m: Model, msg: Msg)
    requires msg.ReposLoadedMsg? || msg.ChartsLoadedMsg? || msg.VersionsLoadedMsg?
    ensures Update(m, msg).Next? && Update(m, msg).cmd == NoCmd
    ensures Update(m, msg).model.cursor == 0 && !Update(m, msg).model.loading
    ensures msg.ReposLoadedMsg? ==> Update(m, msg).model == m.(repos := msg.repos, loading := false, state := RepoList, cursor := 0)
    ensures msg.ChartsLoadedMsg? ==> Update(m, msg).model == m.(charts := msg.charts, loading := false, cursor := 0)
    ensures msg.VersionsLoadedMsg? ==> Update(m, msg).model == m.(versions := msg.versions, loading := false, cursor := 0)
  {
  }

  /** `LastSegment` is the only '/'-free suffix that is all of the name or follows a '/'. */
  lemma LastSegmentUnique(s: string, segment: string)
    requires '/' !in segment
    requires EndsWith(s, segment)
    requires |segment| < |s| ==> s[|s| - |segment| - 1] == '/'
    ensures segment == LastSegment(s)
  {
  }

  /** A name without '/' is its own last segment. */
  lemma LastSegmentOfPlainName(s: string)
    requires '/' !in s
    ensures LastSegment(s) == s
  {
  }

  /** For a qualified name `repo/chart`, the chart part is kept. */
  lemma LastSegmentOfQualifiedName(repo: string, chart: string)
    requires '/' !in chart
    ensures LastSegment(repo + "/" + chart) == chart
  {
    var s := repo + "/" + chart;
    assert s[|s| - |chart|..] == chart;
    assert s[|s| - |chart| - 1] == '/';
    LastSegmentUnique(s, chart);
  }

  /** The values file of `repo/chart` at `version` is named chart-version-default-values.yaml. */
  lemma ValuesFileNameOfQualifiedChart(repo: string, chart: string, version: string)
    requires '/' !in chart
    ensures ValuesFileName(repo + "/" + chart, version) == chart + "-" + version + "-default-values.yaml"
  {
    LastSegmentOfQualifiedName(repo, chart);
  }

  /**
   * A download whose values command and file write both succeed moves the
   * session to Complete with a message naming the written file.
   */
  lemma SuccessfulDownloadCompletes(m: Model, chartName: string, version: string)
    ensures Update(m, DownloadResult(chartName, version, None, None)) ==
      Next(m.(loading := false, state := Complete,
              message := "Successfully downloaded: " + ValuesFileName(chartName, version)), NoCmd)
  {
  }

  /** A failed command of any kind ends on the error screen with its diagnostic at the end of the error text. */
  lemma FailedCommandShowsDiagnostic(m: Model, msg: Msg, detail: string)
    requires msg == UpdateReposResult(Some(detail))
          || msg == LoadReposResult(RunFailed(detail)) || msg == LoadReposResult(ParseFailed(detail))
          || msg == LoadChartsResult(RunFailed(detail)) || msg == LoadChartsResult(ParseFailed(detail))
          || msg == LoadVersionsResult(RunFailed(detail)) || msg == LoadVersionsResult(ParseFailed(detail))
          || (exists chart, version, e :: msg == DownloadResult(chart, version, Some(detail), e))
          || (exists chart, version :: msg == DownloadResult(chart, version, None, Some(detail)))
    ensures Update(m, msg).Next? && Update(m, msg).model.state == Error && !Update(m, msg).model.loading
    ensures EndsWith(Update(m, msg).model.error, detail)
  {
  }
}
