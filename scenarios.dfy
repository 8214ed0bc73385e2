/** Worked sessions: concrete message sequences and what they leave. */
module Scenarios {
  import opened BrowserModel
  import opened Events
  import opened Fetch
  import opened Transitions
  import MessageLemmas

  /**
   * Refresh, load three repositories, and choose the second one, by number
   * key or by moving down and pressing Enter: both request its charts.
   */
  lemma ChooseSecondOfThreeRepositories()
    ensures var repos := [HelmRepo("argo", "url1"), HelmRepo("external-secrets", "url2"), HelmRepo("apisix", "url3")];
      var m := Update(Update(Init().model, RepoUpdateMsg).model, ReposLoadedMsg(repos)).model;
      && m.state == RepoList && m.cursor == 0 && !m.loading
      && Update(m, KeyMsg("2")) == Next(m.(selectedRepo := 1, cursor := 0, loading := true, state := ChartList), LoadCharts("external-secrets"))
      && Update(Update(m, KeyMsg("down")).model, KeyMsg("enter")) == Update(m, KeyMsg("2"))
  {
  }

  /** On a loaded version list, Enter on the first row requests the download of that version. */
  lemma EnterOnFirstVersion()
    ensures var versions := [HelmVersion("argo/argo-cd", "5.46.8", "v2.8.4", ""), HelmVersion("argo/argo-cd", "5.46.7", "v2.8.3", "")];
      var m := Model(VersionList, [HelmRepo("argo", "url1")], [HelmChart("argo/argo-cd", "5.46.8", "v2.8.4", "")],
                     versions, 0, 0, 0, 0, false, "", "");
      Update(m, KeyMsg("enter")) == Next(m.(state := Download, loading := true), DownloadValues("argo/argo-cd", "5.46.8"))
  {
  }

  /** The last segment of argo/argo-cd is argo-cd. */
  lemma ArgoCdBaseName()
    ensures LastSegment("argo/argo-cd") == "argo-cd"
  {
  }

  /** The values file of argo/argo-cd 5.46.8 is argo-cd-5.46.8-default-values.yaml. */
  lemma ArgoCdFileName()
    ensures ValuesFileName("argo/argo-cd", "5.46.8") == "argo-cd-5.46.8-default-values.yaml"
  {
  }

  /** The finished download of argo/argo-cd 5.46.8 reports that file. */
  lemma ArgoCdDownloadMessage()
    ensures DownloadResult("argo/argo-cd", "5.46.8", None, None) == DownloadCompleteMsg("argo-cd-5.46.8-default-values.yaml")
  {
    ArgoCdFileName();
  }

  /** Its message completes the session with a message naming the file. */
  lemma DownloadOfArgoCdCompletes(m: Model)
    ensures Update(m, DownloadResult("argo/argo-cd", "5.46.8", None, None)) ==
      Next(m.(loading := false, state := Complete,
              message := "Successfully downloaded: " + "argo-cd-5.46.8-default-values.yaml"), NoCmd)
  {
    ArgoCdDownloadMessage();
  }

  /** A chart search that exits non-zero ends the session on the error screen with Go's error text. */
  lemma ChartSearchFails(m: Model)
    requires m.state == ChartList && m.loading
    ensures Update(m, LoadChartsResult(RunFailed("exit status 1"))) ==
      Next(m.(state := Error, loading := false, error := "Failed to search charts: exit status 1"), NoCmd)
  {
    assert LoadChartsResult(RunFailed("exit status 1")) == ErrorMsg("Failed to search charts: exit status 1");
  }

  /** An empty repository list draws no rows, keeps the cursor on 0 and ignores Enter and number keys. */
  lemma EmptyRepositoryList(m: Model, key: string)
    requires Classify(key) == SelectKey || Shortcut(key).Some?
    ensures var loaded := Update(m, ReposLoadedMsg([])).model;
      && loaded.state == RepoList && loaded.cursor == 0
      && loaded.PageEnd(|loaded.repos|) == loaded.PageStart() == 0
      && Update(loaded, KeyMsg(key)) == Next(loaded, NoCmd)
  {
  }
}
