/** The browser's session record and the pagination arithmetic derived from its cursor. */
module BrowserModel {

  /** Number of list rows shown per page. */
  const PageSize: nat := 10

  /** The screen the browser is on; one variant per Go state constant. */
  datatype Screen = RepoUpdate | RepoList | ChartList | VersionList | Download | Error | Complete

  /** A configured Helm repository. */
  datatype HelmRepo = HelmRepo(name: string, url: string)

  /** A chart of one repository, as listed by the search command. */
  datatype HelmChart = HelmChart(name: string, version: string, appVersion: string, description: string)

  /** One published version of a chart. */
  datatype HelmVersion = HelmVersion(name: string, version: string, appVersion: string, created: string)

  /** The three screens that show a list and move a cursor over it. */
  predicate IsListScreen(s: Screen) {
    s == RepoList || s == ChartList || s == VersionList
  }

  /**
   * The session. Go keeps cursor and selection indices in `int`, but no
   * transition ever stores a negative value in them, so they are `nat` here.
   */
  datatype Model = Model(
    state: Screen,
    repos: seq<HelmRepo>,
    charts: seq<HelmChart>,
    versions: seq<HelmVersion>,
    selectedRepo: nat,
    selectedChart: nat,
    selectedVersion: nat,
    cursor: nat,
    loading: bool,
    error: string,
    message: string)
  {
    /** Zero-based number of the page that holds the cursor. */
    function CurrentPage(): (page: nat)
      ensures page * PageSize <= cursor < (page + 1) * PageSize
    {
      cursor / PageSize
    }

    /** Index of the first row of the cursor's page. */
    function PageStart(): (start: nat)
      ensures start % PageSize == 0
      ensures start <= cursor < start + PageSize
    {
      CurrentPage() * PageSize
    }

    /** One past the last row of the cursor's page, cut at the list length. */
    function PageEnd(totalItems: nat): (end: nat)
      ensures end <= PageStart() + PageSize && end <= totalItems
      ensures end == PageStart() + PageSize || end == totalItems
    {
      var end := PageStart() + PageSize;
      if end > totalItems then totalItems else end
    }

    /** Position of the cursor counted from the top of its page. */
    function CursorInPage(): (offset: nat)
      ensures offset < PageSize
      ensures PageStart() + offset == cursor
    {
      cursor % PageSize
    }

    /** Length of the list shown on the current screen (0 off the list screens). */
    function ActiveLength(): nat {
      match state
      case RepoList => |repos|
      case ChartList => |charts|
      case VersionList => |versions|
      case _ => 0
    }
  }

  /** The session the program starts with: Go's zero values, refreshing, loading. */
  function InitialModel(): Model {
    Model(RepoUpdate, [], [], [], 0, 0, 0, 0, true, "", "")
  }
}
