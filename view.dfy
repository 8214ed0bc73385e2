/**
 * The indexing the view does outside its row loop. The chart list's heading
 * names the chosen repository. The version list's heading names the chosen
 * chart, with the chosen repository's prefix stripped. While a list is
 * loading, its screen shows only a loading line. The rows themselves are in
 * `Rows`, whose indices always lie inside the list.
 */
module Views {
  import opened BrowserModel

  /** Drawing one frame: it is drawn, or an index is out of range (Go's run-time panic). */
  datatype Frame = Drawn | ViewPanic(index: nat, length: nat)

  /**
   * The frame drawn for session `m`. The version list takes the chosen
   * chart before the chosen repository, so a missing chart is the one reported.
   */
  function Draw(m: Model): (f: Frame)
    ensures f.Drawn? <==>
      || m.loading
      || (m.state != ChartList && m.state != VersionList)
      || (m.selectedRepo < |m.repos| && (m.state == VersionList ==> m.selectedChart < |m.charts|))
    ensures f.ViewPanic? ==>
      || f == ViewPanic(m.selectedRepo, |m.repos|)
      || (m.state == VersionList && f == ViewPanic(m.selectedChart, |m.charts|))
    ensures f.ViewPanic? ==> f.index >= f.length
    ensures !m.loading && m.state == VersionList && m.selectedChart >= |m.charts| ==>
      f == ViewPanic(m.selectedChart, |m.charts|)
  {
    if m.loading then Drawn
    else
      match m.state
      case ChartList =>
        if m.selectedRepo < |m.repos| then Drawn else ViewPanic(m.selectedRepo, |m.repos|)
      case VersionList =>
        if m.selectedChart >= |m.charts| then ViewPanic(m.selectedChart, |m.charts|)
        else if m.selectedRepo >= |m.repos| then ViewPanic(m.selectedRepo, |m.repos|)
        else Drawn
      case _ => Drawn
  }
}
