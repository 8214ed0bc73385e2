/** Properties of the key handling in `Update`, screen by screen. */
module NavigationLemmas {
  import opened BrowserModel
  import opened Events
  import opened Transitions

  /** Up/k: the cursor moves one row up on a list screen unless it is on row 0; nothing else changes. */
  lemma UpKeyMovesCursor(m: Model, key: string)
    requires Classify(key) == UpKey
    ensures Update(m, KeyMsg(key)).Next? && Update(m, KeyMsg(key)).cmd == NoCmd
    ensures Update(m, KeyMsg(key)).model == m.(cursor := Update(m, KeyMsg(key)).model.cursor)
    ensures IsListScreen(m.state) && m.cursor > 0 ==> Update(m, KeyMsg(key)).model.cursor == m.cursor - 1
    ensures !IsListScreen(m.state) || m.cursor == 0 ==> Update(m, KeyMsg(key)).model == m
  {
  }

  /** Down/j: the cursor moves one row down on a list screen unless it is on the last row; nothing else changes. */
  lemma DownKeyMovesCursor(m: Model, key: string)
    requires Classify(key) == DownKey
    ensures Update(m, KeyMsg(key)).Next? && Update(m, KeyMsg(key)).cmd == NoCmd
    ensures Update(m, KeyMsg(key)).model == m.(cursor := Update(m, KeyMsg(key)).model.cursor)
    ensures IsListScreen(m.state) && m.cursor + 1 < m.ActiveLength() ==> Update(m, KeyMsg(key)).model.cursor == m.cursor + 1
    ensures !IsListScreen(m.state) || m.cursor + 1 >= m.ActiveLength() ==> Update(m, KeyMsg(key)).model == m
  {
  }

  /** A cursor is on a row of a list of `n` rows, or on 0 when the list is empty. */
  predicate CursorFits(cursor: nat, n: nat) {
    cursor < n || (n == 0 && cursor == 0)
  }

  /**
   * Moving never takes the cursor off the list: it stays within
   * [0, n - 1] for a non-empty list and at 0 for an empty one, and each
   * press moves it by at most one row.
   */
  lemma MovesKeepCursorOnList(m: Model, key: string)
    requires Classify(key) == UpKey || Classify(key) == DownKey
    requires IsListScreen(m.state) && CursorFits(m.cursor, m.ActiveLength())
    ensures Update(m, KeyMsg(key)).Next?
    ensures CursorFits(Update(m, KeyMsg(key)).model.cursor, m.ActiveLength())
    ensures m.cursor - 1 <= Update(m, KeyMsg(key)).model.cursor <= m.cursor + 1
    ensures m.ActiveLength() == 0 ==> Update(m, KeyMsg(key)).model.cursor == 0
  {
  }

  /**
   * Enter/Space on a list with the cursor on a row selects that row: it is
   * recorded, loading starts, the next screen is shown and the load or
   * download for that row is requested. The repository and chart lists put
   * the cursor back on 0; the version list leaves it.
   */
  lemma EnterSelectsCursorRow(m: Model, key: string)
    requires Classify(key) == SelectKey
    requires IsListScreen(m.state) && m.cursor < m.ActiveLength()
    ensures Update(m, KeyMsg(key)).Next?
    ensures m.state == RepoList ==>
      Update(m, KeyMsg(key)) ==
        Next(m.(selectedRepo := m.cursor, cursor := 0, loading := true, state := ChartList), LoadCharts(m.repos[m.cursor].name))
    ensures m.state == ChartList ==>
      Update(m, KeyMsg(key)) ==
        Next(m.(selectedChart := m.cursor, cursor := 0, loading := true, state := VersionList), LoadVersions(m.charts[m.cursor].name))
    ensures m.state == VersionList ==>
      Update(m, KeyMsg(key)) ==
        Next(m.(selectedVersion := m.cursor, loading := true, state := Download),
             DownloadValues(m.versions[m.cursor].name, m.versions[m.cursor].version))
  {
  }

  /** Enter/Space on an empty list changes nothing. */
  lemma EnterOnEmptyList(m: Model, key: string)
    requires Classify(key) == SelectKey
    requires IsListScreen(m.state) && m.ActiveLength() == 0
    ensures Update(m, KeyMsg(key)) == Next(m, NoCmd)
  {
  }

  /**
   * Enter/Space on a non-empty list whose cursor lies past its end indexes
   * out of range: Go's run-time panic.
   */
  lemma EnterPastEndPanics(m: Model, key: string)
    requires Classify(key) == SelectKey
    requires IsListScreen(m.state) && 0 < m.ActiveLength() <= m.cursor
    ensures Update(m, KeyMsg(key)) == Panic(m.cursor, m.ActiveLength())
  {
  }

  /**
   * A digit key 1..9 on a list screen selects row PageStart + n - 1 when the
   * list has it, exactly as Enter would with the cursor on that row, except
   * that on the version list the cursor itself stays where it was. Without
   * that row, nothing changes.
   */
  lemma DigitSelectsPageRow(m: Model, key: string, n: nat)
    requires Shortcut(key) == Some(n)
    requires IsListScreen(m.state)
    ensures var i := m.PageStart() + n - 1;
      i >= m.ActiveLength() ==> Update(m, KeyMsg(key)) == Next(m, NoCmd)
    ensures var i := m.PageStart() + n - 1; var enter := Update(m.(cursor := i), KeyMsg("enter"));
      i < m.ActiveLength() ==>
        && enter.Next? && Update(m, KeyMsg(key)).Next?
        && Update(m, KeyMsg(key)) == Next(enter.model.(cursor := Update(m, KeyMsg(key)).model.cursor), enter.cmd)
        && (m.state != VersionList ==> Update(m, KeyMsg(key)) == enter)
        && (m.state == VersionList ==> Update(m, KeyMsg(key)).model.cursor == m.cursor)
  {
  }

  /**
   * The number a shortcut key selects is the last digit of the number the
   * list prints in front of that row (row i is printed as i + 1).
   */
  lemma DigitMatchesRowLabel(m: Model, key: string, n: nat)
    requires Shortcut(key) == Some(n)
    ensures (m.PageStart() + n - 1 + 1) % PageSize == n
    ensures key[0] as int == '0' as int + (m.PageStart() + n) % PageSize
  {
  }

  /** Digit 0 is not a shortcut: it quits on the Complete screen and does nothing elsewhere. */
  lemma DigitZeroIgnored(m: Model)
    ensures m.state == Complete ==> Update(m, KeyMsg("0")) == Next(m, Quit)
    ensures m.state != Complete ==> Update(m, KeyMsg("0")) == Next(m, NoCmd)
  {
  }

  /**
   * So no key of the default arm selects the tenth row of a page: that row
   * is reachable only by moving the cursor onto it and pressing Enter.
   */
  lemma TenthRowHasNoShortcut(m: Model, key: string)
    requires Classify(key) == DefaultKey
    requires IsListScreen(m.state) && m.PageStart() + PageSize - 1 < m.ActiveLength()
    ensures Update(m, KeyMsg(key)) != SelectAt(m, m.PageStart() + PageSize - 1)
  {
  }

  /**
   * Backspace/Esc returns from the chart list to the repository list and
   * from the version list to the chart list, with the cursor on the earlier
   * choice and the left list discarded; it quits on Complete and does
   * nothing elsewhere. It is taken while loading too, and loading stays as it was.
   */
  lemma BackByScreen(m: Model, key: string)
    requires Classify(key) == BackKey
    ensures m.state == ChartList ==>
      Update(m, KeyMsg(key)) == Next(m.(state := RepoList, cursor := m.selectedRepo, charts := []), NoCmd)
    ensures m.state == VersionList ==>
      Update(m, KeyMsg(key)) == Next(m.(state := ChartList, cursor := m.selectedChart, versions := []), NoCmd)
    ensures m.state == Complete ==> Update(m, KeyMsg(key)) == Next(m, Quit)
    ensures m.state !in {ChartList, VersionList, Complete} ==> Update(m, KeyMsg(key)) == Next(m, NoCmd)
    ensures Update(m, KeyMsg(key)).Next? && Update(m, KeyMsg(key)).model.loading == m.loading
  {
  }

  /** q and ctrl+c quit from every screen and leave the session as it is. */
  lemma QuitKeysQuit(m: Model, key: string)
    requires key == "q" || key == "ctrl+c"
    ensures Update(m, KeyMsg(key)) == Next(m, Quit)
  {
  }

  /**
   * On Complete every key quits except the cursor keys up/k/down/j, which
   * fall into the movement arm and do nothing there.
   */
  lemma CompleteScreenKeys(m: Model, key: string)
    requires m.state == Complete
    ensures Classify(key) == UpKey || Classify(key) == DownKey ==> Update(m, KeyMsg(key)) == Next(m, NoCmd)
    ensures Classify(key) != UpKey && Classify(key) != DownKey ==> Update(m, KeyMsg(key)) == Next(m, Quit)
  {
  }

  /** On the error screen q/ctrl+c quit and every other key leaves the session unchanged. */
  lemma ErrorScreenKeys(m: Model, key: string)
    requires m.state == Error
    ensures Update(m, KeyMsg(key)) == Next(m, if Classify(key) == QuitKey then Quit else NoCmd)
  {
  }

  /** Any run of key presses on the error screen ends with the same session, quit or not. */
  lemma {:induction false} ErrorScreenAbsorbsKeys(m: Model, msgs: seq<Msg>)
    requires m.state == Error
    requires forall j :: 0 <= j < |msgs| ==> msgs[j].KeyMsg?
    ensures Run(m, msgs) == Running(m) || Run(m, msgs) == Exited(m)
    decreases |msgs|
  {
    if msgs != [] {
      ErrorScreenKeys(m, msgs[0].key);
      if Classify(msgs[0].key) != QuitKey {
        ErrorScreenAbsorbsKeys(m, msgs[1..]);
      }
    }
  }
}
