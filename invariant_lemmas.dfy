/**
 * The session invariant that keeps every selection inside its list, the one
 * message order that breaks it, and the crash that follows.
 */
module InvariantLemmas {
  import opened BrowserModel
  import opened Events
  import opened Transitions
  import opened Views
  import opened NavigationLemmas

  /**
   * On a list screen the cursor is on a row (or on 0 for an empty list),
   * and the choices that Back returns to are rows of their lists.
   */
  predicate Wellformed(m: Model) {
    && (IsListScreen(m.state) ==> CursorFits(m.cursor, m.ActiveLength()))
    && (m.state == ChartList || m.state == VersionList ==> m.selectedRepo < |m.repos|)
    && (m.state == VersionList ==> m.selectedChart < |m.charts|)
  }

  lemma InitialModelWellformed()
    ensures Wellformed(Init().model)
  {
  }

  /** A well-formed session never panics, whatever the message. */
  lemma WellformedNeverPanics(m: Model, msg: Msg)
    requires Wellformed(m)
    ensures Update(m, msg).Next?
  {
  }

  /**
   * Every message keeps the session well-formed, except a chart list that
   * arrives while the version list is shown: it can drop the chart that Back
   * would return to.
   */
  lemma WellformedPreserved(m: Model, msg: Msg)
    requires Wellformed(m)
    requires !(msg.ChartsLoadedMsg? && m.state == VersionList)
    ensures Update(m, msg).Next? && Wellformed(Update(m, msg).model)
  {
  }

  /** A session in which the exception does happen and the invariant is lost. */
  lemma ChartsOnVersionListBreakInvariant()
    ensures var charts := [HelmChart("a/x", "1", "", ""), HelmChart("a/y", "1", "", "")];
      var m := Model(VersionList, [HelmRepo("a", "")], charts, [], 0, 1, 0, 0, true, "", "");
      && Wellformed(m)
      && !Wellformed(Update(Update(m, ChartsLoadedMsg([charts[0]])).model, KeyMsg("esc")).model)
  {
  }

  /**
   * A message order is orderly when no chart list arrives while the version
   * list is shown (up to the end, a quit or a panic).
   */
  predicate Orderly(m: Model, msgs: seq<Msg>)
    decreases |msgs|
  {
    msgs == [] ||
    (!(msgs[0].ChartsLoadedMsg? && m.state == VersionList) &&
     match Update(m, msgs[0])
     case Panic(_, _) => true
     case Next(m', cmd) => cmd == Quit || Orderly(m', msgs[1..]))
  }

  /** A well-formed session is always drawn: the view's headings index inside their lists. */
  lemma WellformedIsDrawn(m: Model)
    requires Wellformed(m)
    ensures Draw(m) == Drawn
  {
  }

  /** An orderly run from a well-formed session never crashes and ends well-formed. */
  lemma {:induction false} OrderlyRunNeverCrashes(m: Model, msgs: seq<Msg>)
    requires Wellformed(m) && Orderly(m, msgs)
    ensures Run(m, msgs).Running? || Run(m, msgs).Exited?
    ensures Wellformed(Run(m, msgs).model)
    decreases |msgs|
  {
    if msgs != [] {
      WellformedPreserved(m, msgs[0]);
      var t := Update(m, msgs[0]);
      WellformedIsDrawn(t.model);
      if t.cmd != Quit {
        OrderlyRunNeverCrashes(t.model, msgs[1..]);
      }
    }
  }

  /**
   * A chart list arriving on the version list breaks the invariant exactly
   * when it no longer holds the chosen chart, and then the very next frame
   * indexes past its end: the view crashes at once.
   */
  lemma StaleChartListBreaksView(m: Model, charts: seq<HelmChart>)
    requires Wellformed(m) && m.state == VersionList
    ensures var m' := Update(m, ChartsLoadedMsg(charts)).model;
      && (!Wellformed(m') <==> m.selectedChart >= |charts|)
      && (!Wellformed(m') ==> Draw(m') == ViewPanic(m.selectedChart, |charts|))
      && (Wellformed(m') <==> Draw(m') == Drawn)
  {
  }

  /**
   * From a well-formed session, in whatever order the messages come, `Update`
   * never panics: every session that is drawn is well-formed again, so the
   * only crash left is the view's, on the frame after a stale chart list.
   */
  lemma {:induction false} ViewCrashesBeforeUpdatePanics(m: Model, msgs: seq<Msg>)
    requires Wellformed(m)
    ensures !Run(m, msgs).Crashed?
    ensures Run(m, msgs).Running? || Run(m, msgs).Exited? ==> Wellformed(Run(m, msgs).model)
    decreases |msgs|
  {
    if msgs != [] {
      WellformedNeverPanics(m, msgs[0]);
      var t := Update(m, msgs[0]);
      if msgs[0].ChartsLoadedMsg? && m.state == VersionList {
        StaleChartListBreaksView(m, msgs[0].charts);
      } else {
        WellformedPreserved(m, msgs[0]);
      }
      if Draw(t.model) == Drawn && t.cmd != Quit {
        ViewCrashesBeforeUpdatePanics(t.model, msgs[1..]);
      }
    }
  }

  /** A run that goes on through its first messages continues from where they left the session. */
  lemma {:induction false} RunAppend(m: Model, first: seq<Msg>, rest: seq<Msg>)
    requires Run(m, first).Running?
    ensures Run(m, first + rest) == Run(Run(m, first).model, rest)
    decreases |first|
  {
    if first != [] {
      assert (first + rest)[0] == first[0];
      assert (first + rest)[1..] == first[1..] + rest;
      RunAppend(Update(m, first[0]).model, first[1..], rest);
    } else {
      assert first + rest == rest;
    }
  }

  /**
   * From the start of the program, a repository choice that is left and
   * redone before its charts arrive leaves two chart searches in flight.
   * The first seven messages run without a crash. When the first search's
   * result arrives first, and the second one arrives after a chart was
   * chosen, the new chart list lacks the chosen chart, and drawing the
   * version list's heading indexes past its end.
   */
  lemma StaleChartListCrashes()
    ensures var a := [HelmChart("a/x", "1", "", ""), HelmChart("a/y", "1", "", "")];
      var b := [HelmChart("b/z", "1", "", "")];
      var msgs := [
        RepoUpdateMsg,
        ReposLoadedMsg([HelmRepo("a", "u1"), HelmRepo("b", "u2")]),
        KeyMsg("enter"),      // choose repository a: charts of a requested
        KeyMsg("esc"),        // back before they arrive
        KeyMsg("2"),          // choose repository b: charts of b requested
        ChartsLoadedMsg(a),   // the charts of a arrive first
        KeyMsg("2")];         // choose chart a/y (row 1)
      && Run(Init().model, msgs).Running?
      && Run(Init().model, msgs + [ChartsLoadedMsg(b)]) == ViewCrashed(1, 1)
  {
    var a := [HelmChart("a/x", "1", "", ""), HelmChart("a/y", "1", "", "")];
    var b := [HelmChart("b/z", "1", "", "")];
    var repos := [HelmRepo("a", "u1"), HelmRepo("b", "u2")];
    var m0 := Init().model;
    var m1 := m0.(loading := true);
    assert Update(m0, RepoUpdateMsg) == Next(m1, LoadRepos);
    var m2 := m1.(repos := repos, loading := false, state := RepoList, cursor := 0);
    assert Update(m1, ReposLoadedMsg(repos)) == Next(m2, NoCmd);
    var m3 := m2.(selectedRepo := 0, cursor := 0, loading := true, state := ChartList);
    assert Update(m2, KeyMsg("enter")) == Next(m3, LoadCharts("a"));
    var m4 := m3.(state := RepoList, cursor := 0, charts := []);
    assert Update(m3, KeyMsg("esc")) == Next(m4, NoCmd);
    var m5 := m4.(selectedRepo := 1, cursor := 0, loading := true, state := ChartList);
    assert Shortcut("2") == Some(2);
    assert Update(m4, KeyMsg("2")) == Next(m5, LoadCharts("b"));
    var m6 := m5.(charts := a, loading := false, cursor := 0);
    assert Update(m5, ChartsLoadedMsg(a)) == Next(m6, NoCmd);
    var m7 := m6.(selectedChart := 1, cursor := 0, loading := true, state := VersionList);
    assert Update(m6, KeyMsg("2")) == Next(m7, LoadVersions("a/y"));
    var m8 := m7.(charts := b, loading := false, cursor := 0);
    assert Update(m7, ChartsLoadedMsg(b)) == Next(m8, NoCmd);
    assert Draw(m8) == ViewPanic(1, 1);
    var msgs := [RepoUpdateMsg, ReposLoadedMsg(repos), KeyMsg("enter"), KeyMsg("esc"), KeyMsg("2"),
                 ChartsLoadedMsg(a), KeyMsg("2")];
    assert Run(m7, msgs[7..]) == Running(m7);
    assert Run(m6, msgs[6..]) == Run(m7, msgs[7..]);
    assert Run(m5, msgs[5..]) == Run(m6, msgs[6..]);
    assert Run(m4, msgs[4..]) == Run(m5, msgs[5..]);
    assert Run(m3, msgs[3..]) == Run(m4, msgs[4..]);
    assert Run(m2, msgs[2..]) == Run(m3, msgs[3..]);
    assert Run(m1, msgs[1..]) == Run(m2, msgs[2..]);
    assert Run(m0, msgs) == Run(m1, msgs[1..]);
    RunAppend(m0, msgs, [ChartsLoadedMsg(b)]);
    assert Run(m7, [ChartsLoadedMsg(b)]) == ViewCrashed(1, 1);
  }
}
