/** The in-place, tab-by-tab manifest merge computed in closed form, one pane at a time. */
module RoomMerge {
  import opened Prelude
  import opened ClientFocus
  import opened Room

  /** A pane as the shell projects it: overlays stay out of the manifest. */
  predicate Clean(pane: PaneFields) {
    pane.paneCommand.None? && pane.paneCwd.None? && pane.panePid.None? && !pane.tabViewed
  }

  predicate Reports(report: TabReport, key: PaneKey) {
    key in Keys(report.panes)
  }

  /** What the shell's projection guarantees: ascending tabs, panes stamped with their tab. */
  predicate Projected(reports: seq<TabReport>) {
    && (forall i, j | 0 <= i < j < |reports| :: reports[i].tab < reports[j].tab)
    && (forall i | 0 <= i < |reports| ::
          forall p | p in reports[i].panes :: Clean(p) && p.tabPosition == reports[i].tab)
  }

  function LastPane(panes: seq<PaneFields>, key: PaneKey): Option<PaneFields> {
    if panes == [] then None
    else if Key(panes[|panes| - 1]) == key then Some(panes[|panes| - 1])
    else LastPane(panes[..|panes| - 1], key)
  }

  /** The pane the manifest reports for a key: the report of the highest tab wins. */
  function LastReport(reports: seq<TabReport>, key: PaneKey): Option<PaneFields> {
    if reports == [] then None
    else
      var last := LastPane(reports[|reports| - 1].panes, key);
      if last.Some? then last else LastReport(reports[..|reports| - 1], key)
  }

  /** The tab is reported with at least one pane. */
  predicate Busy(reports: seq<TabReport>, tab: Option<nat>) {
    tab.Some? && exists i | 0 <= i < |reports| :: reports[i].tab == tab.value && reports[i].panes != []
  }

  /** The manifest reports the key under a tab no higher than `tab`. */
  predicate ReportedUpTo(reports: seq<TabReport>, key: PaneKey, tab: nat) {
    exists i | 0 <= i < |reports| :: reports[i].tab <= tab && Reports(reports[i], key)
  }

  /** Whether a pane's command, shell, cwd and pid survive the manifest. */
  predicate KeepsOverlay(room: Roster, reports: seq<TabReport>, key: PaneKey) {
    key in room && (Busy(reports, Tab(room[key])) ==> ReportedUpTo(reports, key, Tab(room[key]).value))
  }

  /** The state the merge leaves for a key, if any. */
  function MergedPane(room: Roster, reports: seq<TabReport>, key: PaneKey): Option<PaneState> {
    var last := LastReport(reports, key);
    if last.Some? then
      Some((if KeepsOverlay(room, reports, key) then room[key] else PENDING).(manifest := last))
    else if key in room && !Busy(reports, Tab(room[key])) then Some(room[key])
    else None
  }

  lemma {:induction false} LastPaneIn(panes: seq<PaneFields>, key: PaneKey)
    ensures LastPane(panes, key).Some? <==> key in Keys(panes)
    ensures LastPane(panes, key).Some? ==> LastPane(panes, key).value in panes && Key(LastPane(panes, key).value) == key
  {
    if panes != [] {
      var init, last := panes[..|panes| - 1], panes[|panes| - 1];
      assert panes == init + [last];
      LastPaneIn(init, key);
      assert Keys(panes) == Keys(init) + {Key(last)};
    }
  }

  lemma {:induction false} WithPanesAt(room: Roster, panes: seq<PaneFields>, key: PaneKey)
    requires forall p | p in panes :: Clean(p)
    ensures Lookup(WithPanes(room, panes), key) ==
            if LastPane(panes, key).Some? then Some(StateOf(room, key).(manifest := LastPane(panes, key)))
            else Lookup(room, key)
  {
    if panes != [] {
      var init, last := panes[..|panes| - 1], panes[|panes| - 1];
      assert panes == init + [last];
      WithPanesAt(room, init, key);
      assert Clean(last);
    }
  }

  lemma ProjectedInit(reports: seq<TabReport>)
    requires Projected(reports) && reports != []
    ensures Projected(reports[..|reports| - 1])
    ensures var init := reports[..|reports| - 1];
            forall i | 0 <= i < |init| :: init[i].tab < reports[|reports| - 1].tab
  {
  }

  lemma {:induction false} LastReportIn(reports: seq<TabReport>, key: PaneKey)
    requires Projected(reports)
    ensures LastReport(reports, key).Some? <==> exists i | 0 <= i < |reports| :: Reports(reports[i], key)
    ensures LastReport(reports, key).Some? ==>
              && Key(LastReport(reports, key).value) == key && Clean(LastReport(reports, key).value)
              && exists i | 0 <= i < |reports| ::
                   Reports(reports[i], key) && reports[i].tab == LastReport(reports, key).value.tabPosition
  {
    if reports != [] {
      var init, last := reports[..|reports| - 1], reports[|reports| - 1];
      ProjectedInit(reports);
      LastReportIn(init, key);
      LastPaneIn(last.panes, key);
      if LastPane(last.panes, key).Some? {
        assert Reports(reports[|reports| - 1], key);
      } else if LastReport(init, key).Some? {
        var i :| 0 <= i < |init| && Reports(init[i], key) && init[i].tab == LastReport(init, key).value.tabPosition;
        assert Reports(reports[i], key);
      } else {
        forall i | 0 <= i < |reports| ensures !Reports(reports[i], key) {
          if i < |init| {
            assert init[i] == reports[i];
          }
        }
      }
    }
  }

  lemma BusyInit(reports: seq<TabReport>, tab: Option<nat>)
    requires reports != []
    ensures Busy(reports, tab) <==>
            || Busy(reports[..|reports| - 1], tab)
            || (tab == Some(reports[|reports| - 1].tab) && reports[|reports| - 1].panes != [])
  {
    var init, last := reports[..|reports| - 1], reports[|reports| - 1];
    if Busy(init, tab) {
      var i :| 0 <= i < |init| && init[i].tab == tab.value && init[i].panes != [];
      assert reports[i] == init[i];
    }
    if Busy(reports, tab) {
      var i :| 0 <= i < |reports| && reports[i].tab == tab.value && reports[i].panes != [];
      if i < |init| {
        assert init[i] == reports[i];
      }
    }
  }

  lemma UpToInit(reports: seq<TabReport>, key: PaneKey, tab: nat)
    requires reports != []
    ensures ReportedUpTo(reports, key, tab) <==>
            || ReportedUpTo(reports[..|reports| - 1], key, tab)
            || (reports[|reports| - 1].tab <= tab && Reports(reports[|reports| - 1], key))
  {
    var init, last := reports[..|reports| - 1], reports[|reports| - 1];
    if ReportedUpTo(init, key, tab) {
      var i :| 0 <= i < |init| && init[i].tab <= tab && Reports(init[i], key);
      assert reports[i] == init[i];
    }
    if ReportedUpTo(reports, key, tab) {
      var i :| 0 <= i < |reports| && reports[i].tab <= tab && Reports(reports[i], key);
      if i < |init| {
        assert init[i] == reports[i];
      }
    }
  }

  /** A busy tab of the earlier reports lies below the last one; so does the tab of any pane they report. */
  lemma EarlierTabs(reports: seq<TabReport>, key: PaneKey)
    requires Projected(reports) && reports != []
    ensures var init, top := reports[..|reports| - 1], reports[|reports| - 1].tab;
            && (forall tab: nat | Busy(init, Some(tab)) :: tab < top)
            && (forall tab: nat | ReportedUpTo(init, key, tab) :: LastReport(init, key).Some?)
            && (LastReport(init, key).Some? ==>
                  LastReport(init, key).value.tabPosition < top && ReportedUpTo(init, key, top))
  {
    ProjectedInit(reports);
    var init, top := reports[..|reports| - 1], reports[|reports| - 1].tab;
    LastReportIn(init, key);
    if LastReport(init, key).Some? {
      var i :| 0 <= i < |init| && Reports(init[i], key) && init[i].tab == LastReport(init, key).value.tabPosition;
      assert init[i].tab <= top;
    }
  }

  /** One more report moves the closed form exactly as the loop body moves the roster. */
  lemma MergeStep(room: Roster, reports: seq<TabReport>, key: PaneKey)
    requires Projected(reports) && reports != []
    requires Lookup(WithTabs(room, reports[..|reports| - 1]), key) == MergedPane(room, reports[..|reports| - 1], key)
    ensures Lookup(WithTabs(room, reports), key) == MergedPane(room, reports, key)
  {
    var init, last := reports[..|reports| - 1], reports[|reports| - 1];
    var before := WithTabs(room, init);
    LastPaneIn(last.panes, key);
    EarlierTabs(reports, key);
    if key in room {
      BusyInit(reports, Tab(room[key]));
      if Tab(room[key]).Some? {
        UpToInit(reports, key, Tab(room[key]).value);
      }
    }
    if last.panes != [] {
      var retained := Retained(before, last.tab, Keys(last.panes));
      forall p | p in last.panes ensures Clean(p) {
        assert p in reports[|reports| - 1].panes;
      }
      WithPanesAt(retained, last.panes, key);
    }
  }

  /** The manifest merge in closed form, for every roster, manifest and pane. */
  lemma {:induction false} MergeClosedForm(room: Roster, reports: seq<TabReport>, key: PaneKey)
    requires Projected(reports)
    ensures Lookup(WithTabs(room, reports), key) == MergedPane(room, reports, key)
  {
    if reports != [] {
      ProjectedInit(reports);
      MergeClosedForm(room, reports[..|reports| - 1], key);
      MergeStep(room, reports, key);
    }
  }
}
