/**
  Skipping a manifest whose stable hash is unchanged. The hash is taken as injective: its
  value is the digest itself, the stable fields of the raw panes in host order.
 */
module RoomHash {
  import opened Prelude
  import opened ClientFocus
  import opened Room
  import opened RoomMerge

  /** The hashed fields of a pane: everything the projection carries but the title. */
  function Stable(pane: PaneFields): PaneFields {
    pane.(title := "")
  }

  type Digest = seq<PaneFields>

  /** The projection sorts a tab's panes by key; the keys of one tab are distinct. */
  predicate Distinct(report: TabReport) {
    forall j, k | 0 <= j < k < |report.panes| :: Key(report.panes[j]) != Key(report.panes[k])
  }

  predicate DigestedIn(report: TabReport, digest: Digest) {
    forall p | p in report.panes :: Stable(p) in digest
  }

  predicate Holds(report: TabReport, entry: PaneFields) {
    exists p | p in report.panes :: Stable(p) == entry
  }

  predicate Shown(reports: seq<TabReport>, entry: PaneFields) {
    exists i | 0 <= i < |reports| :: Holds(reports[i], entry)
  }

  /** `reports` is the projection of a raw manifest with this digest. */
  predicate Shows(reports: seq<TabReport>, digest: Digest) {
    && Projected(reports)
    && (forall i | 0 <= i < |reports| :: Distinct(reports[i]) && DigestedIn(reports[i], digest))
    && (forall q | q in digest :: Shown(reports, q))
  }

  /** `entry` is the digest's entry for its pane under the highest tab. */
  predicate Top(digest: Digest, entry: PaneFields) {
    entry in digest && forall q | q in digest && Key(q) == Key(entry) :: q.tabPosition <= entry.tabPosition
  }

  predicate Names(digest: Digest, key: PaneKey) {
    exists q | q in digest :: Key(q) == key
  }

  predicate Covers(digest: Digest, tab: Option<nat>) {
    exists q | q in digest :: Some(q.tabPosition) == tab
  }

  /** The roster already is what the digest's manifest would make of it. */
  predicate Absorbed(room: Roster, digest: Digest) {
    && (forall entry | entry in digest && Top(digest, entry) ::
          && Key(entry) in room && room[Key(entry)].manifest.Some?
          && Stable(room[Key(entry)].manifest.value) == entry)
    && (forall key | key in room && Covers(digest, Tab(room[key])) :: Names(digest, key))
    && (forall key | key in room :: !NeedsProbe(key, room[key]))
  }

  function Untitled(state: PaneState): PaneState {
    if state.manifest.Some? then state.(manifest := Some(Stable(state.manifest.value))) else state
  }

  /** Two rosters that differ in titles at most. */
  predicate SameUpToTitles(a: Roster, b: Roster) {
    a.Keys == b.Keys && forall key | key in a :: Untitled(a[key]) == Untitled(b[key])
  }

  /** The pane a projection reports for a key is the digest's top entry for it, up to the title. */
  lemma LastReportIsTop(reports: seq<TabReport>, digest: Digest, key: PaneKey)
    requires Shows(reports, digest)
    ensures LastReport(reports, key).Some? <==> Names(digest, key)
    ensures LastReport(reports, key).Some? ==>
              Top(digest, Stable(LastReport(reports, key).value)) && Key(LastReport(reports, key).value) == key
  {
    LastReportIn(reports, key);
    if Names(digest, key) {
      var q :| q in digest && Key(q) == key;
      ShownReported(reports, q);
    }
    if LastReport(reports, key).Some? {
      var last := LastReport(reports, key).value;
      LastReportShown(reports, key);
      assert Stable(last) in digest;
      assert Key(Stable(last)) == key;
      forall q | q in digest && Key(q) == key ensures q.tabPosition <= last.tabPosition {
        ShownReported(reports, q);
        HighestTabWins(reports, key, q.tabPosition);
      }
    }
  }

  lemma ShownReported(reports: seq<TabReport>, entry: PaneFields)
    requires Projected(reports) && Shown(reports, entry)
    ensures exists i | 0 <= i < |reports| :: Reports(reports[i], Key(entry)) && reports[i].tab == entry.tabPosition
  {
    var i :| 0 <= i < |reports| && Holds(reports[i], entry);
    var p :| p in reports[i].panes && Stable(p) == entry;
    assert Key(p) == Key(entry);
    assert Reports(reports[i], Key(entry));
  }

  lemma {:induction false} LastReportShown(reports: seq<TabReport>, key: PaneKey)
    requires LastReport(reports, key).Some?
    ensures exists i | 0 <= i < |reports| :: LastReport(reports, key).value in reports[i].panes
  {
    var init, last := reports[..|reports| - 1], reports[|reports| - 1];
    LastPaneIn(last.panes, key);
    if LastPane(last.panes, key).None? {
      LastReportShown(init, key);
      var i :| 0 <= i < |init| && LastReport(init, key).value in init[i].panes;
      assert reports[i] == init[i];
    }
  }

  lemma {:induction false} HighestTabWins(reports: seq<TabReport>, key: PaneKey, tab: nat)
    requires Projected(reports)
    requires exists i | 0 <= i < |reports| :: Reports(reports[i], key) && reports[i].tab == tab
    ensures LastReport(reports, key).Some? && tab <= LastReport(reports, key).value.tabPosition
  {
    var init, last := reports[..|reports| - 1], reports[|reports| - 1];
    ProjectedInit(reports);
    LastPaneIn(last.panes, key);
    var i :| 0 <= i < |reports| && Reports(reports[i], key) && reports[i].tab == tab;
    if LastPane(last.panes, key).Some? {
      assert LastPane(last.panes, key).value in reports[|reports| - 1].panes;
    } else {
      assert init[i] == reports[i];
      HighestTabWins(init, key, tab);
    }
  }

  /** Two panes of one tab with the same key are the same pane. */
  lemma SamePane(report: TabReport, p: PaneFields, q: PaneFields)
    requires Distinct(report) && p in report.panes && q in report.panes && Key(p) == Key(q)
    ensures p == q
  {
    var m :| 0 <= m < |report.panes| && report.panes[m] == p;
    var n :| 0 <= n < |report.panes| && report.panes[n] == q;
  }

  /** A shown digest has one entry per pane and tab. */
  lemma EntriesAreUnique(reports: seq<TabReport>, digest: Digest, a: PaneFields, b: PaneFields)
    requires Shows(reports, digest) && a in digest && b in digest
    requires Key(a) == Key(b) && a.tabPosition == b.tabPosition
    ensures a == b
  {
    var i :| 0 <= i < |reports| && Holds(reports[i], a);
    var j :| 0 <= j < |reports| && Holds(reports[j], b);
    var p :| p in reports[i].panes && Stable(p) == a;
    var q :| q in reports[j].panes && Stable(q) == b;
    assert p.tabPosition == reports[i].tab && q.tabPosition == reports[j].tab;
    assert i == j;
    SamePane(reports[i], p, q);
  }

  lemma BusyIffCovered(reports: seq<TabReport>, digest: Digest, tab: Option<nat>)
    requires Shows(reports, digest)
    ensures Busy(reports, tab) <==> Covers(digest, tab)
  {
    if Busy(reports, tab) {
      var i :| 0 <= i < |reports| && reports[i].tab == tab.value && reports[i].panes != [];
      assert reports[i].panes[0] in reports[i].panes;
      assert Stable(reports[i].panes[0]) in digest;
      assert Stable(reports[i].panes[0]).tabPosition == tab.value;
    }
    if Covers(digest, tab) {
      var q :| q in digest && Some(q.tabPosition) == tab;
      ShownReported(reports, q);
    }
  }

  lemma TopEntryApplied(room: Roster, reports: seq<TabReport>, digest: Digest, pids: map<nat, nat>, entry: PaneFields)
    requires Shows(reports, digest) && Top(digest, entry)
    ensures var after := ManifestApplied(room, reports, pids);
            && Key(entry) in after && after[Key(entry)].manifest.Some?
            && Stable(after[Key(entry)].manifest.value) == entry
  {
    MergeClosedForm(room, reports, Key(entry));
    assert Names(digest, Key(entry));
    LastReportIsTop(reports, digest, Key(entry));
    var last := LastReport(reports, Key(entry)).value;
    assert Key(Stable(last)) == Key(last);
    EntriesAreUnique(reports, digest, entry, Stable(last));
  }

  lemma CoveredPaneNamed(room: Roster, reports: seq<TabReport>, digest: Digest, pids: map<nat, nat>, key: PaneKey)
    requires Shows(reports, digest) && key in ManifestApplied(room, reports, pids)
    requires Covers(digest, Tab(ManifestApplied(room, reports, pids)[key]))
    ensures Names(digest, key)
  {
    MergeClosedForm(room, reports, key);
    LastReportIsTop(reports, digest, key);
    BusyIffCovered(reports, digest, Tab(ManifestApplied(room, reports, pids)[key]));
  }

  /** Applying a manifest absorbs its digest. */
  lemma ApplyAbsorbs(room: Roster, reports: seq<TabReport>, digest: Digest, pids: map<nat, nat>)
    requires Shows(reports, digest)
    ensures Absorbed(ManifestApplied(room, reports, pids), digest)
  {
    var after := ManifestApplied(room, reports, pids);
    forall entry | entry in digest && Top(digest, entry)
      ensures Key(entry) in after && after[Key(entry)].manifest.Some?
      ensures Stable(after[Key(entry)].manifest.value) == entry
    {
      TopEntryApplied(room, reports, digest, pids, entry);
    }
    forall key | key in after && Covers(digest, Tab(after[key])) ensures Names(digest, key) {
      CoveredPaneNamed(room, reports, digest, pids, key);
    }
  }

  /** A manifest whose digest is absorbed changes nothing but titles. */
  lemma ReapplyIsInvisible(room: Roster, reports: seq<TabReport>, digest: Digest, pids: map<nat, nat>)
    requires Absorbed(room, digest) && Shows(reports, digest)
    ensures SameUpToTitles(ManifestApplied(room, reports, pids), room)
  {
    var merged := WithTabs(room, reports);
    forall key
      ensures key in merged <==> key in room
      ensures key in room ==> Untitled(merged[key]) == Untitled(room[key]) && !NeedsProbe(key, merged[key])
    {
      ReappliedPane(room, reports, digest, key);
    }
  }

  lemma ReappliedPane(room: Roster, reports: seq<TabReport>, digest: Digest, key: PaneKey)
    requires Absorbed(room, digest) && Shows(reports, digest)
    ensures var merged := WithTabs(room, reports);
            && (key in merged <==> key in room)
            && (key in room ==> Untitled(merged[key]) == Untitled(room[key]) && !NeedsProbe(key, merged[key]))
  {
    MergeClosedForm(room, reports, key);
    LastReportIsTop(reports, digest, key);
    if LastReport(reports, key).Some? {
      var last := LastReport(reports, key).value;
      assert Top(digest, Stable(last));
      assert Stable(room[key].manifest.value) == Stable(last);
      LastReportIn(reports, key);
      assert KeepsOverlay(room, reports, key);
    } else if key in room {
      BusyIffCovered(reports, digest, Tab(room[key]));
    }
  }

  // ----- What the other events do to an absorbed digest -----

  function Reid(entry: PaneFields, tabIds: map<nat, nat>): PaneFields {
    entry.(stableTabId := Lookup(tabIds, entry.tabPosition))
  }

  /** The digest with the stable tab ids of the latest tab update. */
  function Reided(digest: Digest, tabIds: map<nat, nat>): Digest {
    seq(|digest|, i requires 0 <= i < |digest| => Reid(digest[i], tabIds))
  }

  lemma OverlayKeepsAbsorbed(room: Roster, digest: Digest, key: PaneKey, state: PaneState)
    requires Absorbed(room, digest)
    requires state.manifest == StateOf(room, key).manifest && state.pid == StateOf(room, key).pid
    ensures Absorbed(room[key := state], digest)
  {
    var after := room[key := state];
    forall entry | entry in digest && Top(digest, entry)
      ensures Key(entry) in after && after[Key(entry)].manifest.Some?
      ensures Stable(after[Key(entry)].manifest.value) == entry
    {
      assert Key(entry) in room;
    }
    forall k | k in after && Covers(digest, Tab(after[k])) ensures Names(digest, k) {
      OverlayTab(room, digest, key, state, k);
    }
  }

  /** An overlay moves no pane into a covered tab. */
  lemma OverlayTab(room: Roster, digest: Digest, key: PaneKey, state: PaneState, k: PaneKey)
    requires state.manifest == StateOf(room, key).manifest
    requires k in room[key := state] && Covers(digest, Tab(room[key := state][k]))
    ensures k in room && Tab(room[k]) == Tab(room[key := state][k])
  {
    var q :| q in digest && Some(q.tabPosition) == Tab(room[key := state][k]);
  }

  lemma TopReided(digest: Digest, ids: map<nat, nat>, tabIds: map<nat, nat>, i: nat)
    requires i < |digest| && Top(Reided(digest, tabIds), Reid(digest[i], tabIds))
    ensures Top(Reided(digest, ids), Reid(digest[i], ids))
  {
    var was, now := Reided(digest, ids), Reided(digest, tabIds);
    assert was[i] in was;
    forall q | q in was && Key(q) == Key(was[i]) ensures q.tabPosition <= was[i].tabPosition {
      var j :| 0 <= j < |was| && was[j] == q;
      assert now[j] in now;
    }
  }

  lemma NamesReided(digest: Digest, ids: map<nat, nat>, tabIds: map<nat, nat>, key: PaneKey)
    requires Names(Reided(digest, ids), key)
    ensures Names(Reided(digest, tabIds), key)
  {
    var was, now := Reided(digest, ids), Reided(digest, tabIds);
    var r :| r in was && Key(r) == key;
    var j :| 0 <= j < |was| && was[j] == r;
    assert now[j] in now && Key(now[j]) == key;
  }

  lemma CoversReided(digest: Digest, ids: map<nat, nat>, tabIds: map<nat, nat>, tab: Option<nat>)
    requires Covers(Reided(digest, tabIds), tab)
    ensures Covers(Reided(digest, ids), tab)
  {
    var was, now := Reided(digest, ids), Reided(digest, tabIds);
    var q :| q in now && Some(q.tabPosition) == tab;
    var i :| 0 <= i < |now| && now[i] == q;
    assert was[i] in was && Some(was[i].tabPosition) == tab;
  }

  lemma TopEntryRetabbed(room: Roster, digest: Digest, ids: map<nat, nat>, tabIds: map<nat, nat>, entry: PaneFields)
    requires Absorbed(room, Reided(digest, ids)) && Top(Reided(digest, tabIds), entry)
    ensures var after := TabIdsSet(room, tabIds);
            && Key(entry) in after && after[Key(entry)].manifest.Some?
            && Stable(after[Key(entry)].manifest.value) == entry
  {
    var was, now := Reided(digest, ids), Reided(digest, tabIds);
    var i :| 0 <= i < |now| && now[i] == entry;
    TopReided(digest, ids, tabIds, i);
    assert Key(was[i]) == Key(entry);
    assert Stable(room[Key(was[i])].manifest.value) == was[i];
  }

  /** A tab update re-stamps roster and digest alike. */
  lemma TabUpdateKeepsAbsorbed(room: Roster, digest: Digest, ids: map<nat, nat>, tabIds: map<nat, nat>)
    requires Absorbed(room, Reided(digest, ids))
    ensures Absorbed(TabIdsSet(room, tabIds), Reided(digest, tabIds))
  {
    var now, after := Reided(digest, tabIds), TabIdsSet(room, tabIds);
    forall entry | entry in now && Top(now, entry)
      ensures Key(entry) in after && after[Key(entry)].manifest.Some?
      ensures Stable(after[Key(entry)].manifest.value) == entry
    {
      TopEntryRetabbed(room, digest, ids, tabIds, entry);
    }
    forall key | key in after && Covers(now, Tab(after[key])) ensures Names(now, key) {
      CoversReided(digest, ids, tabIds, Tab(after[key]));
      NamesReided(digest, ids, tabIds, key);
    }
  }
}
