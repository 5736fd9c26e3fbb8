/** How long a pane's overlays and pid probe live, over every run of roster events. */
module RoomRuns {
  import opened Prelude
  import opened ClientFocus
  import opened Room
  import opened RoomMerge

  datatype Op =
    | Manifest(reports: seq<TabReport>, pids: map<nat, nat>)
    | Foreground(pane: PaneId, command: Option<string>)
    | Shell(pane: PaneId, shell: string)
    | Cwd(pane: PaneId, cwd: Option<string>)
    | TabIds(tabIds: map<nat, nat>)
    | Close(pane: PaneId)
    | Probe(pids: map<nat, nat>)
    | Rest

  function Step(room: Roster, op: Op): Roster {
    match op
    case Manifest(reports, pids) => ManifestApplied(room, reports, pids)
    case Foreground(pane, command) => ForegroundSet(room, pane, command)
    case Shell(pane, shell) => ShellSet(room, pane, shell)
    case Cwd(pane, cwd) => CwdSet(room, pane, cwd)
    case TabIds(tabIds) => TabIdsSet(room, tabIds)
    case Close(pane) => Closed(room, pane)
    case Probe(pids) => Probed(room, pids)
    case Rest => room
  }

  function At(ops: seq<Op>, n: nat): Roster
    requires n <= |ops|
  {
    if n == 0 then map[] else Step(At(ops, n - 1), ops[n - 1])
  }

  predicate AllProjected(ops: seq<Op>) {
    forall i | 0 <= i < |ops| && ops[i].Manifest? :: Projected(ops[i].reports)
  }

  /** The roster whose live terminals the op looks up. */
  function BeforeProbe(room: Roster, op: Op): Roster {
    if op.Manifest? then WithTabs(room, op.reports) else room
  }

  /** The op asks the host for the pid of this pane. */
  predicate Probes(room: Roster, op: Op, key: PaneKey) {
    && (op.Manifest? || op.Probe?)
    && key in BeforeProbe(room, op) && NeedsProbe(key, BeforeProbe(room, op)[key])
  }

  /** The op ends the incarnation of a pane: it closes, or its tab is reported without it. */
  predicate Drops(room: Roster, op: Op, key: PaneKey) {
    && key in room
    && match op
       case Close(pane) => KeyOf(pane) == key
       case Manifest(reports, _) => !KeepsOverlay(room, reports, key)
       case _ => false
  }

  /** A pane that is not dropped keeps its place and, once probed, its pid. */
  lemma LivingPane(room: Roster, op: Op, key: PaneKey)
    requires op.Manifest? ==> Projected(op.reports)
    requires key in room && !Drops(room, op, key)
    ensures key in Step(room, op)
    ensures room[key].pid != Unprobed ==> Step(room, op)[key].pid == room[key].pid
    ensures op.Manifest? || op.TabIds? || op.Close? || op.Probe? || op.Rest? || KeyOf(op.pane) != key ==>
              var before, after := room[key], Step(room, op)[key];
              && before.foreground == after.foreground && before.shell == after.shell && before.cwd == after.cwd
    ensures room[key].pid != Unprobed ==> !Probes(room, op, key)
  {
    if op.Manifest? {
      MergeClosedForm(room, op.reports, key);
      LastReportIn(op.reports, key);
    }
  }

  lemma ProbeProbes(room: Roster, op: Op, key: PaneKey)
    requires Probes(room, op, key)
    ensures key in Step(room, op) && Step(room, op)[key].pid != Unprobed
  {
  }

  /** After a probe the pid stays probed until the incarnation ends. */
  lemma {:induction false} ProbedUntilDropped(ops: seq<Op>, key: PaneKey, i: nat, n: nat) returns (d: Option<nat>)
    requires AllProjected(ops) && i < n <= |ops| && Probes(At(ops, i), ops[i], key)
    ensures d.Some? ==> i < d.value < n && Drops(At(ops, d.value), ops[d.value], key)
    ensures d.None? ==> key in At(ops, n) && At(ops, n)[key].pid != Unprobed
    decreases n
  {
    if i == n - 1 {
      ProbeProbes(At(ops, i), ops[i], key);
      d := None;
    } else {
      d := ProbedUntilDropped(ops, key, i, n - 1);
      if d.None? {
        if Drops(At(ops, n - 1), ops[n - 1], key) {
          d := Some(n - 1);
        } else {
          LivingPane(At(ops, n - 1), ops[n - 1], key);
        }
      }
    }
  }

  /** Each incarnation of a pane is probed at most once: between two probes the pane was dropped. */
  lemma ProbedOncePerLife(ops: seq<Op>, key: PaneKey, i: nat, j: nat) returns (d: nat)
    requires AllProjected(ops) && i < j < |ops|
    requires Probes(At(ops, i), ops[i], key) && Probes(At(ops, j), ops[j], key)
    ensures i < d <= j && Drops(At(ops, d), ops[d], key)
  {
    var drop := ProbedUntilDropped(ops, key, i, j);
    if drop.Some? {
      d := drop.value;
    } else {
      d := j;
      ReprobeNeedsDrop(At(ops, j), ops[j], key);
    }
  }

  lemma ReprobeNeedsDrop(room: Roster, op: Op, key: PaneKey)
    requires op.Manifest? ==> Projected(op.reports)
    requires key in room && room[key].pid != Unprobed && Probes(room, op, key)
    ensures Drops(room, op, key)
  {
    if !Drops(room, op, key) {
      LivingPane(room, op, key);
    }
  }

  /** The op is an event about this very pane. */
  predicate Edits(op: Op, key: PaneKey) {
    (op.Foreground? || op.Shell? || op.Cwd?) && KeyOf(op.pane) == key
  }

  /** Overlays survive any number of manifests, tab updates and probes until an event edits them or the pane is dropped. */
  lemma {:induction false} OverlaySurvives(ops: seq<Op>, key: PaneKey, i: nat, n: nat)
    requires AllProjected(ops) && i <= n <= |ops| && key in At(ops, i)
    requires forall d | i <= d < n :: !Drops(At(ops, d), ops[d], key) && !Edits(ops[d], key)
    ensures key in At(ops, n)
    ensures var before, after := At(ops, i)[key], At(ops, n)[key];
            && before.foreground == after.foreground && before.shell == after.shell && before.cwd == after.cwd
            && (before.pid != Unprobed ==> after.pid == before.pid)
    decreases n
  {
    if i < n {
      OverlaySurvives(ops, key, i, n - 1);
      assert !Drops(At(ops, n - 1), ops[n - 1], key) && !Edits(ops[n - 1], key);
      LivingPane(At(ops, n - 1), ops[n - 1], key);
    }
  }

  /** A pane its tab's report names, or whose tab is not reported, is not dropped. */
  lemma StayingPaneLives(room: Roster, reports: seq<TabReport>, pids: map<nat, nat>, key: PaneKey)
    requires Projected(reports) && key in room
    requires forall i | 0 <= i < |reports| && Some(reports[i].tab) == Tab(room[key]) && reports[i].panes != [] ::
               Reports(reports[i], key)
    ensures !Drops(room, Manifest(reports, pids), key)
  {
    if Busy(reports, Tab(room[key])) {
      var i :| 0 <= i < |reports| && reports[i].tab == Tab(room[key]).value && reports[i].panes != [];
      assert Reports(reports[i], key);
    }
  }

  /**
    A pane that moves between two reported tabs keeps its overlays exactly when it moves to a
    lower tab: the merge visits tabs in ascending order, and a move to a higher tab is first
    seen as a disappearance.
   */
  lemma MoveKeepsOverlayIffDownward(room: Roster, reports: seq<TabReport>, pids: map<nat, nat>, key: PaneKey, i: nat)
    requires Projected(reports) && key in room && i < |reports|
    requires Busy(reports, Tab(room[key])) && Tab(room[key]) != Some(reports[i].tab)
    requires forall j | 0 <= j < |reports| :: Reports(reports[j], key) <==> j == i
    ensures key in ManifestApplied(room, reports, pids)
    ensures Tab(ManifestApplied(room, reports, pids)[key]) == Some(reports[i].tab)
    ensures Drops(room, Manifest(reports, pids), key) <==> Tab(room[key]).value < reports[i].tab
    ensures var after := ManifestApplied(room, reports, pids)[key];
            if reports[i].tab < Tab(room[key]).value
            then && after.foreground == room[key].foreground && after.shell == room[key].shell && after.cwd == room[key].cwd
            else after.foreground.None? && after.shell.None? && after.cwd.None?
  {
    MergeClosedForm(room, reports, key);
    LastReportIn(reports, key);
    assert Reports(reports[i], key);
  }
}
