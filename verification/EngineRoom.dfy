/** The engine's roster over every run: skipped manifests are invisible, and each pane is probed once in its life. */
module EngineRoom {
  import opened Prelude
  import opened PokePolicy
  import opened ClientFocus
  import opened Room
  import opened RoomHash
  import opened Handlers
  import opened EngineRuns
  import opened EngineEffects
  import opened EngineFocus
  import R = RoomRuns

  // ----- One step -----

  function CommandOp(pane: PaneId, update: CommandUpdate): R.Op {
    match update
    case Remember(command) => R.Foreground(pane, Some(command))
    case ShellOnly(command) => R.Shell(pane, command)
    case Forget => R.Foreground(pane, None)
  }

  /** The roster event of a step. */
  function StepOp(s: State, step: Step): R.Op {
    match step.event
    case PaneManifest(digest, reports) =>
      if SkipsManifest(s, digest) then R.Rest else R.Manifest(reports, step.host.pids)
    case TabUpdate(_, _, tabIds, _) => R.TabIds(tabIds)
    case CommandChanged(pane, command, isForeground) => CommandOp(pane, ForegroundUpdate(command, isForeground))
    case CwdChanged(pane, cwd) => R.Cwd(pane, cwd)
    case PaneClosed(pane) => R.Close(pane)
    case DumpTopologyPipe => if s.granted then R.Probe(step.host.pids) else R.Rest
    case _ => R.Rest
  }

  /** What the reducer remembers of manifests. */
  datatype Ledger = Ledger(room: Roster, applied: bool, lastHash: Option<Digest>)

  function LedgerOf(s: State): Ledger {
    Ledger(s.room, s.manifestApplied, s.lastHash)
  }

  function Entry(l: Ledger, event: Event, op: R.Op): Ledger {
    Ledger(
      R.Step(l.room, op),
      l.applied || op.Manifest?,
      if event.PaneManifest? then Some(event.digest)
      else if event.PaneClosed? && KeyOf(event.pane) in l.room then None
      else l.lastHash)
  }

  /** `finish_update` leaves the ledger alone. */
  lemma FinishKeepsLedger(o: Outcome, now: nat, host: Host)
    ensures LedgerOf(Finished(o, now, host).state) == LedgerOf(o.state)
  {
    FinishExtends(o, now, host);
  }

  lemma MergedLedger(s: State, reports: seq<TabReport>, now: nat, host: Host)
    ensures LedgerOf(Merged(s, reports, now, host)) ==
            Ledger(ManifestApplied(s.room, reports, host.pids), true, s.lastHash)
  {
  }

  lemma ManifestLedger(s: State, step: Step)
    requires step.event.PaneManifest?
    ensures LedgerOf(Seen(s, step).state) == Entry(LedgerOf(s), step.event, StepOp(s, step))
  {
    GrantFocus(Outcome(s, []), step.at, step.host);
    var g := MarkedGranted(Outcome(s, []), step.at, step.host).state;
    MergedLedger(g.(focus := Observed(g.focus), lastHash := Some(step.event.digest)), step.event.reports, step.at, step.host);
  }

  lemma SignalKeepsLedger(s: State, now: nat)
    ensures LedgerOf(ChangeSignalled(s, now)) == LedgerOf(s)
  {
  }

  lemma StampedLedger(
    s: State, active: Option<nat>, tabNames: map<nat, string>, tabIds: map<nat, nat>, otherViewed: set<nat>, now: nat
  )
    ensures LedgerOf(TabsStamped(s, active, tabNames, tabIds, otherViewed, now)) ==
            LedgerOf(s).(room := TabIdsSet(s.room, tabIds))
  {
    SignalKeepsLedger(s.(tabNames := tabNames, room := TabIdsSet(s.room, tabIds),
                         viewedTabs := TabsViewed(s.viewedTabs, active, tabIds, otherViewed)), now);
  }

  lemma TabsLedger(s: State, step: Step)
    requires step.event.TabUpdate?
    ensures LedgerOf(Seen(s, step).state) == LedgerOf(s).(room := TabIdsSet(s.room, step.event.tabIds))
  {
    var e := step.event;
    GrantFocus(Outcome(s, []), step.at, step.host);
    StampedLedger(MarkedGranted(Outcome(s, []), step.at, step.host).state,
                  e.active, e.tabNames, e.tabIds, e.otherViewed, step.at);
    assert Seen(s, step) == TabsSeen(s, e.active, e.tabNames, e.tabIds, e.otherViewed, step.at, step.host);
  }

  lemma CommandStep(room: Roster, pane: PaneId, update: CommandUpdate)
    ensures CommandRoom(room, pane, update) == R.Step(room, CommandOp(pane, update))
  {
  }

  lemma CommandLedger(s: State, pane: PaneId, update: CommandUpdate, now: nat)
    ensures LedgerOf(CommandNoted(s, pane, update, now)) == LedgerOf(s).(room := CommandRoom(s.room, pane, update))
  {
    SignalKeepsLedger(s.(room := CommandRoom(s.room, pane, update)), now);
  }

  lemma CwdLedger(s: State, pane: PaneId, cwd: Option<string>, now: nat)
    ensures LedgerOf(CwdSeen(s, pane, cwd, now).state) == LedgerOf(s).(room := CwdSet(s.room, pane, cwd))
  {
    SignalKeepsLedger(s.(room := CwdSet(s.room, pane, cwd)), now);
  }

  lemma CloseLedger(s: State, step: Step)
    requires step.event.PaneClosed?
    ensures LedgerOf(Seen(s, step).state) == Entry(LedgerOf(s), step.event, StepOp(s, step))
  {
    GrantFocus(Outcome(s, []), step.at, step.host);
    if KeyOf(step.event.pane) !in s.room {
      assert Closed(s.room, step.event.pane) == s.room;
    }
  }

  lemma TimerLedger(s: State, now: nat)
    ensures LedgerOf(TimerSeen(s, now).state) == LedgerOf(s)
  {
  }

  lemma SessionLedger(s: State, connected: Option<nat>, now: nat, host: Host)
    ensures LedgerOf(SessionSeen(s, connected, now, host).state) == LedgerOf(s)
  {
    var start := if Attaches(s, connected) then Reconfigured(Outcome(s, [])) else Outcome(s, []);
    GrantFocus(start, now, host);
    var g := MarkedGranted(start, now, host).state;
    SignalKeepsLedger(g.(focus := ClientsCounted(g.focus, connected), viewedTabs := {}), now);
  }

  lemma ClientsLedger(s: State, clients: seq<ClientView>, now: nat, host: Host)
    ensures LedgerOf(ClientsSeen(s, clients, now, host).state) == LedgerOf(s)
  {
    SignalKeepsLedger(s.(focus := Replied(s.focus, clients, now).0), now);
  }

  lemma AcceptedLedger(s: State, issuedAt: nat, now: nat)
    ensures LedgerOf(Accepted(s, issuedAt, now)) == LedgerOf(s)
  {
  }

  /** The events that never touch the roster. */
  predicate RoomFree(event: Event) {
    && Finishes(event)
    && !event.PaneManifest? && !event.TabUpdate? && !event.CommandChanged? && !event.CwdChanged? && !event.PaneClosed?
  }

  lemma QuietLedger(s: State, step: Step)
    requires RoomFree(step.event)
    ensures LedgerOf(Seen(s, step).state) == LedgerOf(s)
  {
    match step.event {
      case PermissionGranted => GrantFocus(Outcome(s, [HideSelf]), step.at, step.host);
      case SessionUpdate(connected) => SessionLedger(s, connected, step.at, step.host);
      case ClientsListed(clients) => ClientsLedger(s, clients, step.at, step.host);
      case Timer(_) => TimerLedger(s, step.at);
      case CommandResult(_, issuedAt) => AcceptedLedger(s, issuedAt.value, step.at);
      case _ =>
    }
  }

  lemma SeenLedger(s: State, step: Step)
    requires Finishes(step.event)
    ensures LedgerOf(Seen(s, step).state) == Entry(LedgerOf(s), step.event, StepOp(s, step))
  {
    match step.event {
      case PaneManifest(_, _) => ManifestLedger(s, step);
      case TabUpdate(_, _, _, _) => TabsLedger(s, step);
      case CommandChanged(pane, command, isForeground) =>
        CommandLedger(s, pane, ForegroundUpdate(command, isForeground), step.at);
        CommandStep(s.room, pane, ForegroundUpdate(command, isForeground));
      case CwdChanged(pane, cwd) => CwdLedger(s, pane, cwd, step.at);
      case PaneClosed(_) => CloseLedger(s, step);
      case _ => QuietLedger(s, step);
    }
  }

  lemma DumpLedger(s: State, now: nat, host: Host)
    ensures LedgerOf(AfterDumpTopologyPipe(s, now, host).state) ==
            Ledger(if s.granted then Probed(s.room, host.pids) else s.room, s.manifestApplied, s.lastHash)
  {
  }

  lemma ResultLedger(s: State, exitCode: Option<int>, issuedAt: Option<nat>, now: nat, host: Host)
    requires !(exitCode == Some(0) && issuedAt.Some?)
    ensures LedgerOf(AfterCommandResult(s, exitCode, issuedAt, now, host).state) == LedgerOf(s)
  {
    assert LedgerOf(Failed(s, now, host).state) == LedgerOf(s);
  }

  lemma UserLedger(s: State, clientId: nat, cliClientId: Option<nat>, buttonlessMotion: bool, now: nat)
    ensures LedgerOf(AfterUserAction(s, clientId, cliClientId, buttonlessMotion, now).state) == LedgerOf(s)
  {
  }

  lemma OtherLedger(s: State, step: Step)
    requires !Finishes(step.event)
    ensures LedgerOf(Handle(s, step).state) == Entry(LedgerOf(s), step.event, StepOp(s, step))
  {
    match step.event {
      case DumpTopologyPipe => DumpLedger(s, step.at, step.host);
      case CommandResult(exitCode, issuedAt) => ResultLedger(s, exitCode, issuedAt, step.at, step.host);
      case UserAction(clientId, cliClientId, motion) => UserLedger(s, clientId, cliClientId, motion, step.at);
      case _ =>
    }
  }

  lemma LedgerStep(s: State, step: Step)
    ensures LedgerOf(Handle(s, step).state) == Entry(LedgerOf(s), step.event, StepOp(s, step))
  {
    if Finishes(step.event) {
      FinishingHandler(s, step);
      SeenLedger(s, step);
      FinishKeepsLedger(Seen(s, step), step.at, step.host);
    } else {
      OtherLedger(s, step);
    }
  }

  // ----- Skipped manifests -----

  /** How the op of a step follows from its event and the ledger. */
  predicate Fits(l: Ledger, event: Event, op: R.Op) {
    match event
    case PaneManifest(digest, reports) =>
      if l.lastHash == Some(digest) && l.applied then op.Rest? else op.Manifest? && op.reports == reports
    case TabUpdate(_, _, tabIds, _) => op == R.TabIds(tabIds)
    case CommandChanged(_, _, _) => op.Foreground? || op.Shell?
    case CwdChanged(_, _) => op.Cwd?
    case PaneClosed(pane) => op == R.Close(pane)
    case DumpTopologyPipe => op.Probe? || op.Rest?
    case _ => op.Rest?
  }

  lemma OpFits(s: State, step: Step)
    ensures Fits(LedgerOf(s), step.event, StepOp(s, step))
  {
  }

  /** The shell's tab ids after an event. */
  function NextIds(ids: map<nat, nat>, event: Event): map<nat, nat> {
    if event.TabUpdate? then event.tabIds else ids
  }

  /** A manifest event as the shell builds it: projection and digest of one raw manifest under its tab ids. */
  predicate Faithful(event: Event, ids: map<nat, nat>) {
    event.PaneManifest? ==> Shows(event.reports, event.digest) && Reided(event.digest, ids) == event.digest
  }

  /** The remembered hash stands for a manifest the roster has absorbed. */
  predicate Absorbing(l: Ledger, ids: map<nat, nat>) {
    l.applied && l.lastHash.Some? ==> Absorbed(l.room, Reided(l.lastHash.value, ids))
  }

  lemma OverlayOpKeepsAbsorbed(room: Roster, digest: Digest, op: R.Op)
    requires Absorbed(room, digest) && (op.Foreground? || op.Shell? || op.Cwd?)
    ensures Absorbed(R.Step(room, op), digest)
  {
    var key := KeyOf(op.pane);
    if op.pane.Terminal? {
      OverlayKeepsAbsorbed(room, digest, key, R.Step(room, op)[key]);
    }
  }

  lemma ProbeIsIdle(room: Roster, digest: Digest, pids: map<nat, nat>)
    requires Absorbed(room, digest)
    ensures Probed(room, pids) == room
  {
  }

  lemma EntryAbsorbs(l: Ledger, event: Event, op: R.Op, ids: map<nat, nat>)
    requires Fits(l, event, op) && Faithful(event, ids) && Absorbing(l, ids)
    ensures Absorbing(Entry(l, event, op), NextIds(ids, event))
  {
    if op.Manifest? {
      ApplyAbsorbs(l.room, op.reports, event.digest, op.pids);
    } else if l.applied && l.lastHash.Some? {
      var digest := Reided(l.lastHash.value, ids);
      match op {
        case TabIds(tabIds) => TabUpdateKeepsAbsorbed(l.room, l.lastHash.value, ids, tabIds);
        case Probe(pids) => ProbeIsIdle(l.room, digest, pids);
        case Close(pane) =>
          if KeyOf(pane) !in l.room {
            assert Closed(l.room, pane) == l.room;
          }
        case Rest =>
        case _ => OverlayOpKeepsAbsorbed(l.room, digest, op);
      }
    }
  }

  // ----- Runs -----

  predicate Entered(ledgers: seq<Ledger>, events: seq<Event>, ops: seq<R.Op>, i: nat)
    requires i < |events| == |ops| && |ledgers| == |events| + 1
  {
    Fits(ledgers[i], events[i], ops[i]) && ledgers[i + 1] == Entry(ledgers[i], events[i], ops[i])
  }

  predicate LedgerRun(ledgers: seq<Ledger>, events: seq<Event>, ops: seq<R.Op>) {
    && |ledgers| == |events| + 1 && |ops| == |events| && ledgers[0] == Ledger(map[], false, None)
    && forall i | 0 <= i < |events| :: Entered(ledgers, events, ops, i)
  }

  /** The tab ids of the latest tab update among the first `n` events. */
  function IdsAt(events: seq<Event>, n: nat): map<nat, nat>
    requires n <= |events|
  {
    if n == 0 then map[] else NextIds(IdsAt(events, n - 1), events[n - 1])
  }

  predicate FaithfulAt(events: seq<Event>, i: nat)
    requires i < |events|
  {
    Faithful(events[i], IdsAt(events, i))
  }

  predicate AllFaithful(events: seq<Event>) {
    forall i | 0 <= i < |events| :: FaithfulAt(events, i)
  }

  lemma {:induction false} AlwaysAbsorbing(ledgers: seq<Ledger>, events: seq<Event>, ops: seq<R.Op>, n: nat)
    requires LedgerRun(ledgers, events, ops) && AllFaithful(events) && n <= |events|
    ensures Absorbing(ledgers[n], IdsAt(events, n))
  {
    if n > 0 {
      AlwaysAbsorbing(ledgers, events, ops, n - 1);
      assert FaithfulAt(events, n - 1) && Entered(ledgers, events, ops, n - 1);
      EntryAbsorbs(ledgers[n - 1], events[n - 1], ops[n - 1], IdsAt(events, n - 1));
    }
  }

  lemma SkipIsInvisible(ledgers: seq<Ledger>, events: seq<Event>, ops: seq<R.Op>, i: nat, pids: map<nat, nat>)
    requires LedgerRun(ledgers, events, ops) && AllFaithful(events) && i < |events|
    requires events[i].PaneManifest? && ledgers[i].lastHash == Some(events[i].digest) && ledgers[i].applied
    ensures SameUpToTitles(ManifestApplied(ledgers[i].room, events[i].reports, pids), ledgers[i].room)
  {
    AlwaysAbsorbing(ledgers, events, ops, i);
    assert FaithfulAt(events, i);
    ReapplyIsInvisible(ledgers[i].room, events[i].reports, events[i].digest, pids);
  }

  lemma {:induction false} RoomFollowsOps(ledgers: seq<Ledger>, events: seq<Event>, ops: seq<R.Op>, n: nat)
    requires LedgerRun(ledgers, events, ops) && n <= |events|
    ensures ledgers[n].room == R.At(ops, n)
  {
    if n > 0 {
      RoomFollowsOps(ledgers, events, ops, n - 1);
      assert Entered(ledgers, events, ops, n - 1);
    }
  }

  function Ledgers(run: Run): seq<Ledger> {
    seq(|run.steps| + 1, i requires 0 <= i <= |run.steps| => LedgerOf(At(run, i)))
  }

  /** The roster event of each step of the run. */
  function RoomOps(run: Run): seq<R.Op> {
    seq(|run.steps|, i requires 0 <= i < |run.steps| => StepOp(At(run, i), run.steps[i]))
  }

  lemma EntryPlaced(
    ledgers: seq<Ledger>, events: seq<Event>, ops: seq<R.Op>, i: nat, l: Ledger, e: Event, op: R.Op
  )
    requires i < |events| == |ops| && |ledgers| == |events| + 1 && Fits(l, e, op)
    requires ledgers[i] == l && events[i] == e && ops[i] == op && ledgers[i + 1] == Entry(l, e, op)
    ensures Entered(ledgers, events, ops, i)
  {
  }

  lemma EngineEnters(run: Run, i: nat)
    requires i < |run.steps|
    ensures Entered(Ledgers(run), Events(run), RoomOps(run), i)
  {
    var s, step := At(run, i), run.steps[i];
    OpFits(s, step);
    assert LedgerOf(At(run, i + 1)) == Entry(LedgerOf(s), step.event, StepOp(s, step)) by {
      LedgerStep(s, step);
    }
    EntryPlaced(Ledgers(run), Events(run), RoomOps(run), i, LedgerOf(s), step.event, StepOp(s, step));
  }

  lemma LedgersEntered(run: Run)
    ensures LedgerRun(Ledgers(run), Events(run), RoomOps(run))
  {
    forall i | 0 <= i < |run.steps| ensures Entered(Ledgers(run), Events(run), RoomOps(run), i) {
      EngineEnters(run, i);
    }
  }

  /** A manifest skipped for its unchanged hash would have changed nothing but titles. */
  lemma SkippedManifestIsInvisible(run: Run, i: nat, pids: map<nat, nat>)
    requires AllFaithful(Events(run)) && i < |run.steps| && run.steps[i].event.PaneManifest?
    requires SkipsManifest(At(run, i), run.steps[i].event.digest)
    ensures SameUpToTitles(ManifestApplied(At(run, i).room, run.steps[i].event.reports, pids), At(run, i).room)
  {
    LedgersEntered(run);
    assert Ledgers(run)[i] == LedgerOf(At(run, i)) && Events(run)[i] == run.steps[i].event;
    SkipIsInvisible(Ledgers(run), Events(run), RoomOps(run), i, pids);
  }

  /** The engine's roster is the roster machine's after the run's roster events. */
  lemma RosterFollowsRun(run: Run, n: nat)
    requires n <= |run.steps|
    ensures At(run, n).room == R.At(RoomOps(run), n)
  {
    LedgersEntered(run);
    RoomFollowsOps(Ledgers(run), Events(run), RoomOps(run), n);
    assert Ledgers(run)[n] == LedgerOf(At(run, n));
  }

  /** The host is asked for a pane's pid at most once per incarnation of the pane. */
  lemma PaneProbedOncePerLife(run: Run, key: PaneKey, i: nat, j: nat) returns (d: nat)
    requires R.AllProjected(RoomOps(run)) && i < j < |run.steps|
    requires R.Probes(At(run, i).room, RoomOps(run)[i], key) && R.Probes(At(run, j).room, RoomOps(run)[j], key)
    ensures i < d <= j && R.Drops(At(run, d).room, RoomOps(run)[d], key)
  {
    RosterFollowsRun(run, i);
    RosterFollowsRun(run, j);
    d := R.ProbedOncePerLife(RoomOps(run), key, i, j);
    RosterFollowsRun(run, d);
  }
}
