/** Engine runs seen as runs of the focus machine: settled wakes and published client samples. */
module EngineFocus {
  import opened Prelude
  import opened PokePolicy
  import opened ClientFocus
  import opened Room
  import opened Handlers
  import opened EngineRuns
  import opened EngineEffects
  import F = FocusRuns
  import RoomHash

  // ----- The focus ops of a handler -----

  /** Several focus ops in a row. */
  function Fold(f: Focus, ops: seq<F.Op>): Focus {
    if ops == [] then f else F.Step(Fold(f, ops[..|ops| - 1]), ops[|ops| - 1])
  }

  lemma {:induction false} FoldConcat(f: Focus, a: seq<F.Op>, b: seq<F.Op>)
    ensures Fold(f, a + b) == Fold(Fold(f, a), b)
  {
    if b == [] {
      assert a + b == a;
    } else {
      FoldConcat(f, a, b[..|b| - 1]);
      assert (a + b)[..|a + b| - 1] == a + b[..|b| - 1];
    }
  }

  function GrantOps(s: State, at: nat): seq<F.Op> {
    if s.granted then [] else [F.Observe(at)]
  }

  /** The manifest is merged and moves a pane between tabs. */
  predicate MovesRoster(s: State, digest: RoomHash.Digest, reports: seq<TabReport>, host: Host) {
    && !SkipsManifest(s, digest)
    && TabRoster(s.room) != TabRoster(ManifestApplied(s.room, reports, host.pids))
    && (s.manifestApplied || s.focus.sample.Some?)
  }

  function SeenOps(s: State, step: Step): seq<F.Op>
    requires Finishes(step.event)
  {
    var at := step.at;
    match step.event
    case PermissionGranted => GrantOps(s, at)
    case PaneManifest(digest, reports) =>
      GrantOps(s, at) + ([F.Observe(at)] + if MovesRoster(s, digest, reports, step.host) then [F.Invalidate(at)] else [])
    case TabUpdate(active, _, _, _) => GrantOps(s, at) + [F.TabUpdate(at, active)]
    case PaneClosed(pane) => GrantOps(s, at) + if KeyOf(pane) in s.room then [F.Invalidate(at)] else []
    case SessionUpdate(connected) => GrantOps(s, at) + [F.Connected(at, connected)]
    case ClientsListed(clients) => [F.Reply(at, clients)]
    case _ => []
  }

  function FinishOps(s: State, at: nat): seq<F.Op> {
    (if Alive in DuePokes(s.policy, at) then [F.Observe(at)] else []) + [F.Drive(at, !s.muted)]
  }

  function DumpOps(s: State, at: nat): seq<F.Op> {
    (if s.muted then [F.Invalidate(at)] else []) + if s.granted then [F.Drive(at, true)] else []
  }

  function StepOps(s: State, step: Step): seq<F.Op> {
    if Finishes(step.event) then SeenOps(s, step) + FinishOps(Seen(s, step).state, step.at)
    else if step.event.DumpTopologyPipe? then DumpOps(s, step.at)
    else []
  }

  /** The grant changes nothing a handler looks at later but the flags and the focus queue. */
  lemma GrantFocus(o: Outcome, now: nat, host: Host)
    ensures var g := MarkedGranted(o, now, host).state;
            && g.focus == GrantedFocus(o.state)
            && g.room == o.state.room && g.lastHash == o.state.lastHash && g.manifestApplied == o.state.manifestApplied
            && g.focus.sample == o.state.focus.sample
  {
  }

  /** The focus once the grant is marked. */
  function GrantedFocus(s: State): Focus {
    if s.granted then s.focus else Observed(s.focus)
  }

  lemma MergedFocus(s: State, reports: seq<TabReport>, now: nat, host: Host)
    ensures Merged(s, reports, now, host).focus ==
            if TabRoster(s.room) != TabRoster(ManifestApplied(s.room, reports, host.pids)) && (s.manifestApplied || s.focus.sample.Some?)
            then Invalidated(s.focus, now) else s.focus
  {
  }

  lemma ManifestFocus(s: State, digest: RoomHash.Digest, reports: seq<TabReport>, now: nat, host: Host)
    ensures ManifestSeen(s, digest, reports, now, host).state.focus ==
            var observed := Observed(GrantedFocus(s));
            if MovesRoster(s, digest, reports, host) then Invalidated(observed, now) else observed
  {
    GrantFocus(Outcome(s, []), now, host);
    var g := MarkedGranted(Outcome(s, []), now, host).state;
    MergedFocus(g.(focus := Observed(g.focus), lastHash := Some(digest)), reports, now, host);
  }

  lemma TabsFocus(
    s: State, active: Option<nat>, tabNames: map<nat, string>, tabIds: map<nat, nat>, otherViewed: set<nat>,
    now: nat, host: Host
  )
    ensures TabsSeen(s, active, tabNames, tabIds, otherViewed, now, host).state.focus ==
            TabUpdated(GrantedFocus(s), active, now)
  {
    GrantFocus(Outcome(s, []), now, host);
  }

  lemma CloseFocus(s: State, pane: PaneId, now: nat, host: Host)
    ensures CloseSeen(s, pane, now, host).state.focus ==
            if KeyOf(pane) in s.room then Invalidated(GrantedFocus(s), now) else GrantedFocus(s)
  {
    GrantFocus(Outcome(s, []), now, host);
  }

  lemma SessionFocus(s: State, connected: Option<nat>, now: nat, host: Host)
    ensures SessionSeen(s, connected, now, host).state.focus == ClientsCounted(GrantedFocus(s), connected)
  {
    if Attaches(s, connected) {
      GrantFocus(Reconfigured(Outcome(s, [])), now, host);
    } else {
      GrantFocus(Outcome(s, []), now, host);
    }
  }

  lemma FoldOne(f: Focus, op: F.Op)
    ensures Fold(f, [op]) == F.Step(f, op)
    ensures Fold(f, []) == f
  {
    assert [op][..0] == [];
  }

  /** The grant's observation followed by at most two ops. */
  lemma FoldGrant(s: State, at: nat, ops: seq<F.Op>)
    ensures Fold(s.focus, GrantOps(s, at) + ops) == Fold(GrantedFocus(s), ops)
  {
    FoldConcat(s.focus, GrantOps(s, at), ops);
    FoldOne(s.focus, F.Observe(at));
  }

  lemma ManifestOps(s: State, step: Step)
    requires step.event.PaneManifest?
    ensures Seen(s, step).state.focus == Fold(s.focus, SeenOps(s, step))
  {
    var at, host, digest, reports := step.at, step.host, step.event.digest, step.event.reports;
    ManifestFocus(s, digest, reports, at, host);
    var more := if MovesRoster(s, digest, reports, host) then [F.Invalidate(at)] else [];
    FoldGrant(s, at, [F.Observe(at)] + more);
    FoldConcat(GrantedFocus(s), [F.Observe(at)], more);
    FoldOne(GrantedFocus(s), F.Observe(at));
    FoldOne(Observed(GrantedFocus(s)), F.Invalidate(at));
    assert SeenOps(s, step) == GrantOps(s, at) + ([F.Observe(at)] + more);
    assert Seen(s, step) == ManifestSeen(s, digest, reports, at, host);
  }

  lemma TabsOps(s: State, step: Step)
    requires step.event.TabUpdate?
    ensures Seen(s, step).state.focus == Fold(s.focus, SeenOps(s, step))
  {
    var at, e := step.at, step.event;
    TabsFocus(s, e.active, e.tabNames, e.tabIds, e.otherViewed, at, step.host);
    FoldGrant(s, at, [F.TabUpdate(at, e.active)]);
    FoldOne(GrantedFocus(s), F.TabUpdate(at, e.active));
  }

  lemma SessionOps(s: State, step: Step)
    requires step.event.SessionUpdate?
    ensures Seen(s, step).state.focus == Fold(s.focus, SeenOps(s, step))
  {
    var at, connected := step.at, step.event.connected;
    SessionFocus(s, connected, at, step.host);
    FoldGrant(s, at, [F.Connected(at, connected)]);
    FoldOne(GrantedFocus(s), F.Connected(at, connected));
  }

  lemma CloseOps(s: State, step: Step)
    requires step.event.PaneClosed?
    ensures Seen(s, step).state.focus == Fold(s.focus, SeenOps(s, step))
  {
    var at, pane := step.at, step.event.pane;
    CloseFocus(s, pane, at, step.host);
    FoldGrant(s, at, if KeyOf(pane) in s.room then [F.Invalidate(at)] else []);
    FoldOne(GrantedFocus(s), F.Invalidate(at));
  }

  lemma GrantingOps(s: State, step: Step)
    requires ProvesGrant(step.event)
    ensures Seen(s, step).state.focus == Fold(s.focus, SeenOps(s, step))
  {
    match step.event {
      case PermissionGranted =>
        GrantFocus(Outcome(s, [HideSelf]), step.at, step.host);
        FoldGrant(s, step.at, []);
        assert GrantOps(s, step.at) + [] == SeenOps(s, step);
      case PaneManifest(_, _) => ManifestOps(s, step);
      case TabUpdate(_, _, _, _) => TabsOps(s, step);
      case PaneClosed(_) => CloseOps(s, step);
      case SessionUpdate(_) => SessionOps(s, step);
    }
  }

  lemma SignalFocus(s: State, now: nat)
    ensures ChangeSignalled(s, now).focus == s.focus
  {
  }

  lemma CommandFocus(s: State, pane: PaneId, update: CommandUpdate, now: nat)
    ensures CommandNoted(s, pane, update, now).focus == s.focus
  {
    SignalFocus(s.(room := CommandRoom(s.room, pane, update)), now);
  }

  lemma CwdFocus(s: State, pane: PaneId, cwd: Option<string>, now: nat)
    ensures CwdSeen(s, pane, cwd, now).state.focus == s.focus
  {
    SignalFocus(s.(room := CwdSet(s.room, pane, cwd)), now);
  }

  lemma TimerFocus(s: State, now: nat)
    ensures TimerSeen(s, now).state.focus == s.focus
  {
  }

  lemma AcceptedFocus(s: State, issuedAt: nat, now: nat)
    ensures Accepted(s, issuedAt, now).focus == s.focus
  {
  }

  lemma LocalOps(s: State, step: Step)
    requires Finishes(step.event) && !ProvesGrant(step.event) && !step.event.ClientsListed?
    ensures SeenOps(s, step) == [] && Seen(s, step).state.focus == s.focus
  {
    match step.event {
      case CommandChanged(pane, command, isForeground) =>
        CommandFocus(s, pane, ForegroundUpdate(command, isForeground), step.at);
      case CwdChanged(pane, cwd) => CwdFocus(s, pane, cwd, step.at);
      case Timer(_) => TimerFocus(s, step.at);
      case CommandResult(_, issuedAt) => AcceptedFocus(s, issuedAt.value, step.at);
      case _ =>
    }
  }

  lemma SeenFocus(s: State, step: Step)
    requires Finishes(step.event)
    ensures Seen(s, step).state.focus == Fold(s.focus, SeenOps(s, step))
  {
    if step.event.ClientsListed? {
      ClientsSettle(s, step.event.clients, step.at, step.host);
      FoldOne(s.focus, F.Reply(step.at, step.event.clients));
    } else if ProvesGrant(step.event) {
      GrantingOps(s, step);
    } else {
      LocalOps(s, step);
    }
  }

  lemma FinishFocus(o: Outcome, now: nat, host: Host)
    ensures Finished(o, now, host).state.focus == Fold(o.state.focus, FinishOps(o.state, now))
  {
    FinishExtends(o, now, host);
    FoldConcat(o.state.focus, if Alive in DuePokes(o.state.policy, now) then [F.Observe(now)] else [],
               [F.Drive(now, !o.state.muted)]);
    FoldOne(o.state.focus, F.Observe(now));
    FoldOne(AliveFocus(o.state, now), F.Drive(now, !o.state.muted));
  }

  lemma DumpFocus(s: State, now: nat, host: Host)
    ensures AfterDumpTopologyPipe(s, now, host).state.focus ==
            var f := if s.muted then Invalidated(s.focus, now) else s.focus;
            if s.granted then Driven(f, now, true) else f
  {
  }

  lemma FoldDump(s: State, at: nat)
    ensures Fold(s.focus, DumpOps(s, at)) ==
            var f := if s.muted then Invalidated(s.focus, at) else s.focus;
            if s.granted then Driven(f, at, true) else f
  {
    var f := if s.muted then Invalidated(s.focus, at) else s.focus;
    FoldConcat(s.focus, if s.muted then [F.Invalidate(at)] else [], if s.granted then [F.Drive(at, true)] else []);
    FoldOne(s.focus, F.Invalidate(at));
    FoldOne(f, F.Drive(at, true));
  }

  lemma DumpStepOps(s: State, step: Step)
    requires step.event.DumpTopologyPipe?
    ensures Handle(s, step).state.focus == Fold(s.focus, DumpOps(s, step.at))
  {
    DumpFocus(s, step.at, step.host);
    FoldDump(s, step.at);
  }

  /** A handler moves the focus machine by exactly its ops. */
  lemma StepFocus(s: State, step: Step)
    ensures Handle(s, step).state.focus == Fold(s.focus, StepOps(s, step))
  {
    if Finishes(step.event) {
      FinishingHandler(s, step);
      SeenFocus(s, step);
      FinishFocus(Seen(s, step), step.at, step.host);
      FoldConcat(s.focus, SeenOps(s, step), FinishOps(Seen(s, step).state, step.at));
    } else if step.event.DumpTopologyPipe? {
      DumpStepOps(s, step);
    } else {
      OtherFocus(s, step);
    }
  }

  lemma ResultFocus(s: State, exitCode: Option<int>, issuedAt: Option<nat>, now: nat, host: Host)
    requires !(exitCode == Some(0) && issuedAt.Some?)
    ensures AfterCommandResult(s, exitCode, issuedAt, now, host).state.focus == s.focus
  {
    assert Failed(s, now, host).state.focus == s.focus;
  }

  lemma OtherFocus(s: State, step: Step)
    requires !Finishes(step.event) && !step.event.DumpTopologyPipe?
    ensures Handle(s, step).state.focus == s.focus
  {
    match step.event {
      case CommandResult(exitCode, issuedAt) => ResultFocus(s, exitCode, issuedAt, step.at, step.host);
      case _ =>
    }
  }

  // ----- Runs -----

  /** Chunks laid end to end. */
  function Flat(chunks: seq<seq<F.Op>>, n: nat): seq<F.Op>
    requires n <= |chunks|
  {
    if n == 0 then [] else Flat(chunks, n - 1) + chunks[n - 1]
  }

  lemma {:induction false} FlatGrows(chunks: seq<seq<F.Op>>, m: nat, n: nat)
    requires m <= n <= |chunks|
    ensures Flat(chunks, m) <= Flat(chunks, n)
    decreases n
  {
    if m < n {
      FlatGrows(chunks, m, n - 1);
    }
  }

  predicate ChunkOf(run: Run, chunks: seq<seq<F.Op>>, i: nat)
    requires i < |run.steps| == |chunks|
  {
    chunks[i] == StepOps(At(run, i), run.steps[i])
  }

  /** `chunks` lists the focus ops of each step of the run. */
  predicate Traces(run: Run, chunks: seq<seq<F.Op>>) {
    |chunks| == |run.steps| && forall i | 0 <= i < |chunks| :: ChunkOf(run, chunks, i)
  }

  /** The focus ops of each step of a run. */
  function Chunks(run: Run): seq<seq<F.Op>> {
    seq(|run.steps|, i requires 0 <= i < |run.steps| => StepOps(At(run, i), run.steps[i]))
  }

  lemma EveryRunTraced(run: Run)
    ensures Traces(run, Chunks(run))
  {
    forall i | 0 <= i < |run.steps| ensures ChunkOf(run, Chunks(run), i) {
    }
  }

  /** The focus ops of a run, end to end. */
  function TraceOf(run: Run): seq<F.Op> {
    Flat(Chunks(run), |run.steps|)
  }

  /** Where the ops of step `i` start in the trace. */
  function StartOf(run: Run, i: nat): nat
    requires i <= |run.steps|
  {
    |Flat(Chunks(run), i)|
  }

  /** How many tab switches the first `n` steps of a run make. */
  function SwitchCount(run: Run, n: nat): nat
    requires n <= |run.steps|
  {
    F.Switches(Flat(Chunks(run), n), StartOf(run, n))
  }

  /** Chunk `i` in the whole trace. */
  lemma ChunkInTrace(chunks: seq<seq<F.Op>>, i: nat)
    requires i < |chunks|
    ensures var ops, k := Flat(chunks, |chunks|), |Flat(chunks, i)|;
            && k + |chunks[i]| == |Flat(chunks, i + 1)| <= |ops|
            && ops[k..k + |chunks[i]|] == chunks[i]
  {
    FlatGrows(chunks, i + 1, |chunks|);
  }

  lemma PrefixOfTrace(before: seq<F.Op>, chunk: seq<F.Op>, ops: seq<F.Op>, part: seq<F.Op>)
    requires before + chunk <= ops && part <= chunk
    ensures before + part <= ops
  {
  }

  /** Where a part of chunk `i` leads. */
  lemma PartLeads(chunks: seq<seq<F.Op>>, i: nat, part: seq<F.Op>)
    requires i < |chunks| && part <= chunks[i]
    ensures |Flat(chunks, i)| + |part| <= |Flat(chunks, i + 1)| <= |Flat(chunks, |chunks|)|
    ensures F.At(Flat(chunks, |chunks|), |Flat(chunks, i)| + |part|) ==
            Fold(F.At(Flat(chunks, i), |Flat(chunks, i)|), part)
  {
    var before := Flat(chunks, i);
    FlatGrows(chunks, i + 1, |chunks|);
    PrefixOfTrace(before, chunks[i], Flat(chunks, |chunks|), part);
    FoldExtends(before, part);
    AtPrefix(before + part, Flat(chunks, |chunks|), |before + part|);
  }

  lemma {:induction false} AtPrefix(ops: seq<F.Op>, more: seq<F.Op>, k: nat)
    requires ops <= more && k <= |ops|
    ensures F.At(more, k) == F.At(ops, k)
  {
    if k > 0 {
      AtPrefix(ops, more, k - 1);
    }
  }

  lemma {:induction false} FoldExtends(before: seq<F.Op>, ops: seq<F.Op>)
    ensures F.At(before + ops, |before + ops|) == Fold(F.At(before, |before|), ops)
  {
    var all := before + ops;
    if ops == [] {
      assert all == before;
    } else {
      var init := ops[..|ops| - 1];
      FoldExtends(before, init);
      AtPrefix(before + init, all, |before + init|);
    }
  }

  /** Chunk `i` leads from one focus state to the next. */
  predicate Linked(foci: seq<Focus>, chunks: seq<seq<F.Op>>, i: nat)
    requires i < |chunks| && |foci| == |chunks| + 1
  {
    foci[i + 1] == Fold(foci[i], chunks[i])
  }

  lemma {:induction false} ChainFollowsOps(foci: seq<Focus>, chunks: seq<seq<F.Op>>, n: nat)
    requires |foci| == |chunks| + 1 && n <= |chunks| && foci[0] == IDLE
    requires forall i | 0 <= i < |chunks| :: Linked(foci, chunks, i)
    ensures foci[n] == F.At(Flat(chunks, n), |Flat(chunks, n)|)
  {
    if n > 0 {
      ChainFollowsOps(foci, chunks, n - 1);
      assert Linked(foci, chunks, n - 1);
      FoldExtends(Flat(chunks, n - 1), chunks[n - 1]);
    }
  }

  function Foci(run: Run): seq<Focus> {
    seq(|run.steps| + 1, i requires 0 <= i <= |run.steps| => At(run, i).focus)
  }

  lemma LinkPlaced(foci: seq<Focus>, chunks: seq<seq<F.Op>>, i: nat, f: Focus, ops: seq<F.Op>, g: Focus)
    requires i < |chunks| && |foci| == |chunks| + 1 && g == Fold(f, ops)
    requires foci[i] == f && chunks[i] == ops && foci[i + 1] == g
    ensures Linked(foci, chunks, i)
  {
  }

  lemma StepLinked(run: Run, chunks: seq<seq<F.Op>>, i: nat)
    requires i < |run.steps| && Traces(run, chunks)
    ensures Linked(Foci(run), chunks, i)
  {
    ChunkFolds(run, chunks, i);
    LinkPlaced(Foci(run), chunks, i, At(run, i).focus, chunks[i], At(run, i + 1).focus);
  }

  lemma ChunkFolds(run: Run, chunks: seq<seq<F.Op>>, i: nat)
    requires i < |run.steps| && Traces(run, chunks)
    ensures At(run, i + 1).focus == Fold(At(run, i).focus, chunks[i])
  {
    assert ChunkOf(run, chunks, i);
    StepFocus(At(run, i), run.steps[i]);
  }

  /** The engine's focus is the focus machine's state after the trace. */
  lemma FocusFollowsTrace(run: Run, chunks: seq<seq<F.Op>>, n: nat)
    requires Traces(run, chunks) && n <= |run.steps|
    ensures At(run, n).focus == F.At(Flat(chunks, n), |Flat(chunks, n)|)
  {
    forall i | 0 <= i < |run.steps| ensures Linked(Foci(run), chunks, i) {
      StepLinked(run, chunks, i);
    }
    ChainFollowsOps(Foci(run), chunks, n);
  }

  predicate AllAt(ops: seq<F.Op>, at: nat) {
    forall i | 0 <= i < |ops| :: ops[i].at == at
  }

  lemma AllAtConcat(a: seq<F.Op>, b: seq<F.Op>, at: nat)
    requires AllAt(a, at) && AllAt(b, at)
    ensures AllAt(a + b, at)
  {
  }

  lemma SeenOpsAt(s: State, step: Step)
    requires Finishes(step.event)
    ensures AllAt(SeenOps(s, step), step.at)
  {
  }

  lemma FinishOpsAt(s: State, at: nat)
    ensures AllAt(FinishOps(s, at), at)
  {
  }

  lemma DumpOpsAt(s: State, at: nat)
    ensures AllAt(DumpOps(s, at), at)
  {
  }

  lemma StepOpsAt(s: State, step: Step)
    ensures AllAt(StepOps(s, step), step.at)
  {
    if Finishes(step.event) {
      SeenOpsAt(s, step);
      var t := Seen(s, step).state;
      FinishOpsAt(t, step.at);
      AllAtConcat(SeenOps(s, step), FinishOps(t, step.at), step.at);
    } else {
      DumpOpsAt(s, step.at);
    }
  }

  lemma TimedAppend(before: seq<F.Op>, ops: seq<F.Op>, clock: nat, at: nat)
    requires F.Timed(before) && AllAt(ops, at) && ClockFits(at) && clock <= at
    requires forall i | 0 <= i < |before| :: before[i].at <= clock
    ensures F.Timed(before + ops)
    ensures forall i | 0 <= i < |before + ops| :: (before + ops)[i].at <= at
  {
  }

  lemma ChunkTimed(run: Run, chunks: seq<seq<F.Op>>, i: nat)
    requires Traces(run, chunks) && i < |chunks|
    ensures AllAt(chunks[i], run.steps[i].at)
  {
    assert ChunkOf(run, chunks, i);
    StepOpsAt(At(run, i), run.steps[i]);
  }

  lemma {:induction false} TraceTimed(run: Run, chunks: seq<seq<F.Op>>, n: nat)
    requires Timed(run) && Traces(run, chunks) && n <= |chunks|
    ensures F.Timed(Flat(chunks, n))
    ensures forall i | 0 <= i < |Flat(chunks, n)| :: Flat(chunks, n)[i].at <= Clock(run, n)
  {
    if n > 0 {
      TraceTimed(run, chunks, n - 1);
      ChunkTimed(run, chunks, n - 1);
      TimedAppend(Flat(chunks, n - 1), chunks[n - 1], Clock(run, n - 1), run.steps[n - 1].at);
    }
  }
}
