/** A tab switch is reported settled, by a live engine under a punctual host that answers its queries. */
module EngineLiveness {
  import opened Prelude
  import opened PokePolicy
  import opened ClientFocus
  import opened Room
  import opened Handlers
  import opened EngineRuns
  import opened EngineEffects
  import opened EngineTimers
  import opened EngineFocus
  import opened EngineWakes
  import opened EngineProgress
  import opened FocusProgress
  import opened FocusLiveness
  import F = FocusRuns

  // ----- The ops of a step -----

  /** The event is no tab update, or one that keeps `tab` active. */
  predicate Stays(event: Event, tab: nat) {
    event.TabUpdate? ==> event.active == Some(tab)
  }

  predicate OnTab(ops: seq<F.Op>, tab: nat) {
    forall x | 0 <= x < |ops| :: StaysOn(ops[x], tab)
  }

  predicate NoDrives(ops: seq<F.Op>) {
    forall x | 0 <= x < |ops| :: !ops[x].Drive?
  }

  lemma SeenOpsKinds(s: State, step: Step, tab: nat)
    requires Finishes(step.event) && Stays(step.event, tab)
    ensures NoDrives(SeenOps(s, step)) && OnTab(SeenOps(s, step), tab)
  {
  }

  /** Ops that keep the tab, each driving before the window ends, leave the switch unasked. */
  lemma {:induction false} FoldUnasked(f: Focus, ops: seq<F.Op>, pending: PendingSwitch)
    requires Unasked(f, pending) && OnTab(ops, pending.tab)
    requires forall x | 0 <= x < |ops| :: ops[x].Drive? ==> ops[x].at < pending.settleAt
    ensures Unasked(Fold(f, ops), pending)
  {
    if ops != [] {
      FoldUnasked(f, ops[..|ops| - 1], pending);
      UnaskedStep(Fold(f, ops[..|ops| - 1]), ops[|ops| - 1], pending);
    }
  }

  /** The ops of a driving step before its drive. */
  function Lead(s: State, step: Step): seq<F.Op> {
    if Finishes(step.event)
    then SeenOps(s, step) + if Alive in DuePokes(Seen(s, step).state.policy, step.at) then [F.Observe(step.at)] else []
    else if s.muted then [F.Invalidate(step.at)]
    else []
  }

  lemma LeadKinds(s: State, step: Step, tab: nat)
    requires Drives(s, step) && Stays(step.event, tab)
    ensures OnTab(Lead(s, step), tab) && NoDrives(Lead(s, step))
  {
    if Finishes(step.event) {
      SeenOpsKinds(s, step, tab);
    }
  }

  /** A driving step that leaves the engine unmuted ends in a drive that may ask. */
  lemma DriveLast(s: State, step: Step)
    requires Drives(s, step) && !Handle(s, step).state.muted
    ensures StepOps(s, step) == Lead(s, step) + [F.Drive(step.at, true)]
  {
    if Finishes(step.event) {
      FinishingFocus(s, step);
    }
  }

  lemma RestingOps(s: State, step: Step, tab: nat)
    requires !Drives(s, step)
    ensures OnTab(StepOps(s, step), tab) && NoDrives(StepOps(s, step))
  {
  }

  /** A step that does not drive, or drives before the window ends, leaves the switch unasked. */
  lemma UnaskedEngineStep(s: State, step: Step, pending: PendingSwitch)
    requires Unasked(s.focus, pending) && Stays(step.event, pending.tab)
    requires Drives(s, step) ==> step.at < pending.settleAt && !Handle(s, step).state.muted
    ensures Unasked(Handle(s, step).state.focus, pending)
  {
    StepFocus(s, step);
    if Drives(s, step) {
      DriveLast(s, step);
      LeadKinds(s, step, pending.tab);
    } else {
      RestingOps(s, step, pending.tab);
    }
    FoldUnasked(s.focus, StepOps(s, step), pending);
  }

  lemma SwitchIsUnasked(f: Focus, active: nat, at: nat)
    requires Coherent(f) && IsSwitch(f, Some(active)) && f.generation + 1 < GENERATIONS && ClockFits(at)
    ensures Unasked(TabUpdated(f, Some(active), at), PendingSwitch(f.generation + 1, active, at + FOCUS_SETTLE_MS))
  {
  }

  /** The switch a tab update opens. */
  function Opened(s: State, step: Step): PendingSwitch
    requires step.event.TabUpdate? && step.event.active.Some?
  {
    PendingSwitch(s.focus.generation + 1, step.event.active.value, step.at + FOCUS_SETTLE_MS)
  }

  lemma SwitchSeen(s: State, step: Step)
    requires step.event.TabUpdate? && IsSwitch(s.focus, step.event.active) && ClockFits(step.at)
    requires Coherent(s.focus) && s.focus.generation + 1 < GENERATIONS
    ensures Unasked(Seen(s, step).state.focus, Opened(s, step))
  {
    var e := step.event;
    TabsFocus(s, e.active, e.tabNames, e.tabIds, e.otherViewed, step.at, step.host);
    SwitchIsUnasked(GrantedFocus(s), e.active.value, step.at);
  }

  lemma FinishUnasked(o: State, at: nat, pending: PendingSwitch)
    requires Unasked(o.focus, pending) && at < pending.settleAt
    ensures Unasked(Driven(AliveFocus(o, at), at, !o.muted), pending)
  {
    UnaskedStep(o.focus, F.Observe(at), pending);
    UnaskedStep(AliveFocus(o, at), F.Drive(at, !o.muted), pending);
  }

  /** A step that switches tabs leaves the switch pending and unasked. */
  lemma SwitchStep(s: State, step: Step)
    requires step.event.TabUpdate? && IsSwitch(s.focus, step.event.active) && ClockFits(step.at)
    requires Coherent(s.focus) && s.focus.generation + 1 < GENERATIONS
    ensures Unasked(Handle(s, step).state.focus, Opened(s, step))
  {
    SwitchSeen(s, step);
    FinishingFocus(s, step);
    FinishUnasked(Seen(s, step).state, step.at, Opened(s, step));
  }

  // ----- The timer behind the window -----

  lemma PendingDeadline(s: State, pending: PendingSwitch)
    requires Unasked(s.focus, pending)
    ensures Deadline(s) <= pending.settleAt
  {
  }

  /** The engine waits for the window of the switch to pass, with a timer due by then. */
  predicate Watching(run: Run, n: nat, pending: PendingSwitch)
    requires n <= |run.steps|
  {
    Unasked(At(run, n).focus, pending) && DueBy(Timers(run, n), pending.settleAt)
  }

  lemma ScheduledWatch(run: Run, n: nat, pending: PendingSwitch)
    requires Hosted(run) && 0 < n <= |run.steps| && Unasked(At(run, n).focus, pending) && Clock(run, n) <= pending.settleAt
    ensures Watching(run, n, pending)
  {
    AlwaysScheduled(run, n);
    PendingDeadline(At(run, n), pending);
    var t :| t in Timers(run, n) && t <= Max(Clock(run, n), Deadline(At(run, n)));
  }

  lemma TimersStay(run: Run, n: nat, bound: nat)
    requires n < |run.steps| && !run.steps[n].event.Timer? && DueBy(Timers(run, n), bound)
    ensures DueBy(Timers(run, n + 1), bound)
  {
    var t :| t in Timers(run, n) && t <= bound;
    assert t in Timers(run, n + 1);
  }

  /** Step `n` drives the focus machine once the window has passed. */
  predicate LateDrive(run: Run, n: nat, pending: PendingSwitch)
    requires n < |run.steps|
  {
    Drives(At(run, n), run.steps[n]) && pending.settleAt <= run.steps[n].at
  }

  lemma NextUnasked(run: Run, n: nat, pending: PendingSwitch)
    requires n < |run.steps| && Unasked(At(run, n).focus, pending) && Stays(run.steps[n].event, pending.tab)
    requires !LateDrive(run, n, pending) && !At(run, n + 1).muted
    ensures Unasked(At(run, n + 1).focus, pending)
  {
    UnaskedEngineStep(At(run, n), run.steps[n], pending);
  }

  lemma WatchStep(run: Run, n: nat, pending: PendingSwitch)
    requires Hosted(run) && n < |run.steps| && Watching(run, n, pending) && Stays(run.steps[n].event, pending.tab)
    requires !LateDrive(run, n, pending) && !At(run, n + 1).muted
    ensures Watching(run, n + 1, pending)
  {
    if Drives(At(run, n), run.steps[n]) {
      assert Unasked(At(run, n + 1).focus, pending) by {
        NextUnasked(run, n, pending);
      }
      ScheduledWatch(run, n + 1, pending);
    } else {
      RestingWatch(run, n, pending);
    }
  }

  lemma RestingWatch(run: Run, n: nat, pending: PendingSwitch)
    requires n < |run.steps| && Watching(run, n, pending) && Stays(run.steps[n].event, pending.tab)
    requires !Drives(At(run, n), run.steps[n]) && !At(run, n + 1).muted
    ensures Watching(run, n + 1, pending)
  {
    NextUnasked(run, n, pending);
    TimersStay(run, n, pending.settleAt);
  }

  lemma WatchedInTime(run: Run, n: nat, pending: PendingSwitch, latency: nat)
    requires PunctualFrom(run, n, latency) && n < |run.steps| && Watching(run, n, pending)
    ensures run.steps[n].at <= pending.settleAt + latency
  {
    assert OnTime(run, n, latency);
    var t :| t in Timers(run, n) && t <= pending.settleAt;
  }

  predicate SpeaksAt(run: Run, n: nat)
    requires n <= |run.steps|
  {
    Speaks(At(run, n))
  }

  /** From state `m` on the engine may speak and every tab update keeps `tab` active. */
  predicate Steady(run: Run, m: nat, tab: nat) {
    && (forall n | m <= n <= |run.steps| :: SpeaksAt(run, n))
    && (forall n | m <= n < |run.steps| :: Stays(run.steps[n].event, tab))
  }

  /** The machine is driven once the window has passed, at most the host's latency later. */
  lemma {:induction false} DrivenInTime(run: Run, n: nat, m: nat, pending: PendingSwitch, latency: nat) returns (j: nat)
    requires Hosted(run) && PunctualFrom(run, n, latency) && m <= n <= |run.steps| && Steady(run, m, pending.tab) && Watching(run, n, pending)
    requires Clock(run, |run.steps|) > pending.settleAt + latency && Clock(run, n) <= pending.settleAt + latency
    ensures n <= j < |run.steps| && Unasked(At(run, j).focus, pending) && LateDrive(run, j, pending)
    ensures run.steps[j].at <= pending.settleAt + latency
    decreases |run.steps| - n
  {
    WatchedInTime(run, n, pending, latency);
    if LateDrive(run, n, pending) {
      j := n;
    } else {
      assert SpeaksAt(run, n + 1);
      WatchStep(run, n, pending);
      j := DrivenInTime(run, n + 1, m, pending, latency);
    }
  }

  // ----- The host's answers -----

  /** When a step is delivered, no client query has waited longer than `wait`. */
  predicate AnsweredBy(run: Run, i: nat, wait: nat)
    requires i < |run.steps|
  {
    StartOf(run, i) <= |TraceOf(run)| && WaitsAtMost(TraceOf(run), StartOf(run, i), run.steps[i].at, wait)
  }

  /** Before step `m` nothing is owed beyond the query in flight, and from then on the host answers within `wait`. */
  predicate AnsweringFrom(run: Run, m: nat, wait: nat) {
    && m <= |run.steps| && wait < QUERY_TTL_MS
    && StartOf(run, m) <= |TraceOf(run)| && Tidy(TraceOf(run), StartOf(run, m))
    && forall i | m <= i < |run.steps| :: AnsweredBy(run, i, wait)
  }

  /** A query owed at op `p` was owed at op `n` or asked since. */
  lemma {:induction false} OwedSinceWhen(ops: seq<F.Op>, n: nat, p: nat, q: nat)
    requires n <= p <= |ops| && q in F.Outstanding(ops, p)
    ensures q in F.Outstanding(ops, n) || n <= q < p
    decreases p
  {
    if n < p && q in F.Outstanding(ops, p - 1) {
      OwedSinceWhen(ops, n, p - 1, q);
    }
  }

  lemma WaitsLater(ops: seq<F.Op>, n: nat, p: nat, now: nat, wait: nat)
    requires n <= p <= |ops| && WaitsAtMost(ops, n, now, wait) && forall q | n <= q < p :: ops[q].at == now
    ensures WaitsAtMost(ops, p, now, wait)
  {
    var owed := F.Outstanding(ops, p);
    forall j | 0 <= j < |owed| ensures now <= ops[owed[j]].at + wait {
      OwedSinceWhen(ops, n, p, owed[j]);
      if owed[j] in F.Outstanding(ops, n) {
        var k :| 0 <= k < |F.Outstanding(ops, n)| && F.Outstanding(ops, n)[k] == owed[j];
      }
    }
  }

  /** Op `p` of the trace is an op of chunk `i`. */
  lemma OpOfChunk(chunks: seq<seq<F.Op>>, i: nat, p: nat)
    requires i < |chunks| && Start(chunks, i) <= p < Start(chunks, i + 1)
    ensures p < |Ops(chunks)| && p - Start(chunks, i) < |chunks[i]| && Ops(chunks)[p] == chunks[i][p - Start(chunks, i)]
  {
    ChunkInTrace(chunks, i);
    var k := Start(chunks, i);
    assert Ops(chunks)[p] == Ops(chunks)[k..k + |chunks[i]|][p - k];
  }

  lemma TimeOfChunk(chunks: seq<seq<F.Op>>, i: nat, p: nat, at: nat)
    requires i < |chunks| && Start(chunks, i) <= p < Start(chunks, i + 1) && AllAt(chunks[i], at)
    ensures p < |Ops(chunks)| && Ops(chunks)[p].at == at
  {
    OpOfChunk(chunks, i, p);
  }

  /** The ops of step `i`, in the trace, carry its time. */
  lemma TimeOfStep(run: Run, i: nat, p: nat)
    requires i < |run.steps| && StartOf(run, i) <= p < StartOf(run, i + 1)
    ensures p < |TraceOf(run)| && TraceOf(run)[p].at == run.steps[i].at
  {
    EveryRunTraced(run);
    ChunkTimed(run, Chunks(run), i);
    TimeOfChunk(Chunks(run), i, p, run.steps[i].at);
  }

  lemma AnsweredAt(run: Run, wait: nat, i: nat, p: nat)
    requires i < |run.steps| && AnsweredBy(run, i, wait) && StartOf(run, i) <= p <= StartOf(run, i + 1)
    ensures p <= |TraceOf(run)| && WaitsAtMost(TraceOf(run), p, run.steps[i].at, wait)
  {
    StartsAscend(Chunks(run), i + 1, |run.steps|);
    forall q | StartOf(run, i) <= q < p ensures TraceOf(run)[q].at == run.steps[i].at {
      TimeOfStep(run, i, q);
    }
    WaitsLater(TraceOf(run), StartOf(run, i), p, run.steps[i].at, wait);
  }

  lemma ChunkOfOp(chunks: seq<seq<F.Op>>, p: nat, m: nat) returns (i: nat)
    requires m <= |chunks| && Start(chunks, m) <= p < |Ops(chunks)|
    ensures m <= i < |chunks| && Start(chunks, i) <= p < Start(chunks, i + 1)
  {
    i := Locate(chunks, p, |chunks|);
    if i < m {
      StartsAscend(chunks, i + 1, m);
    }
  }

  lemma AnsweredOp(run: Run, m: nat, wait: nat, p: nat)
    requires AnsweringFrom(run, m, wait) && StartOf(run, m) <= p < |TraceOf(run)|
    ensures WaitsAtMost(TraceOf(run), p, TraceOf(run)[p].at, wait)
  {
    var i := ChunkOfOp(Chunks(run), p, m);
    TimeOfStep(run, i, p);
    assert AnsweredBy(run, i, wait);
    AnsweredAt(run, wait, i, p);
  }

  lemma AnsweredEnd(run: Run, wait: nat, n: nat)
    requires n + 1 == |run.steps| && AnsweredBy(run, n, wait)
    ensures WaitsAtMost(TraceOf(run), |TraceOf(run)|, Clock(run, |run.steps|), wait)
  {
    LastChunk(Chunks(run), n);
    AnsweredAt(run, wait, n, StartOf(run, n + 1));
  }

  lemma LastChunk(chunks: seq<seq<F.Op>>, n: nat)
    requires n + 1 == |chunks|
    ensures Start(chunks, n) <= Start(chunks, n + 1) == |Ops(chunks)|
  {
    StartsAscend(chunks, n, n + 1);
  }

  lemma EngineAnswers(run: Run, m: nat, wait: nat)
    requires AnsweringFrom(run, m, wait) && m < |run.steps|
    ensures Answers(TraceOf(run), StartOf(run, m), wait, Clock(run, |run.steps|))
  {
    forall p | StartOf(run, m) <= p < |TraceOf(run)| ensures WaitsAtMost(TraceOf(run), p, TraceOf(run)[p].at, wait) {
      AnsweredOp(run, m, wait, p);
    }
    assert AnsweredBy(run, |run.steps| - 1, wait);
    AnsweredEnd(run, wait, |run.steps| - 1);
  }

  // ----- The drive in the trace -----

  predicate TabKept(chunks: seq<seq<F.Op>>, i: nat, tab: nat)
    requires i < |chunks|
  {
    OnTab(chunks[i], tab)
  }

  /** A reply comes first and is followed by a drive that may ask, with at most an observation between. */
  predicate Sweeps(ops: seq<F.Op>) {
    forall x | 0 <= x < |ops| && ops[x].Reply? ::
      && x == 0 && |ops| > 1
      && (|| ops[1] == F.Drive(ops[0].at, true)
          || (|ops| > 2 && ops[1] == F.Observe(ops[0].at) && ops[2] == F.Drive(ops[0].at, true)))
  }

  predicate SweepsAt(chunks: seq<seq<F.Op>>, i: nat)
    requires i < |chunks|
  {
    Sweeps(chunks[i])
  }

  lemma ChunksSettle(chunks: seq<seq<F.Op>>, m: nat, tab: nat)
    requires m <= |chunks| && forall i | m <= i < |chunks| :: TabKept(chunks, i, tab)
    ensures Settling(Ops(chunks), Start(chunks, m), tab)
  {
    forall p | Start(chunks, m) <= p < |Ops(chunks)| ensures StaysOn(Ops(chunks)[p], tab) {
      var i := ChunkOfOp(chunks, p, m);
      assert TabKept(chunks, i, tab);
      OpOfChunk(chunks, i, p);
    }
  }

  lemma SweptInChunk(chunks: seq<seq<F.Op>>, i: nat, p: nat)
    requires i < |chunks| && Start(chunks, i) <= p < Start(chunks, i + 1) <= |Ops(chunks)| && SweepsAt(chunks, i)
    ensures Swept(Ops(chunks), p)
  {
    OpOfChunk(chunks, i, p);
    if Ops(chunks)[p].Reply? {
      assert Start(chunks, i + 1) == Start(chunks, i) + |chunks[i]|;
      OpOfChunk(chunks, i, p + 1);
      if |chunks[i]| > 2 {
        OpOfChunk(chunks, i, p + 2);
      }
    }
  }

  lemma ChunksSwept(chunks: seq<seq<F.Op>>, m: nat, p: nat)
    requires m <= |chunks| && Start(chunks, m) <= p < |Ops(chunks)| && forall i | m <= i < |chunks| :: SweepsAt(chunks, i)
    ensures Swept(Ops(chunks), p)
  {
    var i := ChunkOfOp(chunks, p, m);
    assert SweepsAt(chunks, i);
    StartsAscend(chunks, i + 1, |chunks|);
    SweptInChunk(chunks, i, p);
  }

  lemma StepKeepsTab(s: State, step: Step, tab: nat)
    requires Stays(step.event, tab) && !Handle(s, step).state.muted
    ensures OnTab(StepOps(s, step), tab)
  {
    if Drives(s, step) {
      DriveLast(s, step);
      LeadKinds(s, step, tab);
    } else {
      RestingOps(s, step, tab);
    }
  }

  lemma SweepsReply(s: State, step: Step)
    requires step.event.ClientsListed? && !Handle(s, step).state.muted
    ensures Sweeps(StepOps(s, step))
  {
    DriveLast(s, step);
    var t := Seen(s, step).state;
    var observed := if Alive in DuePokes(t.policy, step.at) then [F.Observe(step.at)] else [];
    assert Lead(s, step) == [F.Reply(step.at, step.event.clients)] + observed;
    SweepsThree(F.Reply(step.at, step.event.clients), observed, step.at);
  }

  lemma SweepsThree(reply: F.Op, observed: seq<F.Op>, at: nat)
    requires reply.Reply? && reply.at == at && (observed == [] || observed == [F.Observe(at)])
    ensures Sweeps([reply] + observed + [F.Drive(at, true)])
  {
  }

  lemma StepSweeps(s: State, step: Step)
    requires !Handle(s, step).state.muted
    ensures Sweeps(StepOps(s, step))
  {
    if step.event.ClientsListed? {
      SweepsReply(s, step);
    } else {
      RepliesLead(s, step);
    }
  }

  lemma LiveChunk(run: Run, m: nat, tab: nat, i: nat)
    requires Steady(run, m, tab) && m <= i < |run.steps|
    ensures TabKept(Chunks(run), i, tab) && SweepsAt(Chunks(run), i)
  {
    assert SpeaksAt(run, i + 1);
    StepKeepsTab(At(run, i), run.steps[i], tab);
    StepSweeps(At(run, i), run.steps[i]);
  }

  lemma LastOp(chunks: seq<seq<F.Op>>, j: nat, lead: seq<F.Op>, op: F.Op, f: Focus) returns (d: nat)
    requires j < |chunks| && chunks[j] == lead + [op] && f == F.At(Flat(chunks, j), Start(chunks, j))
    ensures Start(chunks, j) <= d == Start(chunks, j + 1) - 1 < |Ops(chunks)|
    ensures Ops(chunks)[d] == op && F.At(Ops(chunks), d) == Fold(f, lead)
  {
    assert Start(chunks, j + 1) == Start(chunks, j) + |chunks[j]|;
    d := Start(chunks, j) + |lead|;
    PartLeads(chunks, j, lead);
    OpOfChunk(chunks, j, d);
  }

  /** The drive of a late driving step, in the trace, finds the switch unasked. */
  lemma LateDriveInTrace(run: Run, j: nat, pending: PendingSwitch) returns (d: nat)
    requires j < |run.steps| && LateDrive(run, j, pending) && Unasked(At(run, j).focus, pending)
    requires Stays(run.steps[j].event, pending.tab) && !At(run, j + 1).muted
    ensures StartOf(run, j) <= d < |TraceOf(run)|
    ensures TraceOf(run)[d] == F.Drive(run.steps[j].at, true) && Unasked(F.At(TraceOf(run), d), pending)
  {
    var lead := Lead(At(run, j), run.steps[j]);
    LateChunk(run, j, pending);
    FoldUnasked(At(run, j).focus, lead, pending);
    EveryRunTraced(run);
    FocusFollowsTrace(run, Chunks(run), j);
    d := LastOp(Chunks(run), j, lead, F.Drive(run.steps[j].at, true), At(run, j).focus);
  }

  lemma LateChunk(run: Run, j: nat, pending: PendingSwitch)
    requires j < |run.steps| && LateDrive(run, j, pending) && Stays(run.steps[j].event, pending.tab) && !At(run, j + 1).muted
    ensures var lead := Lead(At(run, j), run.steps[j]);
            Chunks(run)[j] == lead + [F.Drive(run.steps[j].at, true)] && OnTab(lead, pending.tab) && NoDrives(lead)
  {
    DriveLast(At(run, j), run.steps[j]);
    LeadKinds(At(run, j), run.steps[j], pending.tab);
  }

  // ----- The wake -----

  /** A reply that settles a switch wakes a host the engine may speak to. */
  lemma SettledIsSent(s: State, step: Step)
    requires step.event.ClientsListed? && Speaks(s)
    requires Replied(s.focus, step.event.clients, step.at).1.settled.Some?
    ensures var settled := Replied(s.focus, step.event.clients, step.at).1.settled.value;
            && |Handle(s, step).effects| > 0 && IsSettledWake(Handle(s, step).effects[0])
            && Handle(s, step).effects[0].command.request == SettledWake(settled.tab, settled.generation, settled.clients)
  {
    FinishingHandler(s, step);
    var o := ClientsSeen(s, step.event.clients, step.at, step.host);
    SettledEffect(s, step.event.clients, step.at, step.host);
    FinishExtends(o, step.at, step.host);
    assert Handle(s, step).effects[0] == o.effects[0];
  }

  lemma SettledEffect(s: State, clients: seq<ClientView>, now: nat, host: Host)
    requires Speaks(s) && Replied(s.focus, clients, now).1.settled.Some?
    ensures var settled, effects := Replied(s.focus, clients, now).1.settled.value, ClientsSeen(s, clients, now, host).effects;
            && |effects| == 1 && IsSettledWake(effects[0])
            && effects[0].command.request == SettledWake(settled.tab, settled.generation, settled.clients)
  {
  }

  /** Step `i` reports the switch settled. */
  predicate Reports(run: Run, i: nat, pending: PendingSwitch)
    requires i < |run.steps|
  {
    && |EffectsAt(run, i)| > 0 && IsSettledWake(EffectsAt(run, i)[0])
    && EffectsAt(run, i)[0].command.request.generation == pending.generation
    && EffectsAt(run, i)[0].command.request.tab == pending.tab
  }

  lemma ReplyLeadsChunk(run: Run, i: nat)
    requires i < |run.steps| && run.steps[i].event.ClientsListed?
    ensures Chunks(run)[i] != []
  {
    EveryRunTraced(run);
    ReplyLeads(run, Chunks(run), i);
  }

  lemma LaterStep(chunks: seq<seq<F.Op>>, i: nat, m: nat)
    requires i < |chunks| && m <= |chunks| && chunks[i] != [] && Start(chunks, m) <= Start(chunks, i)
    ensures m <= i
  {
    if i < m {
      StartsAscend(chunks, i, m);
    }
  }

  lemma ReplyHandled(run: Run, r: nat, i: nat, pending: PendingSwitch)
    requires i < |run.steps| && r == StartOf(run, i) < |TraceOf(run)| && run.steps[i].event.ClientsListed?
    requires SettlesAt(TraceOf(run), r, pending)
    ensures TraceOf(run)[r].at == run.steps[i].at
    ensures var settled := Replied(At(run, i).focus, run.steps[i].event.clients, run.steps[i].at).1.settled;
            settled.Some? && settled.value.generation == pending.generation && settled.value.tab == pending.tab
  {
    EveryRunTraced(run);
    ReplyInTrace(run, Chunks(run), i);
  }

  lemma SettlementIsReported(run: Run, r: nat, pending: PendingSwitch, m: nat) returns (i: nat)
    requires m <= |run.steps| && Steady(run, m, pending.tab) && StartOf(run, m) <= r < |TraceOf(run)| && SettlesAt(TraceOf(run), r, pending)
    ensures m <= i < |run.steps| && TraceOf(run)[r].at == run.steps[i].at && Reports(run, i, pending)
  {
    i := ReplyStep(run, r);
    ReplyLeadsChunk(run, i);
    LaterStep(Chunks(run), i, m);
    ReplyHandled(run, r, i, pending);
    assert SpeaksAt(run, i);
    SettledIsSent(At(run, i), run.steps[i]);
  }

  // ----- The theorem -----

  /** The generation before a step, without wrap-around. */
  lemma CountedGeneration(run: Run, n: nat)
    requires Timed(run) && n <= |run.steps| && SwitchCount(run, |run.steps|) + 1 < GENERATIONS
    ensures At(run, n).focus.generation + 1 < GENERATIONS && Coherent(At(run, n).focus)
  {
    EveryRunTraced(run);
    var chunks := Chunks(run);
    FocusFollowsTrace(run, chunks, n);
    TraceTimed(run, chunks, |run.steps|);
    StartsAscend(chunks, n, |run.steps|);
    FlatGrows(chunks, n, |run.steps|);
    AtPrefix(Flat(chunks, n), TraceOf(run), StartOf(run, n));
    F.SwitchesAscend(TraceOf(run), StartOf(run, n), |TraceOf(run)|);
    F.AlwaysTraced(TraceOf(run), StartOf(run, n));
    AlwaysCoherent(TraceOf(run), StartOf(run, n));
  }

  lemma CoherentOp(run: Run, d: nat)
    requires Timed(run) && d <= |TraceOf(run)| && SwitchCount(run, |run.steps|) + 1 < GENERATIONS
    ensures F.Timed(TraceOf(run)) && Coherent(F.At(TraceOf(run), d))
  {
    EveryRunTraced(run);
    TraceTimed(run, Chunks(run), |run.steps|);
    F.SwitchesAscend(TraceOf(run), d, |TraceOf(run)|);
    AlwaysCoherent(TraceOf(run), d);
  }

  /**
    A tab switch is reported settled. From the switch on, let the host deliver timers within
    `latency` and answer client queries within `wait`, with nothing owed beyond the query in
    flight, and let the engine stay granted, unmuted and in a session while every tab update keeps
    the tab active. Then a switch-settled wake of its generation and tab is emitted no later than
    250 ms plus the latency plus two answers after the switch.
   */
  lemma SwitchIsReported(run: Run, b: nat, latency: nat, wait: nat) returns (i: nat)
    requires Hosted(run) && b < |run.steps| && PunctualFrom(run, b + 1, latency) && AnsweringFrom(run, b + 1, wait)
    requires run.steps[b].event.TabUpdate? && IsSwitch(At(run, b).focus, run.steps[b].event.active)
    requires Steady(run, b + 1, run.steps[b].event.active.value) && SwitchCount(run, |run.steps|) + 1 < GENERATIONS
    requires Clock(run, |run.steps|) > run.steps[b].at + FOCUS_SETTLE_MS + latency + 2 * wait
    ensures b < i < |run.steps| && Reports(run, i, Opened(At(run, b), run.steps[b]))
    ensures run.steps[i].at <= run.steps[b].at + FOCUS_SETTLE_MS + latency + 2 * wait
  {
    var pending, m := Opened(At(run, b), run.steps[b]), b + 1;
    CountedGeneration(run, b);
    SwitchStep(At(run, b), run.steps[b]);
    ScheduledWatch(run, m, pending);
    var j := DrivenInTime(run, m, m, pending, latency);
    i := LateDriveReports(run, m, j, pending, wait);
  }

  lemma LateDriveReports(run: Run, m: nat, j: nat, pending: PendingSwitch, wait: nat) returns (i: nat)
    requires Timed(run) && AnsweringFrom(run, m, wait) && m <= j < |run.steps| && Steady(run, m, pending.tab)
    requires Unasked(At(run, j).focus, pending) && LateDrive(run, j, pending)
    requires SwitchCount(run, |run.steps|) + 1 < GENERATIONS && Clock(run, |run.steps|) > run.steps[j].at + 2 * wait
    ensures m <= i < |run.steps| && Reports(run, i, pending) && run.steps[i].at <= run.steps[j].at + 2 * wait
  {
    assert SpeaksAt(run, j + 1);
    var d := LateDriveInTrace(run, j, pending);
    CoherentOp(run, d);
    EngineAnswers(run, m, wait);
    StartsAscend(Chunks(run), m, j);
    forall k | m <= k < |run.steps| ensures TabKept(Chunks(run), k, pending.tab) && SweepsAt(Chunks(run), k) {
      LiveChunk(run, m, pending.tab, k);
    }
    ChunksSettle(Chunks(run), m, pending.tab);
    forall p | d <= p < |TraceOf(run)| ensures Swept(TraceOf(run), p) {
      ChunksSwept(Chunks(run), m, p);
    }
    var r := DrivenSwitchSettles(TraceOf(run), d, pending, StartOf(run, m), wait, Clock(run, |run.steps|));
    i := SettlementIsReported(run, r, pending, m);
  }
}
