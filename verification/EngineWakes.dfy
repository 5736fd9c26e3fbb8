/** What the engine tells the host over every run: settled switches, client samples, the writer fence. */
module EngineWakes {
  import opened Prelude
  import opened PokePolicy
  import opened ClientFocus
  import opened Room
  import opened Handlers
  import opened EngineRuns
  import opened EngineEffects
  import opened EngineFocus
  import F = FocusRuns

  // ----- Single effects -----

  predicate IsSettledWake(e: Effect) {
    e.RunCommand? && e.command.Wake? && e.command.request.SettledWake?
  }

  predicate CarriesTopology(e: Effect) {
    e.RunCommand? && e.command.Wake? && e.command.topology.Some?
  }

  /** The focus states a handler publishes from. */
  predicate PublishesFrom(s: State, step: Step, f: Focus) {
    || f == s.focus
    || (Finishes(step.event) && f == Seen(s, step).state.focus)
    || (!Finishes(step.event) && f == Speaking(s, step).focus)
  }

  /** A mute that holds through the step. */
  predicate Silenced(s: State, step: Step) {
    s.muted && !Accepts(step.event) && !step.event.DumpTopologyPipe?
  }

  /** The engine may wake the host, in a session. */
  predicate Speaks(s: State) {
    s.granted && !s.muted && s.config.sessionName.Some?
  }

  /** The facts every effect of every handler satisfies. */
  ghost predicate Lawful(s: State, step: Step, e: Effect) {
    && (e.ListClients? ==> !Silenced(s, step))
    && (e.RunCommand? && e.topologyIssuedAt.Some? ==> CarriesTopology(e))
    && (CarriesTopology(e) ==>
          && e.topologyIssuedAt == Some(step.at) && e.command.topology.value.producedAt == step.at
          && !Silenced(s, step)
          && exists f :: PublishesFrom(s, step, f) && e.command.topology.value.clients == PublishedSample(f))
    && (IsSettledWake(e) ==>
          && step.event.ClientsListed?
          && Replied(s.focus, step.event.clients, step.at).1.settled ==
             Some(Settled(e.command.request.tab, e.command.request.generation, e.command.request.clients)))
  }

  lemma PlainIsLawful(s: State, step: Step, e: Effect, muted: bool, f: Focus)
    requires Plain(e, step.at, muted, PublishedSample(f)) || e.SetTimeout?
    requires PublishesFrom(s, step, f) && (Silenced(s, step) ==> muted)
    ensures Lawful(s, step, e)
  {
  }

  /** The effects a handler emits before `finish_update`. */
  lemma SeenEffectIsLawful(s: State, step: Step, k: nat)
    requires Finishes(step.event) && k < |Seen(s, step).effects|
    ensures Lawful(s, step, Seen(s, step).effects[k])
  {
    var o := Seen(s, step);
    if step.event.ClientsListed? {
      ClientsSettle(s, step.event.clients, step.at, step.host);
      assert PublishesFrom(s, step, o.state.focus);
    } else {
      SeenIsTame(s, step);
      PlainIsLawful(s, step, o.effects[k], Entered(s, step).muted, s.focus);
    }
  }

  lemma SeenMute(s: State, step: Step)
    requires Finishes(step.event)
    ensures Seen(s, step).state.muted == Entered(s, step).muted
  {
    if step.event.ClientsListed? {
      ClientsSettle(s, step.event.clients, step.at, step.host);
    } else {
      SeenIsTame(s, step);
    }
  }

  lemma FinishingEffectIsLawful(s: State, step: Step, k: nat)
    requires Finishes(step.event) && k < |Handle(s, step).effects|
    ensures Lawful(s, step, Handle(s, step).effects[k])
  {
    FinishingHandler(s, step);
    var o := Seen(s, step);
    FinishExtends(o, step.at, step.host);
    if k < |o.effects| {
      SeenEffectIsLawful(s, step, k);
    } else {
      SeenMute(s, step);
      PlainIsLawful(s, step, Handle(s, step).effects[k], o.state.muted, o.state.focus);
    }
  }

  lemma EffectIsLawful(s: State, step: Step, k: nat)
    requires k < |Handle(s, step).effects|
    ensures Lawful(s, step, Handle(s, step).effects[k])
  {
    if Finishes(step.event) {
      FinishingEffectIsLawful(s, step, k);
    } else {
      OtherExtends(s, step);
      var t := Speaking(s, step);
      PlainIsLawful(s, step, Handle(s, step).effects[k], t.muted, t.focus);
    }
  }

  // ----- Settled switches -----
  //
  // `chunks` are the focus ops of each step; laid end to end they are the run's focus trace.

  function Ops(chunks: seq<seq<F.Op>>): seq<F.Op> {
    Flat(chunks, |chunks|)
  }

  /** Where the ops of step `i` start in the trace. */
  function Start(chunks: seq<seq<F.Op>>, i: nat): nat
    requires i <= |chunks|
  {
    |Flat(chunks, i)|
  }

  lemma StartsAscend(chunks: seq<seq<F.Op>>, i: nat, j: nat)
    requires i <= j <= |chunks|
    ensures Start(chunks, i) <= Start(chunks, j) <= |Ops(chunks)|
    ensures i < j && chunks[i] != [] ==> Start(chunks, i) < Start(chunks, j)
  {
    FlatGrows(chunks, i, j);
    FlatGrows(chunks, j, |chunks|);
    if i < j {
      FlatGrows(chunks, i + 1, j);
    }
  }

  lemma ReplyLeads(run: Run, chunks: seq<seq<F.Op>>, i: nat)
    requires Traces(run, chunks) && i < |chunks| && run.steps[i].event.ClientsListed?
    ensures chunks[i] != [] && chunks[i][0] == F.Reply(run.steps[i].at, run.steps[i].event.clients)
  {
    assert ChunkOf(run, chunks, i);
  }

  /** The reply of step `i` sits in the trace right after the ops of the earlier steps. */
  lemma ReplyInTrace(run: Run, chunks: seq<seq<F.Op>>, i: nat)
    requires Traces(run, chunks) && i < |chunks| && run.steps[i].event.ClientsListed?
    ensures var k := Start(chunks, i);
            && k < |Ops(chunks)|
            && Ops(chunks)[k] == F.Reply(run.steps[i].at, run.steps[i].event.clients)
            && F.At(Ops(chunks), k) == At(run, i).focus
  {
    ReplyLeads(run, chunks, i);
    ChunkInTrace(chunks, i);
    PartLeads(chunks, i, []);
    FocusFollowsTrace(run, chunks, i);
    var k := Start(chunks, i);
    assert Ops(chunks)[k] == Ops(chunks)[k..k + |chunks[i]|][0];
  }

  /** A settled wake of step `i` is the settled observation of that step's reply. */
  lemma SettledWakeInTrace(run: Run, chunks: seq<seq<F.Op>>, i: nat, k: nat)
    requires Traces(run, chunks) && i < |chunks|
    requires k < |EffectsAt(run, i)| && IsSettledWake(EffectsAt(run, i)[k])
    ensures Start(chunks, i) < |Ops(chunks)| && chunks[i] != []
    ensures var request, p := EffectsAt(run, i)[k].command.request, Start(chunks, i);
            && Ops(chunks)[p].at == run.steps[i].at
            && F.At(Ops(chunks), p) == At(run, i).focus
            && F.SettledAt(Ops(chunks), p) == Some(Settled(request.tab, request.generation, request.clients))
  {
    EffectIsLawful(At(run, i), run.steps[i], k);
    ReplyInTrace(run, chunks, i);
    ReplyLeads(run, chunks, i);
  }

  /** A handler emits at most one settled wake, and first. */
  lemma SettledWakeLeads(s: State, step: Step, k: nat)
    requires k < |Handle(s, step).effects| && IsSettledWake(Handle(s, step).effects[k])
    ensures k == 0
  {
    EffectIsLawful(s, step, k);
    FinishingHandler(s, step);
    ClientsSettle(s, step.event.clients, step.at, step.host);
    FinishExtends(Seen(s, step), step.at, step.host);
  }

  /** Settled wakes of different steps carry strictly increasing generations. */
  lemma SettledWakesIncrease(run: Run, i: nat, k: nat, j: nat, l: nat)
    requires Timed(run) && i < j < |run.steps| && SwitchCount(run, |run.steps|) < GENERATIONS
    requires k < |EffectsAt(run, i)| && IsSettledWake(EffectsAt(run, i)[k])
    requires l < |EffectsAt(run, j)| && IsSettledWake(EffectsAt(run, j)[l])
    ensures EffectsAt(run, i)[k].command.request.generation < EffectsAt(run, j)[l].command.request.generation
  {
    var chunks := Chunks(run);
    EveryRunTraced(run);
    SettledWakeInTrace(run, chunks, i, k);
    SettledWakeInTrace(run, chunks, j, l);
    TraceTimed(run, chunks, |chunks|);
    StartsAscend(chunks, i, j);
    F.SettlementsIncrease(Ops(chunks), Start(chunks, i), Start(chunks, j));
  }

  /** A tab switch is reported at most once: settled wakes of one generation are one effect of one step. */
  lemma SwitchReportedOnce(run: Run, i: nat, k: nat, j: nat, l: nat)
    requires Timed(run) && SwitchCount(run, |run.steps|) < GENERATIONS && i < |run.steps| && j < |run.steps|
    requires k < |EffectsAt(run, i)| && IsSettledWake(EffectsAt(run, i)[k])
    requires l < |EffectsAt(run, j)| && IsSettledWake(EffectsAt(run, j)[l])
    requires EffectsAt(run, i)[k].command.request.generation == EffectsAt(run, j)[l].command.request.generation
    ensures i == j && k == l
  {
    if i < j {
      SettledWakesIncrease(run, i, k, j, l);
    } else if j < i {
      SettledWakesIncrease(run, j, l, i, k);
    }
    SettledWakeLeads(At(run, i), run.steps[i], k);
    SettledWakeLeads(At(run, j), run.steps[j], l);
  }

  /** A settled wake names the latest switch and the tab active when it is sent, at least 250 ms after that switch. */
  lemma SettledWakeOrigin(run: Run, i: nat, k: nat) returns (b: nat)
    requires Timed(run) && i < |run.steps| && SwitchCount(run, |run.steps|) < GENERATIONS
    requires k < |EffectsAt(run, i)| && IsSettledWake(EffectsAt(run, i)[k])
    ensures b < StartOf(run, i) < |TraceOf(run)| && F.SwitchAt(TraceOf(run), b)
    ensures var request := EffectsAt(run, i)[k].command.request;
            && At(run, i).focus.activeTab == Some(request.tab)
            && TraceOf(run)[b].active == Some(request.tab)
            && request.generation == F.Switches(TraceOf(run), b + 1) == F.Switches(TraceOf(run), StartOf(run, i))
    ensures TraceOf(run)[b].at + FOCUS_SETTLE_MS <= run.steps[i].at
  {
    var chunks := Chunks(run);
    EveryRunTraced(run);
    SettledWakeInTrace(run, chunks, i, k);
    TraceTimed(run, chunks, |chunks|);
    F.SwitchesAscend(Ops(chunks), Start(chunks, i), |Ops(chunks)|);
    b := F.SettlementOrigin(Ops(chunks), Start(chunks, i));
  }

  // ----- Client samples -----

  /** The ops of the step that lead to the focus it publishes from. */
  lemma PublishingPart(s: State, step: Step, f: Focus) returns (part: seq<F.Op>)
    requires PublishesFrom(s, step, f)
    ensures part <= StepOps(s, step) && Fold(s.focus, part) == f
  {
    if f == s.focus {
      part := [];
    } else if Finishes(step.event) {
      SeenFocus(s, step);
      part := SeenOps(s, step);
    } else {
      part := if step.event.DumpTopologyPipe? && s.muted then [F.Invalidate(step.at)] else [];
      FoldOne(s.focus, F.Invalidate(step.at));
    }
  }

  /** Where a part of chunk `i` leads, in the trace. */
  lemma PartPlaced(chunks: seq<seq<F.Op>>, i: nat, f: Focus, part: seq<F.Op>) returns (n: nat)
    requires i < |chunks| && part <= chunks[i] && f == F.At(Flat(chunks, i), Start(chunks, i))
    ensures Start(chunks, i) <= n <= Start(chunks, i + 1) <= |Ops(chunks)| && F.At(Ops(chunks), n) == Fold(f, part)
  {
    PartLeads(chunks, i, part);
    n := Start(chunks, i) + |part|;
  }

  /** A focus state the handler publishes from is a state of the focus machine along the trace. */
  lemma PublishingFocusInTrace(run: Run, chunks: seq<seq<F.Op>>, i: nat, f: Focus) returns (n: nat)
    requires Traces(run, chunks) && i < |run.steps| && PublishesFrom(At(run, i), run.steps[i], f)
    ensures Start(chunks, i) <= n <= Start(chunks, i + 1) <= |Ops(chunks)| && F.At(Ops(chunks), n) == f
  {
    var part := PublishingPart(At(run, i), run.steps[i], f);
    assert part <= chunks[i] by {
      assert ChunkOf(run, chunks, i);
    }
    FocusFollowsTrace(run, chunks, i);
    n := PartPlaced(chunks, i, At(run, i).focus, part);
  }

  // ----- Replies in the trace -----

  /** A client reply finds a query in flight behind an expired one. */
  predicate Crossed(f: Focus, at: nat) {
    var g := Expired(f, at);
    g.staleReplies > 0 && g.inFlight.Some?
  }

  /** Step `i`, if a client reply, is not crossed. */
  predicate Uncrossed(run: Run, i: nat)
    requires i < |run.steps|
  {
    run.steps[i].event.ClientsListed? ==> !Crossed(At(run, i).focus, run.steps[i].at)
  }

  predicate NoReplies(ops: seq<F.Op>) {
    forall x | 0 <= x < |ops| :: !ops[x].Reply?
  }

  /** A reply occurs in the ops of a client reply only, and first. */
  predicate ReplyFirst(ops: seq<F.Op>, event: Event) {
    if event.ClientsListed? then ops != [] && NoReplies(ops[1..]) else NoReplies(ops)
  }

  lemma SeenHasNoReply(s: State, step: Step)
    requires Finishes(step.event) && !step.event.ClientsListed?
    ensures NoReplies(SeenOps(s, step))
  {
  }

  lemma FinishHasNoReply(s: State, at: nat)
    ensures NoReplies(FinishOps(s, at)) && NoReplies(DumpOps(s, at))
  {
  }

  lemma NoRepliesConcat(a: seq<F.Op>, b: seq<F.Op>)
    requires NoReplies(a) && NoReplies(b)
    ensures NoReplies(a + b)
  {
  }

  lemma RepliesLead(s: State, step: Step)
    ensures ReplyFirst(StepOps(s, step), step.event)
  {
    if Finishes(step.event) {
      var t := Seen(s, step).state;
      FinishHasNoReply(t, step.at);
      if step.event.ClientsListed? {
        assert StepOps(s, step)[1..] == FinishOps(t, step.at);
      } else {
        SeenHasNoReply(s, step);
        NoRepliesConcat(SeenOps(s, step), FinishOps(t, step.at));
      }
    } else {
      FinishHasNoReply(s, step.at);
    }
  }

  lemma ChunkReplies(run: Run, i: nat)
    requires i < |run.steps|
    ensures ReplyFirst(Chunks(run)[i], run.steps[i].event)
  {
    RepliesLead(At(run, i), run.steps[i]);
  }

  lemma ReplyPlace(ops: seq<F.Op>, event: Event, x: nat)
    requires ReplyFirst(ops, event) && x < |ops| && ops[x].Reply?
    ensures x == 0 && event.ClientsListed?
  {
    if event.ClientsListed? {
      assert forall y | 0 < y < |ops| :: ops[y] == ops[1..][y - 1];
    }
  }

  /** The step an op of the trace belongs to. */
  lemma {:induction false} Locate(chunks: seq<seq<F.Op>>, p: nat, n: nat) returns (i: nat)
    requires n <= |chunks| && p < |Flat(chunks, n)|
    ensures i < n && Start(chunks, i) <= p < Start(chunks, i + 1)
    ensures Flat(chunks, n)[p] == chunks[i][p - Start(chunks, i)]
  {
    if p < |Flat(chunks, n - 1)| {
      i := Locate(chunks, p, n - 1);
    } else {
      i := n - 1;
    }
  }

  lemma ReplyStep(run: Run, p: nat) returns (i: nat)
    requires p < |TraceOf(run)| && TraceOf(run)[p].Reply?
    ensures i < |run.steps| && p == StartOf(run, i) && run.steps[i].event.ClientsListed?
  {
    var chunks := Chunks(run);
    i := Locate(chunks, p, |chunks|);
    ChunkReplies(run, i);
    ReplyPlace(chunks[i], run.steps[i].event, p - Start(chunks, i));
  }

  lemma ReplyAttributed(run: Run, p: nat, i: nat)
    requires p < |TraceOf(run)| && i < |run.steps| && p == StartOf(run, i) && run.steps[i].event.ClientsListed?
    ensures F.Attributable(TraceOf(run), p) <==> Uncrossed(run, i)
  {
    EveryRunTraced(run);
    ReplyInTrace(run, Chunks(run), i);
  }

  /** While no reply of the first `n` steps is crossed, every reply of their ops is attributable. */
  lemma UncrossedIsAttributable(run: Run, n: nat)
    requires n <= |run.steps| && forall i | 0 <= i < n :: Uncrossed(run, i)
    ensures StartOf(run, n) <= |TraceOf(run)| && F.AllAttributable(TraceOf(run), StartOf(run, n))
  {
    StartsAscend(Chunks(run), n, |run.steps|);
    forall p | 0 <= p < StartOf(run, n) ensures F.Attributable(TraceOf(run), p) {
      if TraceOf(run)[p].Reply? {
        var i := ReplyStep(run, p);
        if n <= i {
          StartsAscend(Chunks(run), n, i);
        }
        ReplyAttributed(run, p, i);
      }
    }
  }

  /**
    Freshness: while no client reply has found a query in flight behind an expired one, a client
    sample in a published topology answers a query asked after every roster invalidation so far.
   */
  lemma PublishedClientsAreFresh(run: Run, i: nat, k: nat) returns (n: nat, q: nat, r: nat)
    requires Timed(run) && F.AskedHost(TraceOf(run)) && i < |run.steps| && forall j | 0 <= j <= i :: Uncrossed(run, j)
    requires k < |EffectsAt(run, i)| && CarriesTopology(EffectsAt(run, i)[k])
    requires EffectsAt(run, i)[k].command.topology.value.clients.Some?
    ensures q < r < n <= |TraceOf(run)| && StartOf(run, i) <= n <= StartOf(run, i + 1)
    ensures F.AsksAt(TraceOf(run), q) && TraceOf(run)[r].Reply?
    ensures F.Outstanding(TraceOf(run), r) != [] && F.Outstanding(TraceOf(run), r)[0] == q
    ensures EffectsAt(run, i)[k].command.topology.value.clients == Some(Views(TraceOf(run)[r].clients))
    ensures forall m | 0 <= m < n && TraceOf(run)[m].Invalidate? :: m < q
  {
    EveryRunTraced(run);
    EffectIsLawful(At(run, i), run.steps[i], k);
    var clients := EffectsAt(run, i)[k].command.topology.value.clients;
    var f :| PublishesFrom(At(run, i), run.steps[i], f) && clients == PublishedSample(f);
    n := PublishingFocusInTrace(run, Chunks(run), i, f);
    TraceTimed(run, Chunks(run), |run.steps|);
    UncrossedIsAttributable(run, i + 1);
    q, r := F.PublishedSampleIsFresh(TraceOf(run), n);
  }

  /** A host that answers every query before its deadline never crosses a reply. */
  lemma PromptIsUncrossed(run: Run, i: nat)
    requires Timed(run) && F.AskedHost(TraceOf(run)) && F.PromptHost(TraceOf(run)) && i < |run.steps|
    ensures Uncrossed(run, i)
  {
    EveryRunTraced(run);
    TraceTimed(run, Chunks(run), |run.steps|);
    F.PromptIsAttributable(TraceOf(run), |TraceOf(run)|);
    if run.steps[i].event.ClientsListed? {
      ReplyInTrace(run, Chunks(run), i);
      ReplyAttributed(run, StartOf(run, i), i);
    }
  }

  /** The first crossed reply leaves the host owing one reply more than the engine expects. */
  lemma CrossedReplyMiscounts(run: Run, i: nat)
    requires F.AskedHost(TraceOf(run)) && i < |run.steps| && !Uncrossed(run, i) && forall j | 0 <= j < i :: Uncrossed(run, j)
    ensures StartOf(run, i) < |TraceOf(run)|
    ensures var p := StartOf(run, i) + 1;
            |F.Outstanding(TraceOf(run), p)| == F.Expected(F.At(TraceOf(run), p)) + 1
  {
    EveryRunTraced(run);
    ReplyInTrace(run, Chunks(run), i);
    ReplyAttributed(run, StartOf(run, i), i);
    UncrossedIsAttributable(run, i);
    F.AlwaysAccounted(TraceOf(run), StartOf(run, i));
    F.MiscountedReply(TraceOf(run), StartOf(run, i));
  }
}
