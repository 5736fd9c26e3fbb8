/** Once a client reply is crossed, the run can go on to publish a sample older than the roster. */
module EngineStale {
  import opened Prelude
  import opened PokePolicy
  import opened ClientFocus
  import opened Room
  import opened Handlers
  import opened EngineRuns
  import opened EngineEffects
  import opened EngineFocus
  import opened EngineWakes
  import opened EngineGrowth
  import opened EngineSession
  import opened FocusBooks
  import F = FocusRuns
  import RoomHash

  /** A host that knows no pids and takes any topology. */
  const OPEN := Host(map[], t => true)

  function PauseOf(s: State, at: nat): seq<F.Op> {
    if Alive in DuePokes(s.policy, at) then [F.Observe(at)] else []
  }

  /** Some pane of the roster is published. */
  predicate Housed(room: Roster) {
    exists key | key in room :: room[key].manifest.Some?
  }

  /** What a step keeps of the session and the roster. */
  predicate Keeps(s: State, t: State) {
    t.granted == s.granted && t.muted == s.muted && t.config == s.config && t.room == s.room
  }

  // ----- The events that follow -----

  const DUMP := DumpTopologyPipe

  lemma DumpUnmutes(s: State, at: nat)
    ensures var t := Handle(s, Step(at, DUMP, OPEN)).state;
            !t.muted && t.config == s.config && t.focus.sample == s.focus.sample
  {
    if s.granted {
      var revived := Revived(s, at);
      var o := Poked(Outcome(revived.(room := Probed(revived.room, map[])), []), Alive, at, OPEN);
      PokeKeeps(revived.(room := Probed(revived.room, map[])), at);
      QueryExtends(o, at);
      RearmExtends(QueryDriven(o, at), at);
      DriveKeepsSample(o.state.focus, at);
    }
  }

  lemma PokeKeeps(s: State, at: nat)
    ensures Poked(Outcome(s, []), Alive, at, OPEN).state == s
  {
  }

  lemma DriveKeepsSample(f: Focus, at: nat)
    ensures Driven(f, at, true).sample == f.sample
  {
  }

  lemma DumpBooks(s: State, b: Books, at: nat)
    requires Ahead(b, at) && ClockFits(at)
    ensures Ahead(BookAll(b, StepOps(s, Step(at, DUMP, OPEN))), at)
  {
    AheadOps(b, DumpOps(s, at), at);
  }

  const LOST := TabUpdate(None, map[], map[], {})

  lemma LostTab(s: State, at: nat)
    requires !s.muted
    ensures var t := Handle(s, Step(at, LOST, OPEN)).state;
            t.granted && !t.muted && t.config == s.config && t.focus.sample == s.focus.sample
  {
    var step := Step(at, LOST, OPEN);
    FinishingHandler(s, step);
    FinishExtends(Seen(s, step), at, OPEN);
    SeenMute(s, step);
    TabsFocus(s, None, map[], map[], {}, at, OPEN);
    TabsKeep(s, at);
  }

  lemma TabsKeep(s: State, at: nat)
    ensures var t := TabsSeen(s, None, map[], map[], {}, at, OPEN).state; t.granted && t.config == s.config
  {
    GrantKeeps(s, at);
    StampKeeps(MarkedGranted(Outcome(s, []), at, OPEN).state, at);
  }

  lemma GrantKeeps(s: State, at: nat)
    ensures var g := MarkedGranted(Outcome(s, []), at, OPEN).state; g.granted && g.config == s.config
  {
  }

  lemma StampKeeps(s: State, at: nat)
    ensures var t := TabsStamped(s, None, map[], map[], {}, at); t.granted == s.granted && t.config == s.config
  {
  }

  lemma LostTabOps(s: State, at: nat) returns (pause: seq<F.Op>)
    requires !s.muted
    ensures Pause(pause, at)
    ensures StepOps(s, Step(at, LOST, OPEN)) == GrantOps(s, at) + ([F.TabUpdate(at, None)] + pause + [F.Drive(at, true)])
  {
    var step := Step(at, LOST, OPEN);
    var t := Seen(s, step).state;
    SeenMute(s, step);
    pause := PauseOf(t, at);
    assert SeenOps(s, step) == GrantOps(s, at) + [F.TabUpdate(at, None)];
  }

  function NewPane(id: nat): PaneFields {
    PaneFields(id, false, false, false, false, false, false, 0, false, None, None, None, None, "", None, None, None, None)
  }

  function Arrival(id: nat): Event {
    PaneManifest([NewPane(id)], [TabReport(0, [NewPane(id)])])
  }

  lemma ArrivedRoom(room: Roster, id: nat)
    ensures var after, key := ManifestApplied(room, [TabReport(0, [NewPane(id)])], map[]), PaneKey(false, id);
            key in after && after[key].manifest.Some?
  {
    var report := TabReport(0, [NewPane(id)]);
    assert [report][..0] == [] && [NewPane(id)][..0] == [];
  }

  lemma ArrivalMoves(s: State, id: nat)
    requires PaneKey(false, id) !in s.room && s.lastHash != Some([NewPane(id)]) && s.focus.sample.Some?
    ensures MovesRoster(s, Arrival(id).digest, Arrival(id).reports, OPEN)
  {
    ArrivedRoom(s.room, id);
    var key := PaneKey(false, id);
    assert key in TabRoster(ManifestApplied(s.room, Arrival(id).reports, map[])) && key !in TabRoster(s.room);
  }

  lemma ArrivalKeeps(s: State, at: nat, id: nat)
    requires s.granted && PaneKey(false, id) !in s.room && s.lastHash != Some([NewPane(id)])
    ensures var t := ManifestSeen(s, Arrival(id).digest, Arrival(id).reports, at, OPEN).state;
            && t.granted && t.config == s.config && t.muted == s.muted
            && t.room == ManifestApplied(s.room, Arrival(id).reports, map[])
  {
  }

  lemma Arrived(s: State, at: nat, id: nat)
    requires Speaks(s) && PaneKey(false, id) !in s.room && s.lastHash != Some([NewPane(id)])
    ensures var t := Handle(s, Step(at, Arrival(id), OPEN)).state; Speaks(t) && Housed(t.room)
  {
    var step := Step(at, Arrival(id), OPEN);
    FinishingHandler(s, step);
    FinishExtends(Seen(s, step), at, OPEN);
    ArrivalKeeps(s, at, id);
    ArrivedRoom(s.room, id);
  }

  lemma ArrivalOps(s: State, at: nat, id: nat) returns (pause: seq<F.Op>)
    requires Speaks(s) && PaneKey(false, id) !in s.room && s.lastHash != Some([NewPane(id)]) && s.focus.sample.Some?
    ensures Pause(pause, at)
    ensures StepOps(s, Step(at, Arrival(id), OPEN)) == [F.Observe(at)] + ([F.Invalidate(at)] + pause + [F.Drive(at, true)])
  {
    var step := Step(at, Arrival(id), OPEN);
    ArrivalMoves(s, id);
    SeenMute(s, step);
    pause := PauseOf(Seen(s, step).state, at);
    assert SeenOps(s, step) == [] + ([F.Observe(at)] + [F.Invalidate(at)]);
  }

  lemma Answered(s: State, at: nat, clients: seq<ClientView>)
    ensures Keeps(s, Handle(s, Step(at, ClientsListed(clients), OPEN)).state)
  {
    var step := Step(at, ClientsListed(clients), OPEN);
    FinishingHandler(s, step);
    FinishExtends(Seen(s, step), at, OPEN);
    ClientsKeep(s, clients, at);
  }

  lemma ClientsKeep(s: State, clients: seq<ClientView>, at: nat)
    ensures Keeps(s, ClientsSeen(s, clients, at, OPEN).state)
  {
  }

  lemma AnswerOps(s: State, at: nat, clients: seq<ClientView>) returns (pause: seq<F.Op>)
    ensures Pause(pause, at)
    ensures StepOps(s, Step(at, ClientsListed(clients), OPEN)) == [F.Reply(at, clients)] + pause + [F.Drive(at, !s.muted)]
  {
    var step := Step(at, ClientsListed(clients), OPEN);
    SeenMute(s, step);
    pause := PauseOf(Seen(s, step).state, at);
  }

  lemma HousedIsPublished(room: Roster, viewedTabs: set<nat>, pids: map<nat, nat>)
    requires Housed(room)
    ensures ViewedPanes(Probed(room, pids), viewedTabs) != map[]
  {
    var key :| key in room && room[key].manifest.Some?;
    assert key in ViewedPanes(Probed(room, pids), viewedTabs);
  }

  /** A dump publishes the sample as it stands. */
  lemma DumpPublishes(s: State, at: nat)
    requires Speaks(s) && Housed(s.room)
    ensures var effects := Handle(s, Step(at, DUMP, OPEN)).effects;
            && |effects| > 0 && CarriesTopology(effects[0])
            && effects[0].command.topology.value.clients == PublishedSample(s.focus)
  {
    HousedIsPublished(s.room, s.viewedTabs, map[]);
    var probed := s.(room := Probed(s.room, map[]));
    var o := Poked(Outcome(probed, []), Alive, at, OPEN);
    PokePublishes(probed, at);
    QueryExtends(o, at);
    RearmExtends(QueryDriven(o, at), at);
    assert Handle(s, Step(at, DUMP, OPEN)) == Rearmed(QueryDriven(o, at), at);
  }

  lemma PokePublishes(s: State, at: nat)
    requires Speaks(s) && ViewedPanes(s.room, s.viewedTabs) != map[]
    ensures var effects := Poked(Outcome(s, []), Alive, at, OPEN).effects;
            && |effects| == 1 && CarriesTopology(effects[0])
            && effects[0].command.topology.value.clients == PublishedSample(s.focus)
  {
  }

  // ----- The continuation -----

  lemma {:induction false} FreshId(ids: set<nat>) returns (id: nat)
    ensures forall x | x in ids :: x < id
  {
    if ids == {} {
      id := 0;
    } else {
      var x :| x in ids;
      var bound := FreshId(ids - {x});
      id := Max(bound, x + 1);
      forall y | y in ids ensures y < id {
        assert y == x || y in ids - {x};
      }
    }
  }

  lemma NewId(s: State) returns (id: nat)
    ensures PaneKey(false, id) !in s.room && s.lastHash != Some([NewPane(id)])
  {
    var keys := set key | key in s.room :: key.id;
    var last := if s.lastHash.Some? && s.lastHash.value != [] then {s.lastHash.value[0].id} else {};
    id := FreshId(keys + last);
    assert forall key | key in s.room :: key.id in keys + last;
  }

  /** The engine is unmuted, in reach of the host, and the host owes more than it expects. */
  lemma Recover(run: Run, s: State, b: Books, at: nat) returns (longer: Run, t: State, c: Books)
    requires Stands(run, s, b, at) && Ahead(b, at) && s.config.sessionName.Some? && s.focus.sample.Some?
    ensures Begins(run, longer) && Stands(longer, t, c, at) && Ahead(c, at)
    ensures !t.muted && t.config.sessionName.Some? && t.focus.sample.Some?
  {
    StandsFocus(run, s, b, at);
    var step := Step(at, DUMP, OPEN);
    longer := StandsNext(run, s, b, at, step);
    t, c := Handle(s, step).state, BookAll(b, StepOps(s, step));
    DumpUnmutes(s, at);
    DumpBooks(s, b, at);
  }

  lemma LoseTab(run: Run, s: State, b: Books, at: nat) returns (longer: Run, t: State, c: Books)
    requires Stands(run, s, b, at) && Ahead(b, at) && !s.muted && s.config.sessionName.Some? && s.focus.sample.Some?
    ensures Begins(run, longer) && Stands(longer, t, c, at) && Ahead(c, at) && Calm(c.focus, at)
    ensures Speaks(t) && t.focus.sample.Some?
  {
    StandsFocus(run, s, b, at);
    var step := Step(at, LOST, OPEN);
    longer := StandsNext(run, s, b, at, step);
    t, c := Handle(s, step).state, BookAll(b, StepOps(s, step));
    LostTab(s, at);
    LostTabBooks(s, b, at);
  }

  lemma LostTabBooks(s: State, b: Books, at: nat)
    requires Ahead(b, at) && ClockFits(at) && !s.muted
    ensures var c := BookAll(b, StepOps(s, Step(at, LOST, OPEN))); Ahead(c, at) && Calm(c.focus, at)
  {
    var pause := LostTabOps(s, at);
    var grants := GrantOps(s, at);
    BookConcat(b, grants, [F.TabUpdate(at, None)] + pause + [F.Drive(at, true)]);
    AheadOps(b, grants, at);
    LossBooks(BookAll(b, grants), pause, at);
  }

  lemma LossBooks(b: Books, pause: seq<F.Op>, at: nat)
    requires Ahead(b, at) && ClockFits(at) && Pause(pause, at)
    ensures var c := BookAll(b, [F.TabUpdate(at, None)] + pause + [F.Drive(at, true)]); Ahead(c, at) && Calm(c.focus, at)
  {
    AheadOps(b, [F.TabUpdate(at, None)] + pause + [F.Drive(at, true)], at);
    BookSwept(b, F.TabUpdate(at, None), pause, at);
    LostTabCalms(b.focus, pause, at);
  }

  lemma MovePanes(run: Run, s: State, b: Books, at: nat) returns (longer: Run, t: State, c: Books)
    requires Stands(run, s, b, at) && Ahead(b, at) && Calm(b.focus, at) && Speaks(s) && s.focus.sample.Some?
    ensures Begins(run, longer) && Stands(longer, t, c, at) && Marked(c, at) && Speaks(t) && Housed(t.room)
  {
    StandsFocus(run, s, b, at);
    var id := NewId(s);
    var step := Step(at, Arrival(id), OPEN);
    longer := StandsNext(run, s, b, at, step);
    t, c := Handle(s, step).state, BookAll(b, StepOps(s, step));
    Arrived(s, at, id);
    var pause := ArrivalOps(s, at, id);
    MoveMarks(b, pause, at);
  }

  /** One reply more, with no clients in it. */
  lemma Reply(run: Run, s: State, b: Books, at: nat) returns (longer: Run, t: State, c: Books, pause: seq<F.Op>)
    requires Stands(run, s, b, at) && Speaks(s) && Housed(s.room) && b.asked != []
    ensures Begins(run, longer) && Stands(longer, t, c, at) && Speaks(t) && Housed(t.room)
    ensures Pause(pause, at) && c == BookAll(b, [F.Reply(at, [])] + pause + [F.Drive(at, true)])
  {
    StandsFocus(run, s, b, at);
    var step := Step(at, ClientsListed([]), OPEN);
    longer := StandsNext(run, s, b, at, step);
    t, c := Handle(s, step).state, BookAll(b, StepOps(s, step));
    Answered(s, at, []);
    pause := AnswerOps(s, at, []);
  }

  /** The replies the engine writes off arrive; the next is credited to a newer query. */
  lemma {:induction false} Drain(run: Run, s: State, b: Books, at: nat, moved: nat) returns (longer: Run, t: State, c: Books)
    requires Stands(run, s, b, at) && Speaks(s) && Housed(s.room) && Poised(b, at, moved)
    ensures Begins(run, longer) && Stands(longer, t, c, at) && Speaks(t) && Housed(t.room) && Fooled(c)
    decreases b.focus.staleReplies
  {
    StandsFocus(run, s, b, at);
    var next, u, d, pause := Reply(run, s, b, at);
    if b.focus.staleReplies == 0 {
      LastAnswerFools(b, [], pause, at, moved);
      longer, t, c := next, u, d;
    } else {
      PoisedAnswer(b, [], pause, at, moved);
      longer, t, c := Drain(next, u, d, at, moved);
    }
  }

  /** Whatever state the engine is in, a pane can arrive in a calm engine. */
  lemma Move(run: Run, s: State, b: Books, at: nat) returns (longer: Run, t: State, c: Books)
    requires Stands(run, s, b, at) && Ahead(b, at) && s.config.sessionName.Some? && s.focus.sample.Some?
    ensures Begins(run, longer) && Stands(longer, t, c, at) && Marked(c, at) && Speaks(t) && Housed(t.room)
  {
    longer, t, c := Recover(run, s, b, at);
    longer, t, c := LoseTab(longer, t, c, at);
    longer, t, c := MovePanes(longer, t, c, at);
  }

  lemma Fool(run: Run, s: State, b: Books, at: nat) returns (longer: Run, t: State, c: Books)
    requires Stands(run, s, b, at) && Ahead(b, at) && s.config.sessionName.Some? && s.focus.sample.Some?
    ensures Begins(run, longer) && Stands(longer, t, c, at) && Speaks(t) && Housed(t.room) && Fooled(c)
  {
    StandsFocus(run, s, b, at);
    var pause;
    longer, t, c := Move(run, s, b, at);
    var marked := c;
    longer, t, c, pause := Reply(longer, t, c, at);
    MarkedAnswer(marked, [], pause, at);
    longer, t, c := Drain(longer, t, c, at, marked.moved.value);
  }

  // ----- From the crossed reply -----

  lemma ReplyChunk(s: State, step: Step) returns (rest: seq<F.Op>)
    requires step.event.ClientsListed?
    ensures StepOps(s, step) == [F.Reply(step.at, step.event.clients)] + rest
    ensures forall i | 0 <= i < |rest| :: rest[i].at == step.at && !rest[i].Reply?
  {
    rest := FinishOps(Seen(s, step).state, step.at);
  }

  lemma ReplyEnds(f: Focus, clients: seq<ClientView>, now: nat)
    ensures var g := Replied(f, clients, now).0; g.inFlight.None? && g.sample.Some?
  {
  }

  /** A miscounted reply at the end of the ops leaves the host ahead of the machine. */
  lemma MiscountIsAhead(ops: seq<F.Op>, p: nat, at: nat)
    requires p + 1 == |ops| && ops[p].Reply? && |F.Outstanding(ops, p + 1)| == F.Expected(F.At(ops, p + 1)) + 1
    ensures Ahead(BooksOf(ops), at) && BooksOf(ops).focus.sample.Some?
  {
    ReplyEnds(F.At(ops, p), ops[p].clients, ops[p].at);
  }

  lemma CrossedTrace(run: Run, i: nat) returns (rest: seq<F.Op>)
    requires i + 1 == |run.steps| && run.steps[i].event.ClientsListed?
    ensures var p := StartOf(run, i);
            && p < |TraceOf(run)| && TraceOf(run)[p].Reply? && TraceOf(run) == TraceOf(run)[..p + 1] + rest
            && forall j | 0 <= j < |rest| :: rest[j].at == run.steps[i].at && !rest[j].Reply?
  {
    var chunk := StepOps(At(run, i), run.steps[i]);
    rest := ReplyChunk(At(run, i), run.steps[i]);
    LastFlat(Chunks(run), i);
    assert TraceOf(run) == Flat(Chunks(run), i) + chunk;
  }

  lemma CrossedIsAhead(run: Run, i: nat)
    requires Hosted(run) && F.AskedHost(TraceOf(run)) && i + 1 == |run.steps|
    requires !Uncrossed(run, i) && forall j | 0 <= j < i :: Uncrossed(run, j)
    ensures var b := BooksOf(TraceOf(run)); Ahead(b, run.steps[i].at) && b.focus.sample.Some?
  {
    var rest := CrossedTrace(run, i);
    CrossedReplyMiscounts(run, i);
    var p := StartOf(run, i);
    AheadAfter(TraceOf(run), p, rest, run.steps[i].at);
  }

  lemma AheadAfter(ops: seq<F.Op>, p: nat, rest: seq<F.Op>, at: nat)
    requires p < |ops| && ops[p].Reply? && ops == ops[..p + 1] + rest && ClockFits(at)
    requires forall j | 0 <= j < |rest| :: rest[j].at == at && !rest[j].Reply?
    requires |F.Outstanding(ops, p + 1)| == F.Expected(F.At(ops, p + 1)) + 1
    ensures Ahead(BooksOf(ops), at) && BooksOf(ops).focus.sample.Some?
  {
    var start := ops[..p + 1];
    SamePrefix(start, ops, p + 1);
    MiscountIsAhead(start, p, at);
    BooksExtend(start, rest);
    AheadOps(BooksOf(start), rest, at);
  }

  /** Effect `k` of step `i` carries the clients of reply `r`, which answers query `q`, older than invalidation `m`. */
  predicate PublishesStale(run: Run, i: nat, k: nat, q: nat, r: nat, m: nat) {
    && i < |run.steps| && k < |EffectsAt(run, i)| && CarriesTopology(EffectsAt(run, i)[k])
    && StaleIn(TraceOf(run), StartOf(run, i), EffectsAt(run, i)[k].command.topology.value.clients, q, r, m)
  }

  predicate StaleIn(ops: seq<F.Op>, n: nat, clients: Option<set<ClientView>>, q: nat, r: nat, m: nat) {
    && n <= |ops| && q < r < n && q < m < n && F.AsksAt(ops, q) && ops[r].Reply? && ops[m].Invalidate?
    && F.Outstanding(ops, r) != [] && F.Outstanding(ops, r)[0] == q && clients == Some(Views(ops[r].clients))
  }

  lemma FooledIsStale(ops: seq<F.Op>) returns (q: nat, r: nat, m: nat)
    requires Fooled(BooksOf(ops))
    ensures StaleIn(ops, |ops|, PublishedSample(F.At(ops, |ops|)), q, r, m)
  {
    F.SourceOfReply(ops, |ops|);
    F.SampleIsLastReply(ops, |ops|);
    q, r, m := F.SampleSource(ops, |ops|).value, F.LastReply(ops, |ops|).value, F.LastInvalidation(ops, |ops|).value;
  }

  lemma StaleLater(ops: seq<F.Op>, longer: seq<F.Op>, clients: Option<set<ClientView>>, q: nat, r: nat, m: nat)
    requires ops <= longer && StaleIn(ops, |ops|, clients, q, r, m)
    ensures StaleIn(longer, |ops|, clients, q, r, m)
  {
    SamePrefix(ops, longer, q);
    SamePrefix(ops, longer, r);
  }

  /** The fooled engine publishes at the next dump. */
  lemma Publish(run: Run, s: State, b: Books, at: nat) returns (longer: Run, q: nat, r: nat, m: nat)
    requires Stands(run, s, b, at) && Speaks(s) && Housed(s.room) && Fooled(b)
    ensures longer == Then(run, Step(at, DUMP, OPEN)) && Hosted(longer)
    ensures AllSolicited(TraceOf(longer)) && |TraceOf(longer)| <= b.length + 2
    ensures PublishesStale(longer, |longer.steps| - 1, 0, q, r, m)
  {
    StandsFocus(run, s, b, at);
    var step := Step(at, DUMP, OPEN);
    longer := StandsNext(run, s, b, at, step);
    DumpPublishes(s, at);
    q, r, m := FooledIsStale(TraceOf(run));
    SameTrace(run, longer);
    StaleLater(TraceOf(run), TraceOf(longer), PublishedSample(s.focus), q, r, m);
    SameStart(run, longer, |run.steps|);
    ThenTrace(run, step);
  }

  /**
    The guard of freshness is exact for engines in a session: a run whose first crossed reply is
    step `i` can be continued from there, by a host that fires no timer early and answers only what
    it was asked, to publish a client sample older than the latest roster invalidation.
   */
  lemma CrossedReplyPublishesStale(run: Run, i: nat) returns (longer: Run, q: nat, r: nat, m: nat)
    requires Hosted(run) && F.AskedHost(TraceOf(run)) && run.config.sessionName.Some? && i < |run.steps|
    requires !Uncrossed(run, i) && forall j | 0 <= j < i :: Uncrossed(run, j)
    ensures Begins(Upto(run, i + 1), longer) && Hosted(longer) && AllSolicited(TraceOf(longer))
    ensures PublishesStale(longer, |longer.steps| - 1, 0, q, r, m)
  {
    CrossedUpto(run, i);
    longer, q, r, m := CrossedEnd(Upto(run, i + 1), i);
  }

  lemma CrossedStands(run: Run, i: nat) returns (s: State, b: Books)
    requires Hosted(run) && F.AskedHost(TraceOf(run)) && run.config.sessionName.Some? && i + 1 == |run.steps|
    requires !Uncrossed(run, i) && forall j | 0 <= j < i :: Uncrossed(run, j)
    ensures Stands(run, s, b, run.steps[i].at) && Ahead(b, run.steps[i].at)
    ensures s.config.sessionName.Some? && s.focus.sample.Some?
  {
    CrossedIsAhead(run, i);
    s, b := Ends(run, run.steps[i].at);
  }

  lemma Ends(run: Run, at: nat) returns (s: State, b: Books)
    requires Hosted(run) && run.steps != [] && run.steps[|run.steps| - 1].at == at && AllSolicited(TraceOf(run))
    ensures Stands(run, s, b, at) && s.config.sessionName == run.config.sessionName && s.focus == b.focus
    ensures b == BooksOf(TraceOf(run))
  {
    s, b := At(run, |run.steps|), BooksOf(TraceOf(run));
    SessionKept(run, |run.steps|);
    StandsFocus(run, s, b, at);
  }

  /** The continuation of a run that ends in its first crossed reply. */
  lemma CrossedEnd(run: Run, i: nat) returns (longer: Run, q: nat, r: nat, m: nat)
    requires Hosted(run) && F.AskedHost(TraceOf(run)) && run.config.sessionName.Some? && i + 1 == |run.steps|
    requires !Uncrossed(run, i) && forall j | 0 <= j < i :: Uncrossed(run, j)
    ensures Begins(run, longer) && Hosted(longer) && AllSolicited(TraceOf(longer))
    ensures PublishesStale(longer, |longer.steps| - 1, 0, q, r, m)
  {
    var s, b := CrossedStands(run, i);
    var at := run.steps[i].at;
    longer, s, b := Fool(run, s, b, at);
    longer, q, r, m := Publish(longer, s, b, at);
  }

  lemma CrossedUpto(run: Run, i: nat)
    requires Hosted(run) && F.AskedHost(TraceOf(run)) && i < |run.steps|
    requires !Uncrossed(run, i) && forall j | 0 <= j < i :: Uncrossed(run, j)
    ensures var start := Upto(run, i + 1);
            && Hosted(start) && F.AskedHost(TraceOf(start)) && !Uncrossed(start, i)
            && forall j | 0 <= j < i :: Uncrossed(start, j)
  {
    var start := Upto(run, i + 1);
    UptoHosted(run, i + 1);
    UptoAsked(run, i + 1);
    forall j | 0 <= j <= i ensures Uncrossed(start, j) <==> Uncrossed(run, j) {
      SameCross(start, run, j);
    }
  }

  lemma SameCross(run: Run, longer: Run, j: nat)
    requires Begins(run, longer) && j < |run.steps|
    ensures Uncrossed(run, j) <==> Uncrossed(longer, j)
  {
    SameStart(run, longer, j);
    assert run.steps[j] == longer.steps[j];
  }
}
