/** A run in which late client replies publish a sample older than the roster. */
module EngineLate {
  import opened Prelude
  import opened PokePolicy
  import opened ClientFocus
  import opened Room
  import opened Handlers
  import opened EngineRuns
  import opened EngineEffects
  import opened EngineTimers
  import opened EngineFocus
  import opened EngineWakes
  import opened EngineGrowth
  import opened EngineStale
  import opened FocusBooks
  import F = FocusRuns
  import RoomHash

  const SESSION := Config(Some("s"), None, None, None, None, None, None, None)
  const VIEW := ClientView(1, Terminal(1))
  const PANES := [NewPane(1), NewPane(2)]

  const LOAD := Step(0, Load, OPEN)
  const GRANT := Step(0, PermissionGranted, OPEN)
  const LIST := Step(0, PaneManifest(PANES, [TabReport(0, PANES)]), OPEN)
  const EXPIRY := Step(60_000, Timer(60_000), OPEN)
  const CLOSE := Step(60_001, PaneClosed(Terminal(2)), OPEN)
  const FIRST_ANSWER := Step(60_002, ClientsListed([]), OPEN)
  const SECOND_ANSWER := Step(60_003, ClientsListed([VIEW]), OPEN)
  const LAST_DUMP := Step(60_003, DUMP, OPEN)

  const LATE := Run(0, SESSION, [LOAD, GRANT, LIST, EXPIRY, CLOSE, FIRST_ANSWER, SECOND_ANSWER, LAST_DUMP])

  // ----- The part of the state the ops depend on -----

  datatype Scene = Scene(granted: bool, muted: bool, keepalive: nat, room: Roster, applied: bool, session: Option<string>)

  function SceneOf(s: State): Scene {
    Scene(s.granted, s.muted, s.policy.nextKeepalive, s.room, s.manifestApplied, s.config.sessionName)
  }

  function NextKeepalive(keepalive: nat, at: nat): nat {
    if at >= keepalive then at + KEEPALIVE_MS else keepalive
  }

  lemma FinishedScene(o: Outcome, at: nat, host: Host)
    ensures SceneOf(Finished(o, at, host).state) ==
            SceneOf(o.state).(keepalive := NextKeepalive(o.state.policy.nextKeepalive, at))
  {
    FinishExtends(o, at, host);
  }

  lemma FinishScene(s: State, step: Step)
    requires Finishes(step.event)
    ensures SceneOf(Handle(s, step).state) ==
            SceneOf(Seen(s, step).state).(keepalive := NextKeepalive(s.policy.nextKeepalive, step.at))
    ensures StepOps(s, step) ==
            SeenOps(s, step) + (if step.at >= s.policy.nextKeepalive then [F.Observe(step.at)] else [])
            + [F.Drive(step.at, !Seen(s, step).state.muted)]
  {
    assert Seen(s, step).state.policy.nextKeepalive == s.policy.nextKeepalive by {
      SeenIsCalm(s, step);
    }
    FinishedScene(Seen(s, step), step.at, step.host);
    FinishingHandler(s, step);
  }

  lemma GrantScene(s: State)
    requires !s.granted
    ensures SceneOf(GrantSeen(s, 0, OPEN).state).(keepalive := 0) == SceneOf(s).(granted := true, keepalive := 0)
  {
  }

  lemma ManifestScene(s: State)
    requires s.granted && !s.manifestApplied && s.focus.sample.None?
    ensures SceneOf(ManifestSeen(s, PANES, [TabReport(0, PANES)], 0, OPEN).state).(keepalive := 0) ==
            SceneOf(s).(room := ManifestApplied(s.room, [TabReport(0, PANES)], map[]), applied := true, keepalive := 0)
  {
  }

  lemma CloseScene(s: State, pane: PaneId, at: nat)
    requires s.granted && KeyOf(pane) in s.room
    ensures SceneOf(CloseSeen(s, pane, at, OPEN).state).(keepalive := 0) ==
            SceneOf(s).(room := Closed(s.room, pane), keepalive := 0)
  {
  }

  lemma TimerScene(s: State, at: nat)
    ensures SceneOf(TimerSeen(s, at).state) == SceneOf(s)
  {
  }

  lemma ReplyScene(s: State, clients: seq<ClientView>, at: nat)
    ensures SceneOf(ClientsSeen(s, clients, at, OPEN).state).(keepalive := 0) == SceneOf(s).(keepalive := 0)
  {
    ClientsKeep(s, clients, at);
  }

  // ----- The run, step by step -----

  const FULL := ManifestApplied(map[], [TabReport(0, PANES)], map[])
  const LEFT := Closed(FULL, Terminal(2))

  lemma FullRoom()
    ensures KeyOf(Terminal(2)) in FULL && Housed(LEFT)
  {
    assert [TabReport(0, PANES)][..0] == [] && PANES[..1] == [NewPane(1)] && [NewPane(1)][..0] == [];
    var retained := Retained(map[], 0, Keys(PANES));
    assert WithTabs(map[], [TabReport(0, PANES)]) == WithPane(WithPane(retained, NewPane(1)), NewPane(2));
    var key := PaneKey(false, 1);
    assert key in LEFT && LEFT[key].manifest.Some?;
  }

  const ASKED := IDLE.(inFlight := Some(Query(General, 0, false, 60_000)))
  const ASKED_AGAIN := IDLE.(staleReplies := 1, inFlight := Some(Query(General, 60_000, false, 120_000)))
  const MOVED := IDLE.(staleReplies := 1, inFlight := Some(Query(General, 60_000, true, 120_000)),
                       queued := Some(General), rosterChangedAt := Some(60_001))
  const CROSSED := IDLE.(inFlight := Some(Query(General, 60_002, false, 120_002)),
                         rosterChangedAt := Some(60_001), sample := Some({}))

  /** Op 2 asks, op 6 asks again, op 7 invalidates, op 9 is crossed, op 10 asks anew, op 11 answers op 6. */
  const LOADED := Books(IDLE, [], None, None, 1)
  const GRANTED := Books(ASKED, [2], None, None, 3)
  const LISTED := Books(ASKED.(queued := Some(General)), [2], None, None, 5)
  const EXPIRED := Books(ASKED_AGAIN, [2, 6], None, None, 7)
  const CLOSED := Books(MOVED, [2, 6], Some(7), None, 9)
  const DROPPED := Books(CROSSED, [6, 10], Some(7), Some(2), 11)
  const FOOLED := Books(IDLE.(sample := Some({VIEW})), [10], Some(7), Some(6), 13)

  lemma BooksLoaded()
    ensures BookAll(Books(IDLE, [], None, None, 0), [F.Drive(0, true)]) == LOADED
  {
    BookOne(Books(IDLE, [], None, None, 0), F.Drive(0, true));
  }

  lemma BooksGranted()
    ensures BookAll(LOADED, [F.Observe(0)] + [] + [F.Drive(0, true)]) == GRANTED
  {
    BookSwept(LOADED, F.Observe(0), [], 0);
  }

  lemma BooksListed()
    ensures BookAll(GRANTED, [F.Observe(0)] + [] + [F.Drive(0, true)]) == LISTED
  {
    BookSwept(GRANTED, F.Observe(0), [], 0);
  }

  lemma BooksExpired()
    ensures BookAll(LISTED, [F.Observe(60_000)] + [] + [F.Drive(60_000, true)]) == EXPIRED
  {
    BookSwept(LISTED, F.Observe(60_000), [], 60_000);
  }

  lemma BooksClosed()
    ensures BookAll(EXPIRED, [F.Invalidate(60_001)] + [] + [F.Drive(60_001, true)]) == CLOSED
  {
    BookSwept(EXPIRED, F.Invalidate(60_001), [], 60_001);
  }

  lemma BooksDropped()
    ensures BookAll(CLOSED, [F.Reply(60_002, [])] + [] + [F.Drive(60_002, true)]) == DROPPED
  {
    BookSwept(CLOSED, F.Reply(60_002, []), [], 60_002);
    assert Views([]) == {};
  }

  lemma BooksFooled()
    ensures BookAll(DROPPED, [F.Reply(60_003, [VIEW])] + [] + [F.Drive(60_003, true)]) == FOOLED
  {
    BookSwept(DROPPED, F.Reply(60_003, [VIEW]), [], 60_003);
    assert Views([VIEW]) == {VIEW};
  }

  /** The run so far leads to this scene and these books. */
  predicate Arrives(run: Run, s: State, b: Books, at: nat, scene: Scene) {
    Stands(run, s, b, at) && s.focus == b.focus && SceneOf(s) == scene
  }

  /** A step that is known to lead to a scene and to books, taken. */
  lemma Continue(run: Run, s: State, b: Books, at: nat, step: Step, c: Books, scene: Scene) returns (longer: Run, t: State)
    requires Stands(run, s, b, at) && at <= step.at && ClockFits(step.at) && Fires(Timers(run, |run.steps|), step)
    requires step.event.ClientsListed? ==> b.asked != []
    requires SceneOf(Handle(s, step).state) == scene && BookAll(b, StepOps(s, step)) == c
    ensures longer == Then(run, step) && Arrives(longer, t, c, step.at, scene)
  {
    longer := StandsNext(run, s, b, at, step);
    t := Handle(s, step).state;
    StandsFocus(longer, t, c, step.at);
  }

  const DARK := Scene(false, false, 60_000, map[], false, Some("s"))
  const LIT := DARK.(granted := true)

  lemma Loads() returns (run: Run, s: State)
    ensures run == Run(0, SESSION, [LOAD]) && Arrives(run, s, LOADED, 0, DARK) && 60_000 in Timers(run, 1)
  {
    run, s := Run(0, SESSION, [LOAD]), Handle(Initial(0, SESSION), LOAD).state;
    LoadStep();
    LoadTrace(run);
    LoadHosted(run);
  }

  lemma LoadStep()
    ensures var o := Handle(Initial(0, SESSION), LOAD);
            && o.effects == [SetTimeout(60_000)] && SceneOf(o.state) == DARK && o.state.focus == IDLE
            && StepOps(Initial(0, SESSION), LOAD) == [F.Drive(0, true)]
  {
  }

  lemma LoadHosted(run: Run)
    requires run == Run(0, SESSION, [LOAD])
    ensures Hosted(run) && At(run, 1) == Handle(Initial(0, SESSION), LOAD).state && 60_000 in Timers(run, 1)
  {
    LoadStep();
    LoadArms();
    assert At(run, 0) == Initial(0, SESSION);
  }

  lemma LoadArms()
    ensures Arms([SetTimeout(60_000)], 0) == multiset{60_000}
  {
    assert [SetTimeout(60_000)][..0] == [];
  }

  lemma LoadTrace(run: Run)
    requires run == Run(0, SESSION, [LOAD])
    ensures TraceOf(run) == [F.Drive(0, true)] && BooksOf(TraceOf(run)) == LOADED && AllSolicited(TraceOf(run))
  {
    LoadStep();
    assert At(run, 0) == Initial(0, SESSION);
    LastFlat(Chunks(run), 0);
    BooksExtend([], [F.Drive(0, true)]);
    BooksLoaded();
  }

  lemma TimerWaits(run: Run, step: Step, t: nat)
    requires t in Timers(run, |run.steps|) && !step.event.Timer?
    ensures t in Timers(Then(run, step), |run.steps| + 1)
  {
    SameStart(run, Then(run, step), |run.steps|);
    assert Then(run, step).steps[|run.steps|] == step;
  }

  lemma Grants(run: Run, s: State) returns (longer: Run, t: State)
    requires Arrives(run, s, LOADED, 0, DARK)
    ensures longer == Then(run, GRANT) && Arrives(longer, t, GRANTED, 0, LIT)
  {
    FinishScene(s, GRANT);
    GrantScene(s);
    BooksGranted();
    longer, t := Continue(run, s, LOADED, 0, GRANT, GRANTED, LIT);
  }

  lemma Lists(run: Run, s: State) returns (longer: Run, t: State)
    requires Arrives(run, s, GRANTED, 0, LIT)
    ensures longer == Then(run, LIST) && Arrives(longer, t, LISTED, 0, LIT.(room := FULL, applied := true))
  {
    FinishScene(s, LIST);
    ManifestScene(s);
    BooksListed();
    assert SeenOps(s, LIST) == [F.Observe(0)];
    longer, t := Continue(run, s, GRANTED, 0, LIST, LISTED, LIT.(room := FULL, applied := true));
  }

  lemma ExpirySeen(s: State)
    requires SceneOf(s) == LIT.(room := FULL, applied := true)
    ensures SceneOf(Handle(s, EXPIRY).state) == LIT.(room := FULL, applied := true, keepalive := 120_000)
    ensures StepOps(s, EXPIRY) == [F.Observe(60_000)] + [] + [F.Drive(60_000, true)]
  {
    FinishScene(s, EXPIRY);
    TimerScene(s, 60_000);
    assert SeenOps(s, EXPIRY) == [];
  }

  lemma Expires(run: Run, s: State) returns (longer: Run, t: State)
    requires Arrives(run, s, LISTED, 0, LIT.(room := FULL, applied := true)) && 60_000 in Timers(run, |run.steps|)
    ensures longer == Then(run, EXPIRY)
    ensures Arrives(longer, t, EXPIRED, 60_000, LIT.(room := FULL, applied := true, keepalive := 120_000))
  {
    ExpirySeen(s);
    BooksExpired();
    longer, t := Continue(run, s, LISTED, 0, EXPIRY, EXPIRED, LIT.(room := FULL, applied := true, keepalive := 120_000));
  }

  const WIDE := LIT.(room := FULL, applied := true, keepalive := 120_000)
  const NARROW := WIDE.(room := LEFT)

  lemma Closes(run: Run, s: State) returns (longer: Run, t: State)
    requires Arrives(run, s, EXPIRED, 60_000, WIDE)
    ensures longer == Then(run, CLOSE) && Arrives(longer, t, CLOSED, 60_001, NARROW)
  {
    FullRoom();
    FinishScene(s, CLOSE);
    CloseScene(s, Terminal(2), 60_001);
    BooksClosed();
    assert SeenOps(s, CLOSE) == [F.Invalidate(60_001)];
    longer, t := Continue(run, s, EXPIRED, 60_000, CLOSE, CLOSED, NARROW);
  }

  lemma Drops(run: Run, s: State) returns (longer: Run, t: State)
    requires Arrives(run, s, CLOSED, 60_001, NARROW)
    ensures longer == Then(run, FIRST_ANSWER) && Arrives(longer, t, DROPPED, 60_002, NARROW)
  {
    FinishScene(s, FIRST_ANSWER);
    ReplyScene(s, [], 60_002);
    BooksDropped();
    longer, t := Continue(run, s, CLOSED, 60_001, FIRST_ANSWER, DROPPED, NARROW);
  }

  lemma Fools(run: Run, s: State) returns (longer: Run, t: State)
    requires Arrives(run, s, DROPPED, 60_002, NARROW)
    ensures longer == Then(run, SECOND_ANSWER) && Arrives(longer, t, FOOLED, 60_003, NARROW)
  {
    FinishScene(s, SECOND_ANSWER);
    ReplyScene(s, [VIEW], 60_003);
    BooksFooled();
    longer, t := Continue(run, s, DROPPED, 60_002, SECOND_ANSWER, FOOLED, NARROW);
  }

  lemma Listing(start: Run, first: State) returns (run: Run, s: State)
    requires Arrives(start, first, LOADED, 0, DARK) && 60_000 in Timers(start, |start.steps|)
    ensures run == Then(Then(start, GRANT), LIST) && 60_000 in Timers(run, |run.steps|)
    ensures Arrives(run, s, LISTED, 0, LIT.(room := FULL, applied := true))
  {
    TimerWaits(start, GRANT, 60_000);
    run, s := Grants(start, first);
    TimerWaits(run, LIST, 60_000);
    run, s := Lists(run, s);
  }

  lemma Closing(start: Run, first: State) returns (run: Run, s: State)
    requires Arrives(start, first, EXPIRED, 60_000, WIDE)
    ensures run == Then(Then(Then(start, CLOSE), FIRST_ANSWER), SECOND_ANSWER) && Arrives(run, s, FOOLED, 60_003, NARROW)
  {
    run, s := Closes(start, first);
    run, s := Drops(run, s);
    run, s := Fools(run, s);
  }

  lemma Finale(run: Run, s: State) returns (longer: Run, q: nat, r: nat, m: nat)
    requires Arrives(run, s, FOOLED, 60_003, NARROW)
    ensures longer == Then(run, LAST_DUMP) && Hosted(longer) && F.AskedHost(TraceOf(longer))
    ensures PublishesStale(longer, |longer.steps| - 1, 0, q, r, m)
  {
    FullRoom();
    longer, q, r, m := Publish(run, s, FOOLED, 60_003);
  }

  /** The rest of the run after its load. */
  function Played(start: Run): Run {
    Then(Then(Then(Then(Then(Then(Then(start, GRANT), LIST), EXPIRY), CLOSE), FIRST_ANSWER), SECOND_ANSWER), LAST_DUMP)
  }

  lemma Play(start: Run, first: State) returns (longer: Run, q: nat, r: nat, m: nat)
    requires Arrives(start, first, LOADED, 0, DARK) && 60_000 in Timers(start, |start.steps|)
    ensures longer == Played(start) && Hosted(longer) && F.AskedHost(TraceOf(longer))
    ensures PublishesStale(longer, |longer.steps| - 1, 0, q, r, m)
  {
    var run, s := Listing(start, first);
    run, s := Expires(run, s);
    run, s := Closing(run, s);
    longer, q, r, m := Finale(run, s);
  }

  lemma LateIsPlayed()
    ensures Played(Run(0, SESSION, [LOAD])) == LATE && |LATE.steps| == 8
  {
  }

  /**
    A run a host may drive, every reply of which was asked for, that publishes a sample older than
    the roster: the reply at 60003 answers the query of 60000, and its clients are published
    although a pane closed at 60001.
   */
  lemma LateAnswerIsPublished() returns (q: nat, r: nat, m: nat)
    ensures Hosted(LATE) && F.AskedHost(TraceOf(LATE)) && PublishesStale(LATE, 7, 0, q, r, m)
  {
    var start, first := Loads();
    var longer;
    longer, q, r, m := Play(start, first);
    LateIsPlayed();
  }
}
