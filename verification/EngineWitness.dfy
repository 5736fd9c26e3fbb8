/** Two runs in which the engine misses what it otherwise guarantees: a spinning timer and a switch slept through. */
module EngineWitness {
  import opened Prelude
  import opened PokePolicy
  import opened ClientFocus
  import opened Room
  import opened Handlers
  import opened EngineRuns
  import opened EngineEffects
  import opened EngineFence
  import opened EngineProgress
  import opened FocusProgress

  const HOST := Host(map[], t => true)

  // ----- A denied engine with input pending spins -----

  const TYPIST := Config(Some("s"), None, None, None, Some(7), None, None, None)
  const TYPED := UserAction(7, None, false)

  const SPIN := Run(0, TYPIST, [
    Step(0, Load, HOST),
    Step(0, PermissionGranted, HOST),
    Step(0, TYPED, HOST),
    Step(1, TYPED, HOST),
    Step(1, PermissionDenied, HOST),
    Step(1_000, Timer(1_000), HOST)])

  const ASKED := IDLE.(inFlight := Some(Query(General, 0, false, 60_000)))

  function Typist(focus: Focus, granted: bool, armedFor: nat, published: Option<nat>, pending: Option<nat>): State {
    Initial(0, TYPIST).(focus := focus, granted := granted, armedFor := Some(armedFor),
                        lastInputPublishedAt := published, pendingInput := pending)
  }

  lemma NoTopology(s: State, now: nat)
    requires s.room == map[]
    ensures TopologyOf(s, now).None?
  {
    assert ViewedPanes(s.room, s.viewedTabs) == map[];
  }

  /** The whole state `finish_update` leaves. */
  lemma FinishesAs(o: Outcome, now: nat, host: Host)
    ensures var f := FinishedState(o.state, now);
            Finished(o, now, host).state == f.(armedFor := Armed(f.armedFor, Deadline(f)))
  {
    DispatchExtends(o, now, host);
    var d := DueDispatched(o, now, host);
    QueryExtends(d, now);
    assert QueryDriven(d, now).state == FinishedState(o.state, now);
  }

  /** `finish_update` before the next keepalive, given what it makes of the schedule and the focus. */
  lemma FinishesWith(o: Outcome, now: nat, host: Host, s: State, policy: Schedule, focus: Focus)
    requires o.state == s && now < s.policy.nextKeepalive
    requires Consulted(s.policy, now) == policy && Driven(s.focus, now, !s.muted) == focus
    ensures Finished(o, now, host).state ==
            s.(policy := policy, focus := focus,
               armedFor := Armed(s.armedFor, Deadline(s.(policy := policy, focus := focus))))
  {
    FinishesAs(o, now, host);
  }

  lemma SpinLoaded()
    ensures Handle(Initial(0, TYPIST), SPIN.steps[0]).state == Typist(IDLE, false, 60_000, None, None)
  {
  }

  lemma SpinGranted()
    ensures Handle(Typist(IDLE, false, 60_000, None, None), SPIN.steps[1]).state == Typist(ASKED, true, 60_000, None, None)
  {
    var s := Typist(IDLE, false, 60_000, None, None);
    NoTopology(s, 0);
    var o := GrantSeen(s, 0, HOST);
    assert o.state == s.(granted := true, focus := Observed(IDLE));
    FinishesAs(o, 0, HOST);
  }

  lemma SpinTyped()
    ensures Handle(Typist(ASKED, true, 60_000, None, None), SPIN.steps[2]).state ==
            Typist(ASKED, true, 60_000, Some(0), None)
  {
  }

  lemma SpinTypedAgain()
    ensures Handle(Typist(ASKED, true, 60_000, Some(0), None), SPIN.steps[3]) ==
            Outcome(Typist(ASKED, true, 1_000, Some(0), Some(1)), [SetTimeout(999)])
  {
  }

  lemma SpinDenied()
    ensures Handle(Typist(ASKED, true, 1_000, Some(0), Some(1)), SPIN.steps[4]).state ==
            Typist(ASKED, false, 1_000, Some(0), Some(1))
  {
  }

  /** The steps of the run so far, one state at a time. */
  lemma SpinStates()
    ensures At(SPIN, 4) == Typist(ASKED, true, 1_000, Some(0), Some(1))
    ensures At(SPIN, 5) == Typist(ASKED, false, 1_000, Some(0), Some(1))
    ensures EffectsAt(SPIN, 3) == [SetTimeout(999)]
  {
    SpinLoaded();
    assert At(SPIN, 1) == Typist(IDLE, false, 60_000, None, None);
    SpinGranted();
    assert At(SPIN, 2) == Typist(ASKED, true, 60_000, None, None);
    SpinTyped();
    assert At(SPIN, 3) == Typist(ASKED, true, 60_000, Some(0), None);
    SpinTypedAgain();
    SpinDenied();
  }

  lemma SpinTimerOutstanding()
    ensures 1_000 in Timers(SPIN, 5)
  {
    SpinStates();
    assert Arms([SetTimeout(999)], 1) == multiset{1_000} by {
      assert [SetTimeout(999)][..0] == [];
    }
    assert 1_000 in Timers(SPIN, 4);
  }

  lemma SpinFires(i: nat)
    requires i < |SPIN.steps|
    ensures FiresOutstanding(SPIN, i)
  {
    if i == 5 {
      SpinTimerOutstanding();
    } else {
      assert !SPIN.steps[i].event.Timer?;
    }
  }

  lemma SpinHosted()
    ensures Hosted(SPIN)
  {
    forall i | 0 <= i < |SPIN.steps| ensures FiresOutstanding(SPIN, i) {
      SpinFires(i);
    }
  }

  /** A run a host may drive in which a timer handler arms its next timer for the present instant. */
  lemma DeniedInputSpins()
    ensures Hosted(SPIN) && SPIN.steps[5].event.Timer?
    ensures SPIN.steps[5].at in Arms(EffectsAt(SPIN, 5), SPIN.steps[5].at)
  {
    SpinHosted();
    SpinStates();
    SpinStep(Typist(ASKED, false, 1_000, Some(0), Some(1)), 1, SPIN.steps[5]);
  }

  // ----- A dump after a denial leaves a switch asleep -----

  const PLAIN := Config(None, None, None, None, None, None, None, None)

  const LOAD := Step(0, Load, HOST)
  const FIRST_TAB := Step(0, TabUpdate(Some(0), map[], map[], {}), HOST)
  const ANSWER := Step(0, ClientsListed([]), HOST)
  const NEXT_TAB := Step(0, TabUpdate(Some(1), map[], map[], {}), HOST)
  const RETIRE := Step(0, RetirePipe(Some(Writer(0, None, 1, None, None))), HOST)
  const DENIAL := Step(250, PermissionDenied, HOST)
  const DUMP := Step(250, DumpTopologyPipe, HOST)

  const LULL := Run(0, PLAIN, [LOAD, FIRST_TAB, ANSWER, NEXT_TAB, RETIRE, DENIAL, DUMP])

  /** The focus once tab 0 is known, answered, left for tab 1, and its settle window over. */
  const KNOWN := ASKED.(activeTab := Some(0))
  const ANSWERED := IDLE.(activeTab := Some(0), sample := Some({}))
  const LEFT := ANSWERED.(activeTab := Some(1), generation := 1, mode := Switching(PendingSwitch(1, 1, 250)))
  const WAITING := LEFT.(queued := Some(SwitchSettled(1, 1)))

  function Plain(policy: Schedule, focus: Focus, granted: bool, armedFor: nat, muted: bool): State {
    Initial(0, PLAIN).(policy := policy, focus := focus, granted := granted, armedFor := Some(armedFor), muted := muted)
  }

  /** The schedule once the first client sample has been poked. */
  const POKED := Schedule(None, Some(0), Some(250), 60_000)

  lemma LullLoaded()
    ensures Handle(Initial(0, PLAIN), LOAD).state == Plain(Fresh(0), IDLE, false, 60_000, false)
  {
  }

  lemma TabsOnEmptyRoom(s: State, active: nat)
    requires s.room == map[] && s.tabNames == map[] && s.viewedTabs == {}
    ensures TabsStamped(s, Some(active), map[], map[], {}, 0) == s
  {
    assert TabIdsSet(s.room, map[]) == map[];
    assert TabsViewed({}, Some(active), map[], {}) == {};
  }

  lemma LullFoci()
    ensures Driven(TabUpdated(Observed(IDLE), Some(0), 0), 0, true) == KNOWN
    ensures Replied(KNOWN, [], 0) == (ANSWERED, Update(None, true)) && Driven(ANSWERED, 0, true) == ANSWERED
    ensures TabUpdated(ANSWERED, Some(1), 0) == LEFT && Driven(LEFT, 0, true) == LEFT
    ensures Driven(LEFT, 250, false) == WAITING
  {
    assert Views([]) == {};
  }

  lemma LullKnown()
    ensures Handle(Plain(Fresh(0), IDLE, false, 60_000, false), FIRST_TAB).state ==
            Plain(Fresh(0), KNOWN, true, 60_000, false)
  {
    var s := Plain(Fresh(0), IDLE, false, 60_000, false);
    NoTopology(s, 0);
    var g := MarkedGranted(Outcome(s, []), 0, HOST).state;
    assert g == s.(granted := true, focus := Observed(IDLE));
    TabsOnEmptyRoom(g, 0);
    LullFoci();
    FinishesWith(TabsSeen(s, Some(0), map[], map[], {}, 0, HOST), 0, HOST,
                 g.(focus := TabUpdated(g.focus, Some(0), 0)), Fresh(0), KNOWN);
  }

  lemma LullReply()
    ensures ClientsSeen(Plain(Fresh(0), KNOWN, true, 60_000, false), [], 0, HOST).state ==
            Plain(Signalled(Fresh(0), 0), ANSWERED, true, 60_000, false)
  {
    LullFoci();
  }

  lemma AnswerFinishes(o: Outcome)
    requires o.state == Plain(Signalled(Fresh(0), 0), ANSWERED, true, 60_000, false)
    ensures Finished(o, 0, HOST).state == Plain(POKED, ANSWERED, true, 250, false)
  {
    LullFoci();
    FinishesWith(o, 0, HOST, Plain(Signalled(Fresh(0), 0), ANSWERED, true, 60_000, false), POKED, ANSWERED);
  }

  lemma LullAnswered()
    ensures Handle(Plain(Fresh(0), KNOWN, true, 60_000, false), ANSWER).state ==
            Plain(POKED, ANSWERED, true, 250, false)
  {
    LullReply();
    AnswerFinishes(ClientsSeen(Plain(Fresh(0), KNOWN, true, 60_000, false), [], 0, HOST));
  }

  lemma LullLeft()
    ensures Handle(Plain(POKED, ANSWERED, true, 250, false), NEXT_TAB).state == Plain(POKED, LEFT, true, 250, false)
  {
    var s := Plain(POKED, ANSWERED, true, 250, false);
    assert MarkedGranted(Outcome(s, []), 0, HOST).state == s;
    TabsOnEmptyRoom(s, 1);
    LullFoci();
    FinishesWith(TabsSeen(s, Some(1), map[], map[], {}, 0, HOST), 0, HOST,
                 Plain(POKED, LEFT, true, 250, false), POKED, LEFT);
  }

  lemma LullRetired()
    ensures Handle(Plain(POKED, LEFT, true, 250, false), RETIRE).state == Plain(POKED, LEFT, true, 250, true)
  {
  }

  lemma LullDenied()
    ensures var t := Handle(Plain(POKED, LEFT, true, 250, true), DENIAL).state;
            t.muted && !t.granted && t.focus == WAITING
  {
    LullFoci();
    FinishesWith(DenialSeen(Plain(POKED, LEFT, true, 250, true)), 250, HOST,
                 Plain(POKED, LEFT, false, 250, true), Consulted(POKED, 250), WAITING);
  }

  /** One step further along a run. */
  lemma Advance(run: Run, i: nat, s: State, step: Step, t: State)
    requires i < |run.steps| && At(run, i) == s && run.steps[i] == step && Handle(s, step).state == t
    ensures At(run, i + 1) == t
  {
  }

  lemma LullLoadedAt()
    ensures At(LULL, 1) == Plain(Fresh(0), IDLE, false, 60_000, false)
  {
    LullLoaded();
    Advance(LULL, 0, Initial(0, PLAIN), LOAD, Plain(Fresh(0), IDLE, false, 60_000, false));
  }

  lemma KnownNext(run: Run, i: nat)
    requires i < |run.steps| && run.steps[i] == FIRST_TAB && At(run, i) == Plain(Fresh(0), IDLE, false, 60_000, false)
    ensures At(run, i + 1) == Plain(Fresh(0), KNOWN, true, 60_000, false)
  {
    LullKnown();
  }

  lemma LullKnownAt()
    ensures At(LULL, 2) == Plain(Fresh(0), KNOWN, true, 60_000, false)
  {
    LullLoadedAt();
    KnownNext(LULL, 1);
  }

  lemma LullAnsweredAt()
    ensures At(LULL, 3) == Plain(POKED, ANSWERED, true, 250, false)
  {
    LullKnownAt();
    LullAnswered();
    Advance(LULL, 2, Plain(Fresh(0), KNOWN, true, 60_000, false), ANSWER, Plain(POKED, ANSWERED, true, 250, false));
  }

  lemma LullLeftAt()
    ensures At(LULL, 4) == Plain(POKED, LEFT, true, 250, false)
  {
    LullAnsweredAt();
    LullLeft();
    Advance(LULL, 3, Plain(POKED, ANSWERED, true, 250, false), NEXT_TAB, Plain(POKED, LEFT, true, 250, false));
  }

  lemma LullRetiredAt()
    ensures At(LULL, 5) == Plain(POKED, LEFT, true, 250, true)
  {
    LullLeftAt();
    LullRetired();
    Advance(LULL, 4, Plain(POKED, LEFT, true, 250, false), RETIRE, Plain(POKED, LEFT, true, 250, true));
  }

  lemma LullDeniedAt() returns (t: State)
    ensures At(LULL, 6) == t && t.muted && !t.granted && t.focus == WAITING
  {
    LullRetiredAt();
    LullDenied();
    t := Handle(Plain(POKED, LEFT, true, 250, true), DENIAL).state;
    Advance(LULL, 5, Plain(POKED, LEFT, true, 250, true), DENIAL, t);
  }

  lemma DumpUnmutes(s: State, now: nat, host: Host)
    requires s.muted && !s.granted && Asleep(s.focus)
    ensures PulseOf(AfterDumpTopologyPipe(s, now, host).state) == Pulse(false, false, true)
  {
    InvalidationKeepsSleep(s.focus, now);
  }

  lemma LullDumped(s: State)
    requires s.muted && !s.granted && s.focus == WAITING
    ensures PulseOf(Handle(s, DUMP).state) == Pulse(false, false, true)
  {
    DumpUnmutes(s, 250, HOST);
  }

  lemma LullHosted()
    ensures Hosted(LULL)
  {
    forall i | 0 <= i < |LULL.steps| ensures FiresOutstanding(LULL, i) {
      assert !LULL.steps[i].event.Timer?;
    }
  }

  /** A run a host may drive that leaves an unmuted engine asleep on a pending switch. */
  lemma DeniedDumpLulls()
    ensures Hosted(LULL)
    ensures PulseOf(At(LULL, 7)) == Pulse(false, false, true)
  {
    LullHosted();
    var t := LullDeniedAt();
    LullDumped(t);
    Advance(LULL, 6, t, DUMP, Handle(t, DUMP).state);
  }
}
