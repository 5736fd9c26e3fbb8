/** The engine neither spins on its timer nor sleeps through a pending switch, and stale timers change nothing. */
module EngineProgress {
  import opened Prelude
  import opened PokePolicy
  import opened ClientFocus
  import opened Room
  import opened Handlers
  import opened EngineRuns
  import opened EngineEffects
  import opened EngineTimers
  import opened EngineFocus
  import opened EngineFence
  import opened FocusProgress

  // ----- One step -----

  /** The step drives the focus machine. */
  predicate Drives(s: State, step: Step) {
    Finishes(step.event) || (step.event.DumpTopologyPipe? && s.granted)
  }

  /** A dump that unmutes an engine whose permission is gone. */
  predicate RevivesUngranted(s: State, event: Event) {
    event.DumpTopologyPipe? && s.muted && !s.granted
  }

  /** The focus `finish_update` leaves. */
  lemma FinishingFocus(s: State, step: Step)
    requires Finishes(step.event)
    ensures var o, t := Seen(s, step).state, Handle(s, step).state;
            t.muted == o.muted && t.granted == o.granted && t.focus == Driven(AliveFocus(o, step.at), step.at, !o.muted)
  {
    FinishingHandler(s, step);
    FinishExtends(Seen(s, step), step.at, step.host);
  }

  /** An unmuted engine that has driven its focus machine is awake with nothing left to ask. */
  lemma DrivingStep(s: State, step: Step)
    requires Drives(s, step) && !Handle(s, step).state.muted
    ensures !Asleep(Handle(s, step).state.focus) && Drained(Handle(s, step).state.focus)
  {
    if Finishes(step.event) {
      FinishingFocus(s, step);
      DrivenIsAwake(AliveFocus(Seen(s, step).state, step.at), step.at);
    } else {
      DumpFocus(s, step.at, step.host);
      DrivenIsAwake(if s.muted then Invalidated(s.focus, step.at) else s.focus, step.at);
    }
  }

  /** What a step that does not drive the focus machine may do. */
  predicate Rests(s: State, step: Step, t: State) {
    && t.granted == s.granted
    && if RevivesUngranted(s, step.event)
       then t.focus == Invalidated(s.focus, step.at) && t.armedFor.None? && !t.muted
       else && t.focus == s.focus && (s.muted ==> t.muted)
            && (t.armedFor == s.armedFor || s.granted)
  }

  lemma FailureRests(s: State, now: nat, host: Host)
    ensures var t := Failed(s, now, host).state;
            t.focus == s.focus && t.granted == s.granted && t.armedFor == s.armedFor && t.muted == s.muted
  {
  }

  lemma RestingResult(s: State, step: Step)
    requires step.event.CommandResult? && !Accepts(step.event)
    ensures Rests(s, step, Handle(s, step).state)
  {
    var exitCode, issuedAt := step.event.exitCode, step.event.issuedAt;
    if issuedAt.Some? && exitCode == Some(STALE_WRITER_EXIT_CODE) {
      assert Handle(s, step) == Outcome(Rejected(s, issuedAt.value), []);
    } else if exitCode != Some(0) {
      assert Handle(s, step) == Failed(s, step.at, step.host);
      FailureRests(s, step.at, step.host);
    } else {
      assert Handle(s, step) == Outcome(s.(wakeForkFailures := 0), []);
    }
  }

  lemma RestingUser(s: State, step: Step)
    requires step.event.UserAction?
    ensures Rests(s, step, Handle(s, step).state)
  {
  }

  lemma RestingStep(s: State, step: Step)
    requires !Drives(s, step)
    ensures Rests(s, step, Handle(s, step).state)
  {
    if step.event.CommandResult? {
      RestingResult(s, step);
    } else if step.event.UserAction? {
      RestingUser(s, step);
    }
  }

  // ----- No sleep -----

  lemma InvalidationKeepsSleep(f: Focus, now: nat)
    ensures Asleep(Invalidated(f, now)) == Asleep(f)
  {
  }

  /** What decides whether a pending switch will ever be settled. */
  datatype Pulse = Pulse(muted: bool, granted: bool, asleep: bool)

  function PulseOf(s: State): Pulse {
    Pulse(s.muted, s.granted, Asleep(s.focus))
  }

  /** A dump that unmutes an engine asleep on a switch after its permission was denied. */
  predicate Lulls(p: Pulse, event: Event) {
    event.DumpTopologyPipe? && p.muted && !p.granted && p.asleep
  }

  predicate Beats(p: Pulse, event: Event, q: Pulse) {
    if Finishes(event) || (event.DumpTopologyPipe? && p.granted) then !q.muted ==> !q.asleep
    else && q.granted == p.granted && q.asleep == p.asleep
         && (p.muted && !q.muted ==> event.DumpTopologyPipe?)
  }

  lemma PulseStep(s: State, step: Step)
    ensures Beats(PulseOf(s), step.event, PulseOf(Handle(s, step).state))
  {
    if Drives(s, step) {
      if !Handle(s, step).state.muted {
        DrivingStep(s, step);
      }
    } else {
      RestingStep(s, step);
      InvalidationKeepsSleep(s.focus, step.at);
    }
  }

  predicate BeatsAt(pulses: seq<Pulse>, events: seq<Event>, i: nat)
    requires i < |events| && |pulses| == |events| + 1
  {
    Beats(pulses[i], events[i], pulses[i + 1])
  }

  predicate PulseRun(pulses: seq<Pulse>, events: seq<Event>) {
    && |pulses| == |events| + 1 && !pulses[0].asleep
    && forall i | 0 <= i < |events| :: BeatsAt(pulses, events, i)
  }

  predicate Rested(events: seq<Event>, i: nat)
    requires i < |events|
  {
    !Finishes(events[i])
  }

  /** Event `j` lulls the engine and no handler before event `n` finishes. */
  predicate Lulled(pulses: seq<Pulse>, events: seq<Event>, j: nat, n: nat)
    requires j < n <= |events| && |pulses| == |events| + 1
  {
    Lulls(pulses[j], events[j]) && forall i | j < i < n :: Rested(events, i)
  }

  lemma {:induction false} SleepNeedsLull(pulses: seq<Pulse>, events: seq<Event>, n: nat) returns (j: nat)
    requires PulseRun(pulses, events) && n <= |events| && pulses[n].asleep && !pulses[n].muted
    ensures j < n && Lulled(pulses, events, j, n)
  {
    j := n - 1;
    assert BeatsAt(pulses, events, j);
    if !Lulls(pulses[j], events[j]) {
      j := SleepNeedsLull(pulses, events, n - 1);
      assert Rested(events, n - 1);
    }
  }

  lemma {:induction false} LullLasts(pulses: seq<Pulse>, events: seq<Event>, j: nat, n: nat)
    requires PulseRun(pulses, events) && j < n <= |events| && Lulled(pulses, events, j, n)
    ensures pulses[n].asleep && !pulses[n].granted
    decreases n
  {
    if j < n - 1 {
      LullLasts(pulses, events, j, n - 1);
      assert Rested(events, n - 1);
    }
    assert BeatsAt(pulses, events, n - 1);
  }

  function Pulses(run: Run): seq<Pulse> {
    seq(|run.steps| + 1, i requires 0 <= i <= |run.steps| => PulseOf(At(run, i)))
  }

  lemma BeatPlaced(pulses: seq<Pulse>, events: seq<Event>, i: nat, p: Pulse, e: Event, q: Pulse)
    requires i < |events| && |pulses| == |events| + 1 && Beats(p, e, q)
    requires pulses[i] == p && events[i] == e && pulses[i + 1] == q
    ensures BeatsAt(pulses, events, i)
  {
  }

  lemma EngineBeats(run: Run, i: nat)
    requires i < |run.steps|
    ensures BeatsAt(Pulses(run), Events(run), i)
  {
    var p, q := PulseOf(At(run, i)), PulseOf(At(run, i + 1));
    assert Beats(p, run.steps[i].event, q) by {
      PulseStep(At(run, i), run.steps[i]);
    }
    BeatPlaced(Pulses(run), Events(run), i, p, run.steps[i].event, q);
  }

  lemma PulsesBeat(run: Run)
    ensures PulseRun(Pulses(run), Events(run))
  {
    forall i | 0 <= i < |run.steps| ensures BeatsAt(Pulses(run), Events(run), i) {
      EngineBeats(run, i);
    }
  }

  /**
    No unmuted engine is ever asleep on a pending switch, except in exactly one case: a dump
    unmuted it while its permission was denied, and no handler has finished since.
   */
  lemma AsleepIffLulled(run: Run, n: nat)
    requires n <= |run.steps| && !Pulses(run)[n].muted
    ensures Pulses(run)[n].asleep <==> exists j | 0 <= j < n :: Lulled(Pulses(run), Events(run), j, n)
  {
    PulsesBeat(run);
    if Pulses(run)[n].asleep {
      var j := SleepNeedsLull(Pulses(run), Events(run), n);
    }
    forall j | 0 <= j < n && Lulled(Pulses(run), Events(run), j, n) ensures Pulses(run)[n].asleep {
      LullLasts(Pulses(run), Events(run), j, n);
    }
  }

  // ----- No spin -----

  lemma FocusCoherent(run: Run, n: nat)
    requires Timed(run) && n <= |run.steps| && SwitchCount(run, n) < GENERATIONS
    ensures Coherent(At(run, n).focus)
  {
    var chunks := Chunks(run);
    EveryRunTraced(run);
    FocusFollowsTrace(run, chunks, n);
    TraceTimed(run, chunks, n);
    AlwaysCoherent(Flat(chunks, n), |Flat(chunks, n)|);
  }

  /** The parts of the state that set the deadline, after `finish_update`. */
  predicate FinishedBy(s: State, t: State, now: nat) {
    && t.policy == Consulted(s.policy, now)
    && t.focus == Driven(AliveFocus(s, now), now, !s.muted)
    && t.pendingInput == s.pendingInput && t.lastInputPublishedAt == s.lastInputPublishedAt
  }

  lemma FinishLeaves(o: Outcome, now: nat, host: Host)
    ensures FinishedBy(o.state, Finished(o, now, host).state, now)
  {
    FinishExtends(o, now, host);
  }

  /** After `finish_update` only overdue input can keep the deadline from lying ahead. */
  lemma FinishedDeadline(s: State, t: State, clock: nat, now: nat)
    requires WellTimed(s.policy, clock) && clock <= now && ClockFits(now) && Coherent(s.focus) && FinishedBy(s, t, now)
    ensures Deadline(t) <= now <==> Reached(InputDeadline(s), now)
  {
    ConsultMeetsWakeTime(s.policy, clock, now);
    DrivenIsQuiet(AliveFocus(s, now), now, !s.muted);
  }

  lemma TimerInput(s: State, now: nat)
    ensures var o := TimerSeen(s, now).state;
            && Reached(InputDeadline(o), now) == (!s.granted && Reached(InputDeadline(s), now))
            && o.policy == s.policy && o.focus == s.focus
  {
  }

  /** After a timer the deadline lies ahead, unless input is overdue and its permission is gone. */
  lemma TimerLeaves(s: State, t: State, clock: nat, now: nat)
    requires WellTimed(s.policy, clock) && clock <= now && ClockFits(now) && Coherent(s.focus)
    requires FinishedBy(TimerSeen(s, now).state, t, now)
    ensures Deadline(t) <= now <==> !s.granted && Reached(InputDeadline(s), now)
  {
    TimerInput(s, now);
    FinishedDeadline(TimerSeen(s, now).state, t, clock, now);
  }

  lemma TimerMovesOn(s: State, clock: nat, step: Step)
    requires step.event.Timer? && WellTimed(s.policy, clock) && clock <= step.at && ClockFits(step.at) && Coherent(s.focus)
    ensures Deadline(Handle(s, step).state) <= step.at <==> !s.granted && Reached(InputDeadline(s), step.at)
  {
    FinishLeaves(TimerSeen(s, step.at), step.at, step.host);
    TimerLeaves(s, Handle(s, step).state, clock, step.at);
  }

  /**
    A timer handler arms a timer for the present instant if and only if input is overdue and the
    permission to publish it is gone.
   */
  lemma TimerSpinsIff(run: Run, i: nat)
    requires Hosted(run) && 0 < i < |run.steps| && run.steps[i].event.Timer? && SwitchCount(run, i) < GENERATIONS
    ensures run.steps[i].at in Arms(EffectsAt(run, i), run.steps[i].at) <==>
            !At(run, i).granted && Reached(InputDeadline(At(run, i)), run.steps[i].at)
  {
    AlwaysScheduled(run, i);
    FocusCoherent(run, i);
    SpinStep(At(run, i), Clock(run, i), run.steps[i]);
  }

  lemma SpinStep(s: State, clock: nat, step: Step)
    requires step.event.Timer? && WellTimed(s.policy, clock) && clock <= step.at && ClockFits(step.at) && Coherent(s.focus)
    requires s.armedFor.Some? ==> s.armedFor.value <= Deadline(s)
    ensures step.at in Arms(Handle(s, step).effects, step.at) <==> !s.granted && Reached(InputDeadline(s), step.at)
  {
    TimerMovesOn(s, clock, step);
    FinishingStep(s, clock, step);
    ArmedNowIff(Mark(s, step), Handle(s, step), step.at);
    if Reached(InputDeadline(s), step.at) {
      assert Deadline(s) <= step.at;
    }
  }

  /** A timer is armed for the present when the deadline is reached and no mark covers it. */
  lemma ArmedNowIff(mark: Option<nat>, o: Outcome, at: nat)
    requires Armable(mark, o, at)
    ensures at in Arms(o.effects, at) <==> Deadline(o.state) <= at && ShouldArm(mark, Deadline(o.state))
  {
  }

  // ----- Stale timers -----

  /** A query waits unasked in an unmuted engine only when nothing is armed and the permission is gone. */
  predicate Attentive(s: State) {
    !s.muted && !Drained(s.focus) ==> s.armedFor.None? && !s.granted
  }

  lemma AttentiveStep(s: State, step: Step)
    requires Attentive(s)
    ensures Attentive(Handle(s, step).state)
  {
    if Drives(s, step) {
      if !Handle(s, step).state.muted {
        DrivingStep(s, step);
      }
    } else {
      RestingStep(s, step);
    }
  }

  lemma {:induction false} AlwaysAttentive(run: Run, n: nat)
    requires n <= |run.steps|
    ensures Attentive(At(run, n))
  {
    if n > 0 {
      AlwaysAttentive(run, n - 1);
      AttentiveStep(At(run, n - 1), run.steps[n - 1]);
    }
  }

  lemma EarlyConsultation(p: Schedule, now: nat)
    requires now < NextWake(p)
    ensures DuePokes(p, now) == [] && Consulted(p, now) == p
  {
  }

  /** A timer that fires before the mark finds nothing to do. */
  lemma EarlyTimer(s: State, step: Step)
    requires step.event.Timer? && Attentive(s)
    requires s.armedFor.Some? && step.at < s.armedFor.value <= Deadline(s)
    ensures Handle(s, step) == Outcome(s, [])
  {
    FinishingHandler(s, step);
    assert TimerSeen(s, step.at) == Outcome(s, []);
    EarlyConsultation(s.policy, step.at);
    var o := Outcome(s, []);
    assert DueDispatched(o, step.at, step.host) == o;
    EarlyDriveIsNoop(s.focus, step.at, !s.muted);
    assert QueryDriven(o, step.at) == o;
  }

  /** A superseded timer that fires before the armed deadline changes nothing and emits nothing. */
  lemma StaleFireIsNoop(run: Run, i: nat)
    requires Hosted(run) && 0 < i < |run.steps| && run.steps[i].event.Timer?
    requires At(run, i).armedFor.Some? && run.steps[i].at < At(run, i).armedFor.value
    ensures At(run, i + 1) == At(run, i) && EffectsAt(run, i) == []
  {
    AlwaysScheduled(run, i);
    AlwaysAttentive(run, i);
    EarlyTimer(At(run, i), run.steps[i]);
  }
}
