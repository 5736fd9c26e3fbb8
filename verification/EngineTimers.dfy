/** The engine is never left without a timer, does not spin, and publishes changes on time. */
module EngineTimers {
  import opened Prelude
  import opened PokePolicy
  import opened ClientFocus
  import opened Room
  import opened Handlers
  import opened EngineRuns
  import opened EngineEffects

  // ----- Arming -----

  predicate Calm(effects: seq<Effect>) {
    forall i | 0 <= i < |effects| :: !effects[i].SetTimeout?
  }

  /** Before `finish_update` no handler arms a timer; it signals the policy at most. */
  lemma SeenIsCalm(s: State, step: Step)
    requires Finishes(step.event)
    ensures var o := Seen(s, step);
            && Calm(o.effects) && o.state.armedFor == Mark(s, step)
            && (o.state.policy == s.policy || o.state.policy == Signalled(s.policy, step.at))
  {
    if step.event.ClientsListed? {
      ClientsSettle(s, step.event.clients, step.at, step.host);
    } else {
      SeenIsTame(s, step);
      var o, e := Seen(s, step), Entered(s, step);
      forall i | 0 <= i < |o.effects| ensures !o.effects[i].SetTimeout? {
        assert Plain(o.effects[i], step.at, e.muted, PublishedSample(e.focus));
      }
    }
  }

  lemma {:induction false} CalmArmsNothing(effects: seq<Effect>, at: nat)
    requires Calm(effects)
    ensures Arms(effects, at) == multiset{}
  {
    if effects != [] {
      CalmArmsNothing(effects[..|effects| - 1], at);
    }
  }

  /** The mark and the timer of a step that rearms, given the mark it starts from. */
  predicate Armable(mark: Option<nat>, o: Outcome, at: nat) {
    var due := Deadline(o.state);
    && o.state.armedFor == Armed(mark, due)
    && Arms(o.effects, at) == if ShouldArm(mark, due) then multiset{Max(due, at)} else multiset{}
  }

  lemma RearmArms(o: Outcome, now: nat)
    requires Calm(o.effects)
    ensures Armable(o.state.armedFor, Rearmed(o, now), now)
    ensures Rearmed(o, now).state.(armedFor := None) == o.state.(armedFor := None)
  {
    CalmArmsNothing(o.effects, now);
    var r := Rearmed(o, now);
    if ShouldArm(o.state.armedFor, Deadline(o.state)) {
      assert r.effects[..|r.effects| - 1] == o.effects;
    }
  }

  /** `finish_update` rearms for the deadline it leaves. */
  lemma FinishArms(o: Outcome, now: nat, host: Host)
    requires Calm(o.effects)
    ensures Armable(o.state.armedFor, Finished(o, now, host), now)
  {
    DispatchExtends(o, now, host);
    var d := DueDispatched(o, now, host);
    forall i | 0 <= i < |d.effects| ensures !d.effects[i].SetTimeout? {
      if i < |o.effects| {
        assert d.effects[i] == o.effects[i];
      } else {
        assert d.effects[i] == d.effects[|o.effects|..][i - |o.effects|];
      }
    }
    QueryExtends(d, now);
    RearmArms(QueryDriven(d, now), now);
  }

  // ----- One step -----

  /** The mark the timer gate carries into the rearm of a step. */
  function Mark(s: State, step: Step): Option<nat> {
    if step.event.DumpTopologyPipe? && s.muted then None
    else if step.event.Timer? then Fired(s.armedFor, step.at)
    else s.armedFor
  }

  /** The step arms no timer and moves no deadline; it may forget the mark. */
  predicate Untouched(s: State, o: Outcome) {
    && Calm(o.effects) && o.state.policy == s.policy && NextDeadline(o.state.focus) == NextDeadline(s.focus)
    && o.state.pendingInput == s.pendingInput && o.state.lastInputPublishedAt == s.lastInputPublishedAt
    && (o.state.armedFor == s.armedFor || o.state.armedFor.None?)
  }

  lemma UntouchedKeepsDeadline(s: State, o: Outcome)
    requires Untouched(s, o)
    ensures Deadline(o.state) == Deadline(s)
  {
  }

  lemma InvalidationKeepsDeadline(f: Focus, now: nat)
    ensures NextDeadline(Invalidated(f, now)) == NextDeadline(f)
  {
  }

  lemma FinishingStep(s: State, clock: nat, step: Step)
    requires Finishes(step.event) && WellTimed(s.policy, clock) && clock <= step.at && ClockFits(step.at)
    ensures Armable(Mark(s, step), Handle(s, step), step.at)
    ensures WellTimed(Handle(s, step).state.policy, step.at)
    ensures NextWake(Handle(s, step).state.policy) > step.at
  {
    FinishingHandler(s, step);
    SeenIsCalm(s, step);
    var o := Seen(s, step);
    FinishArms(o, step.at, step.host);
    FinishExtends(o, step.at, step.host);
    SignalKeepsTiming(s.policy, clock, step.at);
    ConsultMeetsWakeTime(s.policy, clock, step.at);
    ConsultMeetsWakeTime(Signalled(s.policy, step.at), step.at, step.at);
  }

  lemma InputIsCalm(o: Outcome, now: nat)
    requires o.effects == []
    ensures Calm(InputPublished(o, now).effects)
    ensures InputPublished(o, now).state.policy == o.state.policy
    ensures InputPublished(o, now).state.armedFor == o.state.armedFor
  {
  }

  lemma PokeIsCalm(s: State, poke: Poke, now: nat, host: Host)
    ensures Calm(Poked(Outcome(s, []), poke, now, host).effects)
    ensures Poked(Outcome(s, []), poke, now, host).state == s
  {
  }

  lemma UserStep(s: State, step: Step)
    requires step.event.UserAction?
    ensures Handle(s, step).state.policy == s.policy
    ensures Untouched(s, Handle(s, step)) || Armable(s.armedFor, Handle(s, step), step.at)
  {
    var o := Outcome(s.(pendingInput := Some(step.at)), []);
    InputIsCalm(o, step.at);
    RearmArms(InputPublished(o, step.at), step.at);
  }

  lemma FailureUntouched(s: State, now: nat, host: Host)
    ensures Untouched(s, Failed(s, now, host))
  {
    PokeIsCalm(s.(config := s.config.(rimzBin := None), wakeForkFailures := 0), Alive, now, host);
  }

  lemma RejectionUntouched(s: State, issuedAt: nat)
    ensures Untouched(s, Outcome(Rejected(s, issuedAt), []))
  {
  }

  lemma ResultStep(s: State, step: Step)
    requires step.event.CommandResult? && !Accepts(step.event)
    ensures Untouched(s, Handle(s, step))
  {
    var exitCode, issuedAt := step.event.exitCode, step.event.issuedAt;
    if issuedAt.Some? && exitCode == Some(STALE_WRITER_EXIT_CODE) {
      assert Handle(s, step) == Outcome(Rejected(s, issuedAt.value), []);
      RejectionUntouched(s, issuedAt.value);
    } else if exitCode != Some(0) {
      assert Handle(s, step) == Failed(s, step.at, step.host);
      FailureUntouched(s, step.at, step.host);
    } else {
      assert Handle(s, step) == Outcome(s.(wakeForkFailures := 0), []);
    }
  }

  /** A granted dump up to its rearm. */
  function DumpSeen(s: State, now: nat, host: Host): Outcome {
    var revived := Revived(s, now);
    QueryDriven(Poked(Outcome(revived.(room := Probed(revived.room, host.pids)), []), Alive, now, host), now)
  }

  lemma DumpIsTame(s: State, now: nat, host: Host)
    ensures Calm(DumpSeen(s, now, host).effects)
    ensures DumpSeen(s, now, host).state.policy == s.policy
    ensures DumpSeen(s, now, host).state.armedFor == if s.muted then None else s.armedFor
  {
    var revived := Revived(s, now);
    var probed := revived.(room := Probed(revived.room, host.pids));
    PokeIsCalm(probed, Alive, now, host);
    QueryExtends(Poked(Outcome(probed, []), Alive, now, host), now);
  }

  lemma GrantedDump(s: State, step: Step)
    requires step.event.DumpTopologyPipe? && s.granted
    ensures Handle(s, step) == Rearmed(DumpSeen(s, step.at, step.host), step.at)
    ensures Handle(s, step).state.policy == s.policy
    ensures Armable(Mark(s, step), Handle(s, step), step.at)
  {
    DumpIsTame(s, step.at, step.host);
    RearmArms(DumpSeen(s, step.at, step.host), step.at);
  }

  lemma UngrantedDump(s: State, step: Step)
    requires step.event.DumpTopologyPipe? && !s.granted
    ensures Untouched(s, Handle(s, step))
  {
    InvalidationKeepsDeadline(s.focus, step.at);
  }

  lemma OtherStep(s: State, step: Step)
    requires !Finishes(step.event)
    ensures Handle(s, step).state.policy == s.policy
    ensures Untouched(s, Handle(s, step)) || Armable(Mark(s, step), Handle(s, step), step.at)
  {
    if step.event.UserAction? {
      UserStep(s, step);
    } else if step.event.CommandResult? {
      ResultStep(s, step);
    } else if step.event.DumpTopologyPipe? {
      if s.granted {
        GrantedDump(s, step);
      } else {
        UngrantedDump(s, step);
      }
    }
  }

  // ----- No lost wakeup -----

  /** Some outstanding timer comes due by `bound`. */
  predicate DueBy(timers: multiset<nat>, bound: nat) {
    exists t | t in timers :: t <= bound
  }

  /** The timer the mark stands for is outstanding. */
  predicate MarkBacked(timers: multiset<nat>, mark: Option<nat>, clock: nat) {
    mark.Some? ==> exists t | t in timers :: mark.value <= t <= Max(mark.value, clock)
  }

  /** What the timers owe: the mark is backed, the deadline covered and the policy's wake time met. */
  predicate Owed(s: State, clock: nat, timers: multiset<nat>) {
    && MarkBacked(timers, s.armedFor, clock)
    && (s.armedFor.Some? ==> s.armedFor.value <= Deadline(s))
    && DueBy(timers, Max(clock, Deadline(s)))
    && DueBy(timers, NextWake(s.policy))
  }

  /** A step that rearms leaves the new deadline covered, whatever timers remain. */
  lemma ArmingCovers(mark: Option<nat>, o: Outcome, at: nat, waiting: multiset<nat>)
    requires Armable(mark, o, at) && MarkBacked(waiting, mark, at)
    requires NextWake(o.state.policy) > at || DueBy(waiting, NextWake(o.state.policy))
    ensures Owed(o.state, at, waiting + Arms(o.effects, at))
  {
    var due, timers := Deadline(o.state), waiting + Arms(o.effects, at);
    forall t | t in waiting ensures t in timers {
    }
    if ShouldArm(mark, due) {
      assert Max(due, at) in timers;
    } else {
      var t :| t in waiting && mark.value <= t <= Max(mark.value, at);
      assert t in timers;
    }
  }

  /** The mark survives the fire of any timer that does not clear it. */
  lemma FireKeepsMark(timers: multiset<nat>, mark: Option<nat>, clock: nat, due: nat, now: nat)
    requires MarkBacked(timers, mark, clock) && clock <= now && due in timers && due <= now
    ensures MarkBacked(timers - multiset{due}, Fired(mark, now), now)
  {
    if Fired(mark, now).Some? {
      var t :| t in timers && mark.value <= t <= Max(mark.value, clock);
      assert t != due;
      assert t in timers - multiset{due};
    }
  }

  /** The timers left when the step's event is delivered. */
  function Waiting(timers: multiset<nat>, event: Event): multiset<nat> {
    if event.Timer? then timers - multiset{event.due} else timers
  }

  lemma StepPaysDebts(s: State, clock: nat, timers: multiset<nat>, step: Step)
    requires WellTimed(s.policy, clock) && clock <= step.at && ClockFits(step.at) && Owed(s, clock, timers)
    requires step.event.Timer? ==> step.event.due in timers && step.event.due <= step.at
    ensures var o := Handle(s, step);
            WellTimed(o.state.policy, step.at) && Owed(o.state, step.at, Waiting(timers, step.event) + Arms(o.effects, step.at))
  {
    var o, waiting := Handle(s, step), Waiting(timers, step.event);
    if step.event.Timer? {
      FireKeepsMark(timers, s.armedFor, clock, step.event.due, step.at);
    }
    assert MarkBacked(waiting, Mark(s, step), step.at);
    if Finishes(step.event) {
      FinishingStep(s, clock, step);
      ArmingCovers(Mark(s, step), o, step.at, waiting);
    } else {
      OtherStep(s, step);
      if Untouched(s, o) {
        UntouchedKeepsDeadline(s, o);
        CalmArmsNothing(o.effects, step.at);
        assert waiting + Arms(o.effects, step.at) == timers;
        var t :| t in timers && t <= Max(clock, Deadline(s));
        assert t <= Max(step.at, Deadline(s));
      } else {
        ArmingCovers(Mark(s, step), o, step.at, waiting);
      }
    }
  }

  predicate Scheduled(run: Run, n: nat)
    requires 0 < n <= |run.steps|
  {
    WellTimed(At(run, n).policy, Clock(run, n)) && Owed(At(run, n), Clock(run, n), Timers(run, n))
  }

  lemma FirstStep(run: Run)
    requires Hosted(run) && run.steps != []
    ensures Scheduled(run, 1)
  {
    var s, step := Initial(run.loadedAt, run.config), run.steps[0];
    assert At(run, 0) == s && step.event.Load?;
    FinishingStep(s, run.loadedAt, step);
    ArmingCovers(None, Handle(s, step), step.at, multiset{});
    assert Timers(run, 1) == multiset{} + Arms(Handle(s, step).effects, step.at);
  }

  lemma {:induction false} AlwaysScheduled(run: Run, n: nat)
    requires Hosted(run) && 0 < n <= |run.steps|
    ensures Scheduled(run, n)
  {
    if n == 1 {
      FirstStep(run);
    } else {
      AlwaysScheduled(run, n - 1);
      assert FiresOutstanding(run, n - 1);
      StepPaysDebts(At(run, n - 1), Clock(run, n - 1), Timers(run, n - 1), run.steps[n - 1]);
    }
  }

  /**
    No lost wakeup: after every handler of every run some outstanding host timer comes due no
    later than the earliest of the policy, focus and input deadlines, or the present.
   */
  lemma NoLostWakeup(run: Run, n: nat) returns (t: nat)
    requires Hosted(run) && 0 < n <= |run.steps|
    ensures t in Timers(run, n) && t <= Max(Clock(run, n), Deadline(At(run, n)))
  {
    AlwaysScheduled(run, n);
    t :| t in Timers(run, n) && t <= Max(Clock(run, n), Deadline(At(run, n)));
  }

  // ----- Publication on time -----

  /** When step `i` is delivered, no outstanding timer is overdue by more than the host's latency. */
  predicate OnTime(run: Run, i: nat, latency: nat)
    requires i < |run.steps|
  {
    forall t | t in Timers(run, i) :: run.steps[i].at <= t + latency
  }

  /** From step `m` on no timer is delivered later than `latency` after it came due. */
  predicate PunctualFrom(run: Run, m: nat, latency: nat) {
    forall i | m <= i < |run.steps| :: OnTime(run, i, latency)
  }

  predicate Punctual(run: Run, latency: nat) {
    forall i | 0 <= i < |run.steps| :: OnTime(run, i, latency)
  }

  /** While a change is pending the next event comes within the floor and the host's latency. */
  lemma PendingIsServed(run: Run, n: nat, latency: nat)
    requires Hosted(run) && Punctual(run, latency) && 0 < n < |run.steps|
    requires At(run, n).policy.pendingSince.Some?
    ensures run.steps[n].at <= At(run, n).policy.pendingSince.value + POKE_FLOOR_MS + latency
  {
    AlwaysScheduled(run, n);
    assert OnTime(run, n, latency);
    var p := At(run, n).policy;
    var t :| t in Timers(run, n) && t <= NextWake(p);
    assert NextWake(p) <= ChangeDueAt(p).value <= p.pendingSince.value + POKE_FLOOR_MS;
  }

  /** A pending change dates from the present step or was pending before it. */
  lemma PendingSince(run: Run, n: nat)
    requires Timed(run) && 0 < n <= |run.steps| && At(run, n).policy.pendingSince.Some?
    ensures || At(run, n).policy.pendingSince == Some(Clock(run, n))
            || At(run, n).policy.pendingSince == At(run, n - 1).policy.pendingSince
  {
    var s, step := At(run, n - 1), run.steps[n - 1];
    if Finishes(step.event) {
      FinishingHandler(s, step);
      SeenIsCalm(s, step);
      FinishExtends(Seen(s, step), step.at, step.host);
    } else {
      OtherStep(s, step);
    }
  }

  lemma PendingIsRecent(run: Run, n: nat, latency: nat)
    requires Hosted(run) && Punctual(run, latency) && 0 < n <= |run.steps|
    requires At(run, n).policy.pendingSince.Some?
    ensures Clock(run, n) <= At(run, n).policy.pendingSince.value + POKE_FLOOR_MS + latency
  {
    PendingSince(run, n);
    if At(run, n).policy.pendingSince != Some(Clock(run, n)) {
      assert n > 1 by {
        assert At(run, 0).policy == Fresh(run.loadedAt);
      }
      PendingIsServed(run, n - 1, latency);
    }
  }

  predicate IsChangedWake(e: Effect) {
    e.RunCommand? && e.command.Wake? && e.command.request.ChangedWake?
  }

  predicate WakesChanged(effects: seq<Effect>) {
    exists i | 0 <= i < |effects| :: IsChangedWake(effects[i])
  }

  /** A change that comes due in `finish_update` is published there, if the engine can wake the host at all. */
  lemma DueChangeIsPublished(o: Outcome, now: nat, host: Host)
    requires Changed in DuePokes(o.state.policy, now) && CanWake(o.state, ChangedWake)
    ensures WakesChanged(Finished(o, now, host).effects)
  {
    var start := o.(state := o.state.(policy := Consulted(o.state.policy, now)));
    var changed := Poked(start, Changed, now, host);
    var i := |o.effects|;
    assert changed.effects[i] == WakeEffect(start.state, ChangedWake, now, host);
    var d := DueDispatched(o, now, host);
    assert changed.effects <= d.effects;
    QueryExtends(d, now);
    RearmExtends(QueryDriven(d, now), now);
    assert IsChangedWake(Finished(o, now, host).effects[i]);
  }

  /** Step `j` pokes the change pending before it. */
  predicate PokesChange(run: Run, j: nat)
    requires j < |run.steps|
  {
    && Finishes(run.steps[j].event) && At(run, j).policy.pendingSince.Some?
    && ChangeFires(At(run, j).policy, run.steps[j].at)
  }

  lemma PendingUnlessPoked(run: Run, j: nat)
    requires Timed(run) && j < |run.steps| && At(run, j).policy.pendingSince.Some? && !PokesChange(run, j)
    ensures At(run, j + 1).policy.pendingSince == At(run, j).policy.pendingSince
  {
    var s, step := At(run, j), run.steps[j];
    if Finishes(step.event) {
      FinishingHandler(s, step);
      SeenIsCalm(s, step);
      FinishExtends(Seen(s, step), step.at, step.host);
    } else {
      OtherStep(s, step);
    }
  }

  /**
    Bounded staleness: with a host that delivers timers within `latency`, a pending change is
    poked no later than 100 ms plus that latency after its signal, and the poke reaches the
    host as a panes-changed wake whenever the engine is granted, unmuted and in a session.
   */
  lemma ChangeReachesHost(run: Run, n: nat, latency: nat) returns (j: nat)
    requires Hosted(run) && Punctual(run, latency) && 0 < n <= |run.steps|
    requires At(run, n).policy.pendingSince.Some?
    requires Clock(run, |run.steps|) > At(run, n).policy.pendingSince.value + POKE_FLOOR_MS + latency
    ensures n <= j < |run.steps| && PokesChange(run, j)
    ensures run.steps[j].at <= At(run, n).policy.pendingSince.value + POKE_FLOOR_MS + latency
    ensures CanWake(Seen(At(run, j), run.steps[j]).state, ChangedWake) ==> WakesChanged(EffectsAt(run, j))
  {
    PendingIsRecent(run, n, latency);
    j := n;
    var since := At(run, n).policy.pendingSince;
    while !PokesChange(run, j)
      invariant n <= j < |run.steps|
      invariant At(run, j).policy.pendingSince == since
      decreases |run.steps| - j
    {
      PendingUnlessPoked(run, j);
      PendingIsServed(run, j, latency);
      j := j + 1;
    }
    PendingIsServed(run, j, latency);
    if CanWake(Seen(At(run, j), run.steps[j]).state, ChangedWake) {
      PokedChangeIsPublished(run, j);
    }
  }

  lemma PokedChangeIsPublished(run: Run, j: nat)
    requires j < |run.steps| && PokesChange(run, j)
    requires CanWake(Seen(At(run, j), run.steps[j]).state, ChangedWake)
    ensures WakesChanged(EffectsAt(run, j))
  {
    var s, step := At(run, j), run.steps[j];
    FinishingHandler(s, step);
    SeenIsCalm(s, step);
    DueChangeIsPublished(Seen(s, step), step.at, step.host);
  }
}
