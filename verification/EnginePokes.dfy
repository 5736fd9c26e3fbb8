/** The panes-changed wakes of a run: never closer than the floor, and a burst of them ends with a further one. */
module EnginePokes {
  import opened Prelude
  import opened PokePolicy
  import opened ClientFocus
  import opened Room
  import opened Handlers
  import opened EngineRuns
  import opened EngineEffects
  import opened EngineTimers
  import RoomHash

  predicate Unpoked(effects: seq<Effect>) {
    forall i | 0 <= i < |effects| :: !IsChangedWake(effects[i])
  }

  // ----- Only `finish_update` sends panes-changed wakes -----

  lemma AliveUnpoked(o: Outcome, now: nat, host: Host)
    requires Unpoked(o.effects)
    ensures Unpoked(Poked(o, Alive, now, host).effects)
  {
  }

  lemma GrantUnpoked(o: Outcome, now: nat, host: Host)
    requires Unpoked(o.effects)
    ensures Unpoked(MarkedGranted(o, now, host).effects)
  {
    if !o.state.granted {
      var first := Reconfigured(o.(state := o.state.(granted := true, focus := Observed(o.state.focus))));
      AliveUnpoked(first, now, host);
    }
  }

  lemma ManifestUnpoked(s: State, digest: RoomHash.Digest, reports: seq<TabReport>, now: nat, host: Host)
    ensures Unpoked(ManifestSeen(s, digest, reports, now, host).effects)
  {
    GrantUnpoked(Outcome(s, []), now, host);
  }

  lemma SessionUnpoked(s: State, connected: Option<nat>, now: nat, host: Host)
    ensures Unpoked(SessionSeen(s, connected, now, host).effects)
  {
    if Attaches(s, connected) {
      GrantUnpoked(Reconfigured(Outcome(s, [])), now, host);
    } else {
      GrantUnpoked(Outcome(s, []), now, host);
    }
  }

  lemma GrantingUnpoked(s: State, step: Step)
    requires ProvesGrant(step.event)
    ensures Unpoked(Seen(s, step).effects)
  {
    match step.event {
      case PermissionGranted => GrantUnpoked(Outcome(s, [HideSelf]), step.at, step.host);
      case PaneManifest(digest, reports) => ManifestUnpoked(s, digest, reports, step.at, step.host);
      case SessionUpdate(connected) => SessionUnpoked(s, connected, step.at, step.host);
      case _ => GrantUnpoked(Outcome(s, []), step.at, step.host);
    }
  }

  lemma ReplyUnpoked(s: State, clients: seq<ClientView>, now: nat, host: Host)
    ensures Unpoked(ClientsSeen(s, clients, now, host).effects)
  {
    ClientsSettle(s, clients, now, host);
  }

  lemma InputUnpoked(o: Outcome, now: nat)
    requires Unpoked(o.effects)
    ensures Unpoked(InputPublished(o, now).effects)
  {
  }

  lemma SeenUnpoked(s: State, step: Step)
    requires Finishes(step.event)
    ensures Unpoked(Seen(s, step).effects)
  {
    if ProvesGrant(step.event) {
      GrantingUnpoked(s, step);
    } else if step.event.ClientsListed? {
      ReplyUnpoked(s, step.event.clients, step.at, step.host);
    } else if step.event.Timer? {
      InputUnpoked(Outcome(s.(armedFor := Fired(s.armedFor, step.at)), []), step.at);
    }
  }

  lemma RearmUnpoked(o: Outcome, now: nat)
    requires Unpoked(o.effects)
    ensures Unpoked(Rearmed(o, now).effects)
  {
  }

  lemma UserUnpoked(s: State, step: Step)
    requires step.event.UserAction?
    ensures Unpoked(Handle(s, step).effects)
  {
    var o := Outcome(s.(pendingInput := Some(step.at)), []);
    InputUnpoked(o, step.at);
    RearmUnpoked(InputPublished(o, step.at), step.at);
  }

  lemma DumpUnpoked(s: State, now: nat, host: Host)
    ensures Unpoked(AfterDumpTopologyPipe(s, now, host).effects)
  {
    var revived := Revived(s, now);
    var o := Poked(Outcome(revived.(room := Probed(revived.room, host.pids)), []), Alive, now, host);
    AliveUnpoked(Outcome(revived.(room := Probed(revived.room, host.pids)), []), now, host);
    QueryExtends(o, now);
    RearmUnpoked(QueryDriven(o, now), now);
  }

  lemma ResultUnpoked(s: State, step: Step)
    requires step.event.CommandResult? && !Accepts(step.event)
    ensures Unpoked(Handle(s, step).effects)
  {
    var exitCode, issuedAt := step.event.exitCode, step.event.issuedAt;
    if issuedAt.Some? && exitCode == Some(STALE_WRITER_EXIT_CODE) {
      assert Handle(s, step) == Outcome(Rejected(s, issuedAt.value), []);
    } else if exitCode != Some(0) {
      assert Handle(s, step) == Failed(s, step.at, step.host);
      AliveUnpoked(Outcome(s.(config := s.config.(rimzBin := None), wakeForkFailures := 0), []), step.at, step.host);
    } else {
      assert Handle(s, step) == Outcome(s.(wakeForkFailures := 0), []);
    }
  }

  lemma OtherUnpoked(s: State, step: Step)
    requires !Finishes(step.event)
    ensures Unpoked(Handle(s, step).effects)
  {
    if step.event.UserAction? {
      UserUnpoked(s, step);
    } else if step.event.DumpTopologyPipe? {
      DumpUnpoked(s, step.at, step.host);
    } else if step.event.CommandResult? {
      ResultUnpoked(s, step);
    }
  }

  /** Only the wake of a due poke is added, and before anything else. */
  predicate PokesFirst(before: seq<Effect>, after: seq<Effect>, due: bool) {
    before <= after && forall i | |before| <= i < |after| && IsChangedWake(after[i]) :: i == |before| && due
  }

  lemma ChangedPokes(o: Outcome, now: nat, host: Host)
    ensures PokesFirst(o.effects, Poked(o, Changed, now, host).effects, true)
    ensures |Poked(o, Changed, now, host).effects| <= |o.effects| + 1
  {
  }

  lemma AlivePokesFirst(before: seq<Effect>, o: Outcome, now: nat, host: Host, due: bool)
    requires PokesFirst(before, o.effects, due)
    ensures PokesFirst(before, Poked(o, Alive, now, host).effects, due)
  {
  }

  lemma DispatchPokesFirst(o: Outcome, now: nat, host: Host)
    ensures PokesFirst(o.effects, DueDispatched(o, now, host).effects, Changed in DuePokes(o.state.policy, now))
  {
    var pokes := DuePokes(o.state.policy, now);
    var start := o.(state := o.state.(policy := Consulted(o.state.policy, now)));
    ChangedPokes(start, now, host);
    var changed := if Changed in pokes then Poked(start, Changed, now, host) else start;
    AlivePokesFirst(o.effects, changed.(state := changed.state.(focus := Observed(changed.state.focus))), now, host,
                    Changed in pokes);
  }

  lemma FinishPokesFirst(o: Outcome, now: nat, host: Host)
    ensures PokesFirst(o.effects, Finished(o, now, host).effects, Changed in DuePokes(o.state.policy, now))
  {
    DispatchPokesFirst(o, now, host);
    var d := DueDispatched(o, now, host);
    QueryExtends(d, now);
    RearmExtends(QueryDriven(d, now), now);
  }

  /** A panes-changed wake comes from a due poke of `finish_update`, once at most. */
  lemma ChangedWakeIsDue(s: State, step: Step, k: nat)
    requires k < |Handle(s, step).effects| && IsChangedWake(Handle(s, step).effects[k])
    ensures Finishes(step.event) && k == |Seen(s, step).effects| && Changed in DuePokes(Seen(s, step).state.policy, step.at)
  {
    if Finishes(step.event) {
      FinishingHandler(s, step);
      SeenUnpoked(s, step);
      FinishPokesFirst(Seen(s, step), step.at, step.host);
    } else {
      OtherUnpoked(s, step);
    }
  }

  // ----- Polls of the policy -----

  /** What a step does to the policy: signal it, consult it, both or neither. */
  datatype Poll = Poll(at: nat, signals: bool, consults: bool)

  /** The schedule a poll consults. */
  function Asked(p: Schedule, poll: Poll): Schedule {
    if poll.signals then Signalled(p, poll.at) else p
  }

  function Polled(p: Schedule, poll: Poll): Schedule {
    if poll.consults then Consulted(Asked(p, poll), poll.at) else Asked(p, poll)
  }

  /** A panes-changed poke comes due. */
  predicate Pokes(p: Schedule, poll: Poll) {
    poll.consults && Changed in DuePokes(Asked(p, poll), poll.at)
  }

  /** It is the poke of a pending change, not the settle follow-up. */
  predicate PokesPending(p: Schedule, poll: Poll) {
    poll.consults && ChangeFires(Asked(p, poll), poll.at)
  }

  predicate PollAt(policies: seq<Schedule>, polls: seq<Poll>, i: nat)
    requires i < |polls| && |policies| == |polls| + 1
  {
    policies[i + 1] == Polled(policies[i], polls[i])
  }

  predicate PollRun(t0: nat, policies: seq<Schedule>, polls: seq<Poll>) {
    && |policies| == |polls| + 1 && policies[0] == Fresh(t0) && ClockFits(t0)
    && (forall i | 0 <= i < |polls| :: PollAt(policies, polls, i))
    && (forall i | 0 <= i < |polls| :: t0 <= polls[i].at && ClockFits(polls[i].at))
    && (forall i, j | 0 <= i <= j < |polls| :: polls[i].at <= polls[j].at)
  }

  lemma PollKeepsTiming(p: Schedule, clock: nat, poll: Poll)
    requires WellTimed(p, clock) && clock <= poll.at && ClockFits(poll.at)
    ensures WellTimed(Asked(p, poll), poll.at) && WellTimed(Polled(p, poll), poll.at)
  {
    SignalKeepsTiming(p, clock, poll.at);
    ConsultMeetsWakeTime(p, clock, poll.at);
    ConsultMeetsWakeTime(Signalled(p, poll.at), poll.at, poll.at);
  }

  lemma {:induction false} PollsWellTimed(t0: nat, policies: seq<Schedule>, polls: seq<Poll>, n: nat)
    requires PollRun(t0, policies, polls) && n <= |polls|
    ensures WellTimed(policies[n], if n == 0 then t0 else polls[n - 1].at)
  {
    if n > 0 {
      PollsWellTimed(t0, policies, polls, n - 1);
      assert PollAt(policies, polls, n - 1);
      PollKeepsTiming(policies[n - 1], if n == 1 then t0 else polls[n - 2].at, polls[n - 1]);
    }
  }

  lemma PokeLeaves(p: Schedule, poll: Poll)
    ensures Pokes(p, poll) ==> Polled(p, poll).lastChangedPoke == Some(poll.at)
    ensures !Pokes(p, poll) ==> Polled(p, poll).lastChangedPoke == p.lastChangedPoke && Polled(p, poll).settleDueAt == p.settleDueAt
    ensures PokesPending(p, poll) ==> Pokes(p, poll) && Polled(p, poll).settleDueAt == Some(poll.at + SETTLE_POKE_MS)
  {
  }

  lemma {:induction false} PokeStays(t0: nat, policies: seq<Schedule>, polls: seq<Poll>, i: nat, n: nat)
    requires PollRun(t0, policies, polls) && i < n <= |polls| && Pokes(policies[i], polls[i])
    ensures policies[n].lastChangedPoke.Some? && polls[i].at <= policies[n].lastChangedPoke.value
    decreases n
  {
    assert PollAt(policies, polls, n - 1);
    PokeLeaves(policies[n - 1], polls[n - 1]);
    if i < n - 1 {
      PokeStays(t0, policies, polls, i, n - 1);
    }
  }

  /** A poke due after an earlier one is due no sooner than the floor allows. */
  lemma PokeWaits(p: Schedule, clock: nat, poll: Poll, last: nat)
    requires WellTimed(p, clock) && clock <= poll.at && Pokes(p, poll)
    requires p.lastChangedPoke.Some? && last <= p.lastChangedPoke.value
    ensures last + POKE_FLOOR_MS <= poll.at
  {
  }

  lemma PollsKeepFloor(t0: nat, policies: seq<Schedule>, polls: seq<Poll>, i: nat, j: nat)
    requires PollRun(t0, policies, polls) && i < j < |polls|
    requires Pokes(policies[i], polls[i]) && Pokes(policies[j], polls[j])
    ensures polls[i].at + POKE_FLOOR_MS <= polls[j].at
  {
    PokeStays(t0, policies, polls, i, j);
    PollsWellTimed(t0, policies, polls, j);
    PokeWaits(policies[j], polls[j - 1].at, polls[j], polls[i].at);
  }

  /** Until the next poke the settle deadline of a change poke stands. */
  lemma {:induction false} SettleStands(t0: nat, policies: seq<Schedule>, polls: seq<Poll>, i: nat, n: nat)
    requires PollRun(t0, policies, polls) && i < n <= |polls| && PokesPending(policies[i], polls[i])
    requires forall j | i < j < n :: !Pokes(policies[j], polls[j])
    ensures policies[n].settleDueAt == Some(polls[i].at + SETTLE_POKE_MS)
    decreases n
  {
    assert PollAt(policies, polls, n - 1);
    PokeLeaves(policies[n - 1], polls[n - 1]);
    if i < n - 1 {
      SettleStands(t0, policies, polls, i, n - 1);
    }
  }

  /** The poll comes at most `latency` after a settle deadline that stands. */
  predicate Served(policies: seq<Schedule>, polls: seq<Poll>, n: nat, latency: nat)
    requires n < |polls| && |policies| == |polls| + 1
  {
    policies[n].settleDueAt.Some? ==> polls[n].at <= policies[n].settleDueAt.value + latency
  }

  lemma {:induction false} NextPoke(t0: nat, policies: seq<Schedule>, polls: seq<Poll>, i: nat, n: nat, latency: nat)
    returns (j: nat)
    requires PollRun(t0, policies, polls) && i < n <= |polls| && PokesPending(policies[i], polls[i])
    requires (forall m | i < m < |polls| :: Served(policies, polls, m, latency))
    requires forall m | i < m < n :: !Pokes(policies[m], polls[m])
    requires polls[n - 1].at <= polls[i].at + SETTLE_POKE_MS + latency < polls[|polls| - 1].at
    ensures n <= j < |polls| && Pokes(policies[j], polls[j]) && forall m | i < m < j :: !Pokes(policies[m], polls[m])
    ensures polls[j].at <= polls[i].at + SETTLE_POKE_MS + latency
    decreases |polls| - n
  {
    SettleStands(t0, policies, polls, i, n);
    assert Served(policies, polls, n, latency);
    if Pokes(policies[n], polls[n]) {
      j := n;
    } else {
      j := NextPoke(t0, policies, polls, i, n + 1, latency);
    }
  }

  lemma SettleComesDue(p: Schedule, poll: Poll, due: nat)
    requires p.settleDueAt == Some(due) && Pokes(p, poll) && !PokesPending(p, poll)
    ensures due <= poll.at
  {
  }

  lemma BurstEnds(t0: nat, policies: seq<Schedule>, polls: seq<Poll>, i: nat, latency: nat) returns (j: nat)
    requires PollRun(t0, policies, polls) && i < |polls| && PokesPending(policies[i], polls[i])
    requires forall m | i < m < |polls| :: Served(policies, polls, m, latency)
    requires polls[i].at + SETTLE_POKE_MS + latency < polls[|polls| - 1].at
    ensures i < j < |polls| && Pokes(policies[j], polls[j]) && forall m | i < m < j :: !Pokes(policies[m], polls[m])
    ensures polls[i].at + POKE_FLOOR_MS <= polls[j].at <= polls[i].at + SETTLE_POKE_MS + latency
    ensures !PokesPending(policies[j], polls[j]) ==> polls[i].at + SETTLE_POKE_MS <= polls[j].at
  {
    j := NextPoke(t0, policies, polls, i, i + 1, latency);
    PokeLeaves(policies[i], polls[i]);
    PollsKeepFloor(t0, policies, polls, i, j);
    if !PokesPending(policies[j], polls[j]) {
      SettleStands(t0, policies, polls, i, j);
      SettleComesDue(policies[j], polls[j], polls[i].at + SETTLE_POKE_MS);
    }
  }

  // ----- Runs -----

  function PollOf(s: State, step: Step): Poll {
    Poll(step.at, Finishes(step.event) && Seen(s, step).state.policy != s.policy, Finishes(step.event))
  }

  lemma PollStep(s: State, step: Step)
    ensures Handle(s, step).state.policy == Polled(s.policy, PollOf(s, step))
    ensures Finishes(step.event) ==> Seen(s, step).state.policy == Asked(s.policy, PollOf(s, step))
  {
    if Finishes(step.event) {
      FinishingHandler(s, step);
      SeenIsCalm(s, step);
      FinishExtends(Seen(s, step), step.at, step.host);
    } else {
      OtherStep(s, step);
    }
  }

  function Policies(run: Run): seq<Schedule> {
    seq(|run.steps| + 1, i requires 0 <= i <= |run.steps| => At(run, i).policy)
  }

  function Polls(run: Run): seq<Poll> {
    seq(|run.steps|, i requires 0 <= i < |run.steps| => PollOf(At(run, i), run.steps[i]))
  }

  lemma PollPlaced(policies: seq<Schedule>, polls: seq<Poll>, i: nat, before: Schedule, poll: Poll, after: Schedule)
    requires i < |polls| && |policies| == |polls| + 1 && after == Polled(before, poll)
    requires policies[i] == before && polls[i] == poll && policies[i + 1] == after
    ensures PollAt(policies, polls, i)
  {
  }

  lemma StepPolls(run: Run, i: nat)
    requires i < |run.steps|
    ensures PollAt(Policies(run), Polls(run), i)
  {
    var before, poll, after := At(run, i).policy, PollOf(At(run, i), run.steps[i]), At(run, i + 1).policy;
    assert after == Polled(before, poll) by {
      PollStep(At(run, i), run.steps[i]);
    }
    PollPlaced(Policies(run), Polls(run), i, before, poll, after);
  }

  lemma RunPolls(run: Run)
    requires Timed(run)
    ensures PollRun(run.loadedAt, Policies(run), Polls(run))
  {
    forall i | 0 <= i < |run.steps| ensures PollAt(Policies(run), Polls(run), i) {
      StepPolls(run, i);
    }
    FirstPolicy(run);
  }

  lemma FirstPolicy(run: Run)
    ensures Policies(run)[0] == Fresh(run.loadedAt)
  {
  }

  lemma WakePokes(run: Run, i: nat, k: nat)
    requires i < |run.steps| && k < |EffectsAt(run, i)| && IsChangedWake(EffectsAt(run, i)[k])
    ensures Pokes(Policies(run)[i], Polls(run)[i])
  {
    ChangedWakeIsDue(At(run, i), run.steps[i], k);
    PollStep(At(run, i), run.steps[i]);
  }

  /** Two panes-changed wakes of a run are one effect, or at least 100 ms apart. */
  lemma ChangedWakesKeepFloor(run: Run, i: nat, k: nat, j: nat, l: nat)
    requires Timed(run) && i <= j < |run.steps| && k < |EffectsAt(run, i)| && l < |EffectsAt(run, j)|
    requires IsChangedWake(EffectsAt(run, i)[k]) && IsChangedWake(EffectsAt(run, j)[l])
    ensures (i == j && k == l) || run.steps[i].at + POKE_FLOOR_MS <= run.steps[j].at
  {
    if i == j {
      ChangedWakeIsDue(At(run, i), run.steps[i], k);
      ChangedWakeIsDue(At(run, i), run.steps[i], l);
    } else {
      WakePokes(run, i, k);
      WakePokes(run, j, l);
      RunPolls(run);
      PollsKeepFloor(run.loadedAt, Policies(run), Polls(run), i, j);
    }
  }

  predicate PokesAt(run: Run, i: nat)
    requires i < |run.steps|
  {
    Pokes(Policies(run)[i], Polls(run)[i])
  }

  predicate PokesPendingAt(run: Run, i: nat)
    requires i < |run.steps|
  {
    PokesPending(Policies(run)[i], Polls(run)[i])
  }

  lemma PokeIsPublished(run: Run, j: nat)
    requires j < |run.steps| && PokesAt(run, j)
    ensures Finishes(run.steps[j].event)
    ensures CanWake(Seen(At(run, j), run.steps[j]).state, ChangedWake) ==> WakesChanged(EffectsAt(run, j))
  {
    var s, step := At(run, j), run.steps[j];
    PollStep(s, step);
    FinishingHandler(s, step);
    if CanWake(Seen(s, step).state, ChangedWake) {
      DueChangeIsPublished(Seen(s, step), step.at, step.host);
    }
  }

  /** While the settle deadline stands the next event comes by then, but for the host's latency. */
  lemma SettleIsServed(run: Run, n: nat, latency: nat)
    requires Hosted(run) && 0 < n < |run.steps| && OnTime(run, n, latency)
    ensures Served(Policies(run), Polls(run), n, latency)
  {
    AlwaysScheduled(run, n);
    var t :| t in Timers(run, n) && t <= NextWake(At(run, n).policy);
  }

  lemma PollTimes(run: Run)
    ensures forall i | 0 <= i < |run.steps| :: Polls(run)[i].at == run.steps[i].at
  {
  }

  /**
    A burst ends with a further wake: a poke for a pending change is followed by another poke no
    later than 250 ms plus the host's latency and no sooner than the floor; one that is not for a
    new change comes only when the 250 ms are over. It reaches the host whenever the engine is
    granted, unmuted and in a session.
   */
  lemma BurstEndsWithWake(run: Run, i: nat, latency: nat) returns (j: nat)
    requires Hosted(run) && i < |run.steps| && PunctualFrom(run, i + 1, latency) && PokesPendingAt(run, i)
    requires Clock(run, |run.steps|) > run.steps[i].at + SETTLE_POKE_MS + latency
    ensures i < j < |run.steps| && PokesAt(run, j) && Finishes(run.steps[j].event)
    ensures forall n | i < n < j :: !PokesAt(run, n)
    ensures run.steps[i].at + POKE_FLOOR_MS <= run.steps[j].at <= run.steps[i].at + SETTLE_POKE_MS + latency
    ensures !PokesPendingAt(run, j) ==> run.steps[i].at + SETTLE_POKE_MS <= run.steps[j].at
    ensures CanWake(Seen(At(run, j), run.steps[j]).state, ChangedWake) ==> WakesChanged(EffectsAt(run, j))
  {
    RunPolls(run);
    PollTimes(run);
    forall m | i < m < |run.steps| ensures Served(Policies(run), Polls(run), m, latency) {
      assert OnTime(run, m, latency);
      SettleIsServed(run, m, latency);
    }
    j := BurstEnds(run.loadedAt, Policies(run), Polls(run), i, latency);
    PokeIsPublished(run, j);
  }
}
