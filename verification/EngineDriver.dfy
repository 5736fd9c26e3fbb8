/** The engine object driven through a whole run, and what the run theorems say of the object. */
module EngineDriver {
  import opened Prelude
  import opened PokePolicy
  import opened ClientFocus
  import opened Room
  import opened Handlers
  import opened EngineRuns
  import opened EngineFocus
  import opened EngineWakes
  import opened EngineFence
  import opened PluginEngine
  import EngineTimers

  /** What was seen of the object: its state before and after each event, and the effects it returned. */
  datatype Record = Record(views: seq<State>, log: seq<seq<Effect>>)

  predicate Stepped(run: Run, record: Record, i: nat)
    requires i < |run.steps| && |record.views| > i + 1 && |record.log| > i
  {
    Outcome(record.views[i + 1], record.log[i]) == EngineRuns.Handle(record.views[i], run.steps[i])
  }

  /** The first `n` events of the run took the object through the recorded states. */
  predicate Follows(run: Run, record: Record, n: nat)
    requires n <= |run.steps|
  {
    && |record.views| == n + 1 && |record.log| == n && record.views[0] == Initial(run.loadedAt, run.config)
    && forall i | 0 <= i < n :: Stepped(run, record, i)
  }

  /** State `i + 1` comes of state `i` by step `i`. */
  predicate Walks(views: seq<State>, steps: seq<Step>, i: nat)
    requires i < |steps| && i + 1 < |views|
  {
    views[i + 1] == EngineRuns.Handle(views[i], steps[i]).state
  }

  predicate WalksUpto(views: seq<State>, steps: seq<Step>, n: nat) {
    n <= |steps| && n < |views| && forall i | 0 <= i < n :: Walks(views, steps, i)
  }

  lemma SameWalk(a: seq<State>, b: seq<State>, steps: seq<Step>, i: nat)
    requires i < |steps| && i + 1 < |a| && i + 1 < |b| && Walks(a, steps, i) && Walks(b, steps, i) && a[i] == b[i]
    ensures a[i + 1] == b[i + 1]
  {
  }

  lemma {:induction false} WalksAgree(a: seq<State>, b: seq<State>, steps: seq<Step>, n: nat)
    requires WalksUpto(a, steps, n) && WalksUpto(b, steps, n) && a[0] == b[0]
    ensures a[n] == b[n]
  {
    if n > 0 {
      WalksAgree(a, b, steps, n - 1);
      assert Walks(a, steps, n - 1) && Walks(b, steps, n - 1);
      SameWalk(a, b, steps, n - 1);
    }
  }

  function RunStates(run: Run): seq<State> {
    seq(|run.steps| + 1, i requires 0 <= i <= |run.steps| => At(run, i))
  }

  lemma RunWalks(run: Run, i: nat)
    requires i < |run.steps|
    ensures Walks(RunStates(run), run.steps, i)
  {
    var before, after := At(run, i), At(run, i + 1);
    assert RunStates(run)[i] == before && RunStates(run)[i + 1] == after;
    WalkPlaced(RunStates(run), run.steps, i, before, after);
  }

  lemma WalkPlaced(views: seq<State>, steps: seq<Step>, i: nat, before: State, after: State)
    requires i < |steps| && i + 1 < |views| && views[i] == before && views[i + 1] == after
    requires after == EngineRuns.Handle(before, steps[i]).state
    ensures Walks(views, steps, i)
  {
  }

  lemma RunStarts(run: Run, m: nat)
    requires m <= |run.steps|
    ensures RunStates(run)[0] == Initial(run.loadedAt, run.config) && RunStates(run)[m] == At(run, m)
  {
  }

  lemma ViewsAreRun(run: Run, record: Record, n: nat, m: nat)
    requires m <= n <= |run.steps| && Follows(run, record, n)
    ensures record.views[m] == At(run, m)
  {
    forall i | 0 <= i < m ensures Walks(record.views, run.steps, i) && Walks(RunStates(run), run.steps, i) {
      assert Stepped(run, record, i);
      RunWalks(run, i);
    }
    RunStarts(run, m);
    WalksAgree(record.views, RunStates(run), run.steps, m);
  }

  lemma LogIsRun(run: Run, record: Record, i: nat)
    requires i < |run.steps| && Follows(run, record, |run.steps|)
    ensures record.log[i] == EffectsAt(run, i)
  {
    ViewsAreRun(run, record, |run.steps|, i);
    assert Stepped(run, record, i);
  }

  /** The timers the host holds once the first `n` events of the record are handled. */
  function HostTimers(run: Run, log: seq<seq<Effect>>, n: nat): multiset<nat>
    requires n <= |run.steps| && n <= |log|
  {
    if n == 0 then multiset{}
    else EngineTimers.Waiting(HostTimers(run, log, n - 1), run.steps[n - 1].event) + Arms(log[n - 1], run.steps[n - 1].at)
  }

  predicate TimersFrom(run: Run, timers: seq<multiset<nat>>, log: seq<seq<Effect>>, i: nat)
    requires i < |run.steps| && i < |log| && i + 1 < |timers|
  {
    timers[i + 1] == EngineTimers.Waiting(timers[i], run.steps[i].event) + Arms(log[i], run.steps[i].at)
  }

  /** Timers that follow from the log step by step are those the host holds. */
  lemma {:induction false} HostTimersAre(run: Run, timers: seq<multiset<nat>>, log: seq<seq<Effect>>, n: nat)
    requires |timers| == |run.steps| + 1 == |log| + 1 && timers[0] == multiset{} && n <= |run.steps|
    requires forall i | 0 <= i < |run.steps| :: TimersFrom(run, timers, log, i)
    ensures HostTimers(run, log, n) == timers[n]
  {
    if n > 0 {
      HostTimersAre(run, timers, log, n - 1);
      assert TimersFrom(run, timers, log, n - 1);
    }
  }

  function RunTimers(run: Run): seq<multiset<nat>> {
    seq(|run.steps| + 1, i requires 0 <= i <= |run.steps| => Timers(run, i))
  }

  lemma RunTimersFrom(run: Run, log: seq<seq<Effect>>, i: nat)
    requires i < |run.steps| == |log| && log[i] == EffectsAt(run, i)
    ensures TimersFrom(run, RunTimers(run), log, i)
  {
    var before, after := Timers(run, i), Timers(run, i + 1);
    assert after == EngineTimers.Waiting(before, run.steps[i].event) + Arms(log[i], run.steps[i].at) by {
      NextTimers(run, i, log[i]);
    }
    TimersPlaced(run, RunTimers(run), log, i, before, after);
  }

  lemma NextTimers(run: Run, n: nat, effects: seq<Effect>)
    requires n < |run.steps| && effects == EffectsAt(run, n)
    ensures Timers(run, n + 1) ==
            EngineTimers.Waiting(Timers(run, n), run.steps[n].event) + Arms(effects, run.steps[n].at)
  {
  }

  lemma TimersPlaced(
    run: Run, timers: seq<multiset<nat>>, log: seq<seq<Effect>>, i: nat, before: multiset<nat>, after: multiset<nat>
  )
    requires i < |run.steps| && i < |log| && i + 1 < |timers| && timers[i] == before && timers[i + 1] == after
    requires after == EngineTimers.Waiting(before, run.steps[i].event) + Arms(log[i], run.steps[i].at)
    ensures TimersFrom(run, timers, log, i)
  {
  }

  lemma TimersAreRun(run: Run, record: Record, n: nat)
    requires Follows(run, record, |run.steps|) && n <= |run.steps|
    ensures HostTimers(run, record.log, n) == Timers(run, n)
  {
    forall i | 0 <= i < |run.steps| ensures TimersFrom(run, RunTimers(run), record.log, i) {
      LogIsRun(run, record, i);
      RunTimersFrom(run, record.log, i);
    }
    HostTimersAre(run, RunTimers(run), record.log, n);
  }

  method Drive(run: Run) returns (engine: Engine, record: Record)
    requires Timed(run)
    ensures fresh(engine)
    ensures Follows(run, record, |run.steps|) && engine.View() == record.views[|run.steps|]
    ensures Hosted(run) ==> forall n | 0 < n <= |run.steps| :: Covered(run, record, n)
  {
    engine := new Engine(run.loadedAt, run.config);
    var views, log := [engine.View()], [];
    for i := 0 to |run.steps|
      invariant fresh(engine) && fresh(engine.policy) && fresh(engine.room) && fresh(engine.focus) && fresh(engine.gate)
      invariant Follows(run, Record(views, log), i) && views[i] == engine.View()
    {
      ghost var before := Record(views, log);
      var effects := engine.Handle(run.steps[i]);
      views, log := views + [engine.View()], log + [effects];
      FollowsNext(run, before, i, Outcome(engine.View(), effects));
    }
    record := Record(views, log);
    if Hosted(run) {
      AllCovered(run, record);
    }
  }

  lemma AllCovered(run: Run, record: Record)
    requires Hosted(run) && Follows(run, record, |run.steps|)
    ensures forall n | 0 < n <= |run.steps| :: Covered(run, record, n)
  {
    forall n | 0 < n <= |run.steps| ensures Covered(run, record, n) {
      ObjectIsCovered(run, record, n);
    }
  }

  lemma FollowsNext(run: Run, record: Record, i: nat, o: Outcome)
    requires i < |run.steps| && Follows(run, record, i) && o == EngineRuns.Handle(record.views[i], run.steps[i])
    ensures Follows(run, Record(record.views + [o.state], record.log + [o.effects]), i + 1)
  {
    var next := Record(record.views + [o.state], record.log + [o.effects]);
    forall j | 0 <= j < i + 1 ensures Stepped(run, next, j) {
      if j < i {
        assert Stepped(run, record, j);
      }
    }
  }

  // ----- What holds of the object -----

  /** Some timer the object has armed comes due by its next deadline, or by now. */
  predicate Covered(run: Run, record: Record, n: nat)
    requires n <= |run.steps| && |record.views| > n && |record.log| >= n
  {
    exists t | t in HostTimers(run, record.log, n) :: t <= Max(Clock(run, n), Deadline(record.views[n]))
  }

  /** No event of a run the host drives leaves the object without a timer. */
  lemma ObjectIsCovered(run: Run, record: Record, n: nat)
    requires Hosted(run) && Follows(run, record, |run.steps|) && 0 < n <= |run.steps|
    ensures Covered(run, record, n)
  {
    var t := EngineTimers.NoLostWakeup(run, n);
    ViewsAreRun(run, record, |run.steps|, n);
    TimersAreRun(run, record, n);
  }

  /** The settled wakes the object returns carry strictly increasing generations. */
  lemma ObjectSettlesInOrder(run: Run, record: Record, i: nat, k: nat, j: nat, l: nat)
    requires Timed(run) && Follows(run, record, |run.steps|) && SwitchCount(run, |run.steps|) < GENERATIONS
    requires i < j < |run.steps| && k < |record.log[i]| && l < |record.log[j]|
    requires IsSettledWake(record.log[i][k]) && IsSettledWake(record.log[j][l])
    ensures record.log[i][k].command.request.generation < record.log[j][l].command.request.generation
  {
    LogIsRun(run, record, i);
    LogIsRun(run, record, j);
    SettledWakesIncrease(run, i, k, j, l);
  }

  /** The object reports a tab switch at most once. */
  lemma ObjectReportsOnce(run: Run, record: Record, i: nat, k: nat, j: nat, l: nat)
    requires Timed(run) && Follows(run, record, |run.steps|) && SwitchCount(run, |run.steps|) < GENERATIONS
    requires i < |run.steps| && j < |run.steps| && k < |record.log[i]| && l < |record.log[j]|
    requires IsSettledWake(record.log[i][k]) && IsSettledWake(record.log[j][l])
    requires record.log[i][k].command.request.generation == record.log[j][l].command.request.generation
    ensures i == j && k == l
  {
    LogIsRun(run, record, i);
    LogIsRun(run, record, j);
    SwitchReportedOnce(run, i, k, j, l);
  }

  /** The writer fences the object passed through. */
  function ObjectFences(record: Record): seq<Fence> {
    seq(|record.views|, i requires 0 <= i < |record.views| => FenceOf(record.views[i]))
  }

  lemma ObjectFencesMove(run: Run, record: Record)
    requires Follows(run, record, |run.steps|)
    ensures FenceRun(ObjectFences(record), Events(run))
  {
    forall i | 0 <= i < |run.steps| ensures Moves(ObjectFences(record), Events(run), i) {
      assert Stepped(run, record, i);
      ObjectMoves(record.views[i], run.steps[i], record.views[i + 1]);
      Placed(ObjectFences(record), Events(run), i, FenceOf(record.views[i]), run.steps[i].event, FenceOf(record.views[i + 1]));
    }
  }

  lemma ObjectMoves(s: State, step: Step, t: State)
    requires t == EngineRuns.Handle(s, step).state
    ensures FenceMoves(FenceOf(s), step.event, FenceOf(t))
  {
    FenceStep(s, step);
  }

  /** A command result mutes the object only as the third rejection newer than every accepted publication. */
  lemma ObjectMuteNeedsThree(run: Run, record: Record, c: nat) returns (a: nat, b: nat)
    requires Follows(run, record, |run.steps|) && c < |run.steps| && run.steps[c].event.CommandResult?
    requires !record.views[c].muted && record.views[c + 1].muted
    ensures a < b < c
    ensures RejectionAt(Events(run), a, c) && RejectionAt(Events(run), b, c) && RejectionAt(Events(run), c, c)
    ensures forall i | a <= i <= c :: !ClearsAt(ObjectFences(record), Events(run), i)
  {
    ObjectFencesMove(run, record);
    a, b := MutingStreak(ObjectFences(record), Events(run), c);
  }

  /** From a mute to the next acceptance or dump nothing the object returns carries topology or asks for clients. */
  lemma ObjectIsSilent(run: Run, record: Record, i: nat, k: nat)
    requires Follows(run, record, |run.steps|) && i < |run.steps| && k < |record.log[i]|
    requires Silenced(record.views[i], run.steps[i])
    ensures record.views[i + 1].muted
    ensures var e := record.log[i][k];
            !CarriesTopology(e) && !e.ListClients? && (e.RunCommand? ==> e.topologyIssuedAt.None?)
  {
    assert Stepped(run, record, i);
    SilentStep(record.views[i], run.steps[i], k);
  }

  /** A published client sample of the object answers a query asked after every roster invalidation so far. */
  lemma ObjectClientsAreFresh(run: Run, record: Record, i: nat, k: nat) returns (q: nat, r: nat)
    requires Timed(run) && EngineFocus.F.AskedHost(TraceOf(run)) && Follows(run, record, |run.steps|) && i < |run.steps|
    requires forall j | 0 <= j <= i :: Uncrossed(run, j)
    requires k < |record.log[i]| && CarriesTopology(record.log[i][k])
    requires record.log[i][k].command.topology.value.clients.Some?
    ensures q < r < |TraceOf(run)| && EngineFocus.F.AsksAt(TraceOf(run), q) && TraceOf(run)[r].Reply?
    ensures record.log[i][k].command.topology.value.clients == Some(Views(TraceOf(run)[r].clients))
    ensures forall m | 0 <= m < StartOf(run, i) && m < |TraceOf(run)| && TraceOf(run)[m].Invalidate? :: m < q
  {
    LogIsRun(run, record, i);
    var n;
    n, q, r := PublishedClientsAreFresh(run, i, k);
  }
}
