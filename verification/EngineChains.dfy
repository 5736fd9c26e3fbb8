/** Host timers beyond the one behind the mark: every one is an abandoned timer, and every stale fire takes one away. */
module EngineChains {
  import opened Prelude
  import opened PokePolicy
  import opened ClientFocus
  import opened Room
  import opened Handlers
  import opened EngineRuns
  import opened EngineEffects
  import opened EngineTimers
  import opened EngineProgress

  /** How many timers are outstanding beyond the one the mark stands for. */
  function Spare(timers: multiset<nat>, mark: Option<nat>): int {
    |timers| - if mark.Some? then 1 else 0
  }

  /** A fire before the instant of the mark, or with no mark set. */
  predicate Stale(s: State, step: Step) {
    step.event.Timer? && !Reached(s.armedFor, step.at)
  }

  /** A step that is no fire drops the marked timer: it arms another or forgets the mark. */
  predicate Abandons(s: State, step: Step) {
    && !step.event.Timer? && s.armedFor.Some?
    && (Arms(Handle(s, step).effects, step.at) != multiset{} || Handle(s, step).state.armedFor.None?)
  }

  // ----- One step -----

  /** Rearming leaves one more spare timer exactly when it supersedes a mark. */
  lemma ArmingSpares(mark: Option<nat>, o: Outcome, at: nat, waiting: multiset<nat>)
    requires Armable(mark, o, at)
    ensures Spare(waiting + Arms(o.effects, at), o.state.armedFor) ==
            Spare(waiting, mark) + if mark.Some? && Arms(o.effects, at) != multiset{} then 1 else 0
  {
    if ShouldArm(mark, Deadline(o.state)) {
      assert Max(Deadline(o.state), at) in Arms(o.effects, at);
    }
  }

  lemma FireLeaves(timers: multiset<nat>, due: nat)
    requires due in timers
    ensures |timers - multiset{due}| == |timers| - 1
  {
  }

  /** A fire before the mark's deadline changes no deadline, so it arms nothing. */
  lemma StaleFireArmsNothing(s: State, step: Step)
    requires step.event.Timer? && s.armedFor.Some? && step.at < s.armedFor.value <= Deadline(s) && Attentive(s)
    ensures Arms(Handle(s, step).effects, step.at) == multiset{} && Handle(s, step).state.armedFor == s.armedFor
  {
    EarlyTimer(s, step);
  }

  lemma FireSpares(s: State, clock: nat, timers: multiset<nat>, step: Step)
    requires WellTimed(s.policy, clock) && clock <= step.at && ClockFits(step.at) && Owed(s, clock, timers) && Attentive(s)
    requires step.event.Timer? && step.event.due in timers && step.event.due <= step.at
    ensures var o := Handle(s, step);
            Spare(Waiting(timers, step.event) + Arms(o.effects, step.at), o.state.armedFor) ==
            Spare(timers, s.armedFor) - if Stale(s, step) then 1 else 0
  {
    var waiting := Waiting(timers, step.event);
    FireLeaves(timers, step.event.due);
    FinishingStep(s, clock, step);
    ArmingSpares(Mark(s, step), Handle(s, step), step.at, waiting);
    if Stale(s, step) && s.armedFor.Some? {
      StaleFireArmsNothing(s, step);
    }
  }

  lemma OtherSpares(s: State, clock: nat, timers: multiset<nat>, step: Step)
    requires WellTimed(s.policy, clock) && clock <= step.at && ClockFits(step.at) && !step.event.Timer?
    ensures var o := Handle(s, step);
            Spare(timers + Arms(o.effects, step.at), o.state.armedFor) ==
            Spare(timers, s.armedFor) + if Abandons(s, step) then 1 else 0
  {
    var o := Handle(s, step);
    if Finishes(step.event) {
      FinishingStep(s, clock, step);
      ArmingSpares(Mark(s, step), o, step.at, timers);
    } else {
      OtherStep(s, step);
      if Untouched(s, o) {
        CalmArmsNothing(o.effects, step.at);
        assert timers + Arms(o.effects, step.at) == timers;
      } else {
        ArmingSpares(Mark(s, step), o, step.at, timers);
      }
    }
  }

  // ----- Whole runs -----

  function SpareAt(run: Run, n: nat): int
    requires n <= |run.steps|
  {
    Spare(Timers(run, n), At(run, n).armedFor)
  }

  predicate StaleAt(run: Run, i: nat)
    requires i < |run.steps|
  {
    Stale(At(run, i), run.steps[i])
  }

  predicate AbandonsAt(run: Run, i: nat)
    requires i < |run.steps|
  {
    Abandons(At(run, i), run.steps[i])
  }

  lemma FirstSpares(run: Run)
    requires Hosted(run) && run.steps != []
    ensures SpareAt(run, 0) == 0 == SpareAt(run, 1) && !AbandonsAt(run, 0) && !StaleAt(run, 0)
  {
    var s, step := Initial(run.loadedAt, run.config), run.steps[0];
    assert At(run, 0) == s && step.event.Load?;
    OtherSpares(s, run.loadedAt, multiset{}, step);
    assert Timers(run, 1) == multiset{} + Arms(Handle(s, step).effects, step.at);
  }

  /**
    A genuine fire keeps the number of spare timers, a stale fire takes one away, and any other
    step adds one if it abandons the marked timer and none otherwise.
   */
  lemma SpareStep(run: Run, n: nat)
    requires Hosted(run) && n < |run.steps|
    ensures SpareAt(run, n + 1) ==
            SpareAt(run, n) + (if AbandonsAt(run, n) then 1 else 0) - if StaleAt(run, n) then 1 else 0
  {
    if n == 0 {
      FirstSpares(run);
    } else {
      AlwaysScheduled(run, n);
      assert FiresOutstanding(run, n);
      if run.steps[n].event.Timer? {
        AlwaysAttentive(run, n);
        FireSpares(At(run, n), Clock(run, n), Timers(run, n), run.steps[n]);
      } else {
        OtherSpares(At(run, n), Clock(run, n), Timers(run, n), run.steps[n]);
      }
    }
  }

  /** The mark's own timer is outstanding, so no fewer than none are spare. */
  lemma SpareIsNatural(run: Run, n: nat)
    requires Hosted(run) && 0 < n <= |run.steps|
    ensures SpareAt(run, n) >= 0
  {
    AlwaysScheduled(run, n);
    var t :| t in Timers(run, n) && t <= Max(Clock(run, n), Deadline(At(run, n)));
    FireLeaves(Timers(run, n), t);
  }

  /** How many of the first `n` flags are set. */
  function Count(flags: seq<bool>, n: nat): nat
    requires n <= |flags|
  {
    if n == 0 then 0 else Count(flags, n - 1) + if flags[n - 1] then 1 else 0
  }

  predicate Balances(spares: seq<int>, gains: seq<bool>, losses: seq<bool>, i: nat)
    requires i < |gains| == |losses| == |spares| - 1
  {
    spares[i + 1] == spares[i] + (if gains[i] then 1 else 0) - if losses[i] then 1 else 0
  }

  lemma {:induction false} Balance(spares: seq<int>, gains: seq<bool>, losses: seq<bool>, n: nat)
    requires n <= |gains| == |losses| == |spares| - 1 && spares[0] == 0
    requires forall i | 0 <= i < n :: Balances(spares, gains, losses, i)
    ensures spares[n] == Count(gains, n) - Count(losses, n)
  {
    if n > 0 {
      Balance(spares, gains, losses, n - 1);
      assert Balances(spares, gains, losses, n - 1);
    }
  }

  lemma BalancePlaced(
    spares: seq<int>, gains: seq<bool>, losses: seq<bool>, i: nat, before: int, after: int, gain: bool, loss: bool
  )
    requires i < |gains| == |losses| == |spares| - 1
    requires spares[i] == before && spares[i + 1] == after && gains[i] == gain && losses[i] == loss
    requires after == before + (if gain then 1 else 0) - if loss then 1 else 0
    ensures Balances(spares, gains, losses, i)
  {
  }

  function Abandonments(run: Run): seq<bool> {
    seq(|run.steps|, i requires 0 <= i < |run.steps| => AbandonsAt(run, i))
  }

  function StaleFires(run: Run): seq<bool> {
    seq(|run.steps|, i requires 0 <= i < |run.steps| => StaleAt(run, i))
  }

  function Spares(run: Run): seq<int> {
    seq(|run.steps| + 1, i requires 0 <= i <= |run.steps| => SpareAt(run, i))
  }

  lemma SpareBalances(run: Run, i: nat)
    requires Hosted(run) && i < |run.steps|
    ensures Balances(Spares(run), Abandonments(run), StaleFires(run), i)
  {
    SpareStep(run, i);
    BalancePlaced(Spares(run), Abandonments(run), StaleFires(run), i,
                  SpareAt(run, i), SpareAt(run, i + 1), AbandonsAt(run, i), StaleAt(run, i));
  }

  lemma SparesStart(run: Run)
    ensures Spares(run)[0] == 0
  {
  }

  lemma SparesBalance(run: Run, n: nat)
    requires Hosted(run) && n <= |run.steps|
    ensures Spares(run)[n] == Count(Abandonments(run), n) - Count(StaleFires(run), n)
  {
    forall i | 0 <= i < n ensures Balances(Spares(run), Abandonments(run), StaleFires(run), i) {
      SpareBalances(run, i);
    }
    SparesStart(run);
    Balance(Spares(run), Abandonments(run), StaleFires(run), n);
  }

  /**
    Timer chains collapse: after any run the spare timers are the timers abandoned less the stale
    fires, so stale fires never outnumber abandoned timers and no chain of fires feeds itself.
   */
  lemma ChainsCollapse(run: Run, n: nat)
    requires Hosted(run) && 0 < n <= |run.steps|
    ensures SpareAt(run, n) == Count(Abandonments(run), n) - Count(StaleFires(run), n)
    ensures Count(StaleFires(run), n) <= Count(Abandonments(run), n)
    ensures |Timers(run, n)| <= 1 + Count(Abandonments(run), n) - Count(StaleFires(run), n)
  {
    SparesBalance(run, n);
    SpareIsNatural(run, n);
  }
}
