/** What the poke policy guarantees over every run of signals and consultations. */
module PokeSchedule {
  import opened Prelude
  import opened PokePolicy

  datatype Op = Signal(at: nat) | Consult(at: nat)

  function Step(p: Schedule, op: Op): Schedule {
    match op
    case Signal(at) => Signalled(p, at)
    case Consult(at) => Consulted(p, at)
  }

  /** The schedule after the first `n` ops of a run that started with `PokePolicy::new(t0)`. */
  function At(t0: nat, ops: seq<Op>, n: nat): Schedule
    requires n <= |ops|
  {
    if n == 0 then Fresh(t0) else Step(At(t0, ops, n - 1), ops[n - 1])
  }

  function Clock(t0: nat, ops: seq<Op>, n: nat): nat
    requires n <= |ops|
  {
    if n == 0 then t0 else ops[n - 1].at
  }

  /** The clock never runs backwards and stays inside 64 bits. */
  predicate Timed(t0: nat, ops: seq<Op>) {
    && ClockFits(t0)
    && (forall i | 0 <= i < |ops| :: t0 <= ops[i].at && ClockFits(ops[i].at))
    && (forall i, j | 0 <= i <= j < |ops| :: ops[i].at <= ops[j].at)
  }

  /** Op `i` pokes for a pending change. */
  predicate ChangePoke(t0: nat, ops: seq<Op>, i: nat)
    requires i < |ops|
  {
    ops[i].Consult? && ChangeFires(At(t0, ops, i), ops[i].at)
  }

  /** Op `i` is the settle follow-up. */
  predicate SettlePoke(t0: nat, ops: seq<Op>, i: nat)
    requires i < |ops|
  {
    ops[i].Consult? && SettleFires(At(t0, ops, i), ops[i].at)
  }

  /** Op `i` runs `rimz sidebar wake --reason panes-changed`. */
  predicate ChangedPoke(t0: nat, ops: seq<Op>, i: nat)
    requires i < |ops|
  {
    ops[i].Consult? && Changed in DuePokes(At(t0, ops, i), ops[i].at)
  }

  lemma {:induction false} AlwaysWellTimed(t0: nat, ops: seq<Op>, n: nat)
    requires Timed(t0, ops) && n <= |ops|
    ensures WellTimed(At(t0, ops, n), Clock(t0, ops, n))
  {
    if n > 0 {
      AlwaysWellTimed(t0, ops, n - 1);
      var before, clock, at := At(t0, ops, n - 1), Clock(t0, ops, n - 1), ops[n - 1].at;
      SignalKeepsTiming(before, clock, at);
      ConsultMeetsWakeTime(before, clock, at);
    }
  }

  /** A later schedule remembers every earlier panes-changed poke in its floor. */
  lemma {:induction false} PokeRemembered(t0: nat, ops: seq<Op>, i: nat, n: nat)
    requires Timed(t0, ops) && i < n <= |ops| && ChangedPoke(t0, ops, i)
    ensures At(t0, ops, n).lastChangedPoke.Some?
    ensures ops[i].at <= At(t0, ops, n).lastChangedPoke.value
    decreases n
  {
    if i < n - 1 {
      PokeRemembered(t0, ops, i, n - 1);
    }
  }

  /** Two panes-changed pokes are never closer than the floor. */
  lemma PokesKeepTheFloor(t0: nat, ops: seq<Op>, i: nat, j: nat)
    requires Timed(t0, ops) && i < j < |ops|
    requires ChangedPoke(t0, ops, i) && ChangedPoke(t0, ops, j)
    ensures ops[i].at + POKE_FLOOR_MS <= ops[j].at
  {
    PokeRemembered(t0, ops, i, j);
    AlwaysWellTimed(t0, ops, j);
  }

  /** `due` answers with pokes exactly from the announced wake time on, and leaves none due, at every point of every run. */
  lemma WakeTimeIsExact(t0: nat, ops: seq<Op>, i: nat)
    requires Timed(t0, ops) && i < |ops| && ops[i].Consult?
    ensures DuePokes(At(t0, ops, i), ops[i].at) != [] <==> ops[i].at >= NextWake(At(t0, ops, i))
    ensures NextWake(At(t0, ops, i + 1)) > ops[i].at
    ensures DuePokes(At(t0, ops, i + 1), ops[i].at) == []
  {
    AlwaysWellTimed(t0, ops, i);
    ConsultMeetsWakeTime(At(t0, ops, i), Clock(t0, ops, i), ops[i].at);
  }

  // ----- Timeliness: the policy is consulted at each wake time -----

  /** Op `i` does not overshoot the wake time announced before it. */
  predicate OnTime(t0: nat, ops: seq<Op>, i: nat)
    requires i < |ops|
  {
    ops[i].at <= NextWake(At(t0, ops, i))
  }

  predicate Prompt(t0: nat, ops: seq<Op>) {
    forall i | 0 <= i < |ops| :: OnTime(t0, ops, i)
  }

  /** Until its poke comes, a signal stays pending with a due time inside the floor. */
  lemma {:induction false} SignalStaysDue(t0: nat, ops: seq<Op>, i: nat, n: nat)
    requires Timed(t0, ops) && i < n <= |ops| && ops[i].Signal?
    requires forall j | i < j < n :: !ChangePoke(t0, ops, j)
    ensures ChangeDueAt(At(t0, ops, n)).Some?
    ensures ChangeDueAt(At(t0, ops, n)).value <= ops[i].at + POKE_FLOOR_MS
    decreases n
  {
    AlwaysWellTimed(t0, ops, n - 1);
    if i < n - 1 {
      SignalStaysDue(t0, ops, i, n - 1);
      assert !ChangePoke(t0, ops, n - 1);
    }
  }

  lemma DueBeforeFloor(t0: nat, ops: seq<Op>, i: nat, n: nat)
    requires Timed(t0, ops) && Prompt(t0, ops) && i < n < |ops| && ops[i].Signal?
    requires forall j | i < j < n :: !ChangePoke(t0, ops, j)
    ensures ops[i].at <= ops[n].at <= ops[i].at + POKE_FLOOR_MS
  {
    SignalStaysDue(t0, ops, i, n);
    assert OnTime(t0, ops, n);
  }

  /** Every signal is poked within the floor, in every run that consults on time and outlives it. */
  lemma SignalPokedWithinFloor(t0: nat, ops: seq<Op>, i: nat) returns (j: nat)
    requires Timed(t0, ops) && Prompt(t0, ops) && i < |ops| && ops[i].Signal?
    requires Clock(t0, ops, |ops|) > ops[i].at + POKE_FLOOR_MS
    ensures i < j < |ops| && ChangePoke(t0, ops, j)
    ensures ops[i].at <= ops[j].at <= ops[i].at + POKE_FLOOR_MS
  {
    j := i + 1;
    while j < |ops| && !ChangePoke(t0, ops, j)
      invariant i < j <= |ops|
      invariant forall k | i < k < j :: !ChangePoke(t0, ops, k)
      invariant Clock(t0, ops, j) <= ops[i].at + POKE_FLOOR_MS
    {
      DueBeforeFloor(t0, ops, i, j);
      j := j + 1;
    }
    DueBeforeFloor(t0, ops, i, j);
  }

  /** Until the next change or settle poke, the settle deadline of change poke `i` stands. */
  lemma {:induction false} SettleStands(t0: nat, ops: seq<Op>, i: nat, n: nat)
    requires i < n <= |ops| && ChangePoke(t0, ops, i)
    requires forall j | i < j < n :: !ChangePoke(t0, ops, j) && !SettlePoke(t0, ops, j)
    ensures At(t0, ops, n).settleDueAt == Some(ops[i].at + SETTLE_POKE_MS)
    decreases n
  {
    if i < n - 1 {
      SettleStands(t0, ops, i, n - 1);
      assert !ChangePoke(t0, ops, n - 1) && !SettlePoke(t0, ops, n - 1);
    }
  }

  lemma SettleBeforeWindowEnds(t0: nat, ops: seq<Op>, i: nat, n: nat)
    requires Timed(t0, ops) && Prompt(t0, ops) && i < n < |ops| && ChangePoke(t0, ops, i)
    requires forall j | i < j < n :: !ChangePoke(t0, ops, j) && !SettlePoke(t0, ops, j)
    ensures ops[n].at <= ops[i].at + SETTLE_POKE_MS
    ensures SettlePoke(t0, ops, n) ==> ops[n].at == ops[i].at + SETTLE_POKE_MS
    ensures ChangePoke(t0, ops, n) ==> ops[i].at + POKE_FLOOR_MS <= ops[n].at
  {
    SettleStands(t0, ops, i, n);
    assert OnTime(t0, ops, n);
    if ChangePoke(t0, ops, n) {
      PokesKeepTheFloor(t0, ops, i, n);
    }
  }

  /**
    Every change poke is followed by another change poke inside the settle window or by a
    settle poke exactly at its end: a burst closes with one settle poke 250 ms after its
    last change poke.
   */
  lemma BurstSettles(t0: nat, ops: seq<Op>, i: nat) returns (j: nat)
    requires Timed(t0, ops) && Prompt(t0, ops) && i < |ops| && ChangePoke(t0, ops, i)
    requires Clock(t0, ops, |ops|) > ops[i].at + SETTLE_POKE_MS
    ensures i < j < |ops|
    ensures || (ChangePoke(t0, ops, j) && ops[i].at + POKE_FLOOR_MS <= ops[j].at <= ops[i].at + SETTLE_POKE_MS)
            || (SettlePoke(t0, ops, j) && ops[j].at == ops[i].at + SETTLE_POKE_MS)
    ensures forall k | i < k < j :: !ChangePoke(t0, ops, k) && !SettlePoke(t0, ops, k)
  {
    j := i + 1;
    while j < |ops| && !ChangePoke(t0, ops, j) && !SettlePoke(t0, ops, j)
      invariant i < j <= |ops|
      invariant forall k | i < k < j :: !ChangePoke(t0, ops, k) && !SettlePoke(t0, ops, k)
      invariant Clock(t0, ops, j) <= ops[i].at + SETTLE_POKE_MS
    {
      SettleBeforeWindowEnds(t0, ops, i, j);
      j := j + 1;
    }
    SettleBeforeWindowEnds(t0, ops, i, j);
  }
}
