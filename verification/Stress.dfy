/**
  Workers that claim numbered copies from a shared counter until a shared flag stops them. A run
  interleaves the workers' atomic steps in any order.
 */
module Stress {
  import opened Prelude

  const USIZE: nat := 0x1_0000_0000_0000_0000

  /** How a copy ends: run to its end, stopped by a fatal error, or taken down with its worker. */
  datatype Outcome = Passed | Failed | Errored(kept: bool) | Panicked

  /** Where a worker stands: before the stop test, before the claim, in a copy, or finished. */
  datatype Phase = Testing | Claiming | Running(copy: nat) | Done | Dead

  datatype Batch = Batch(completed: nat, failed: seq<nat>, aborted: seq<nat>, error: Option<nat>)

  datatype Worker = Worker(phase: Phase, batch: Batch)

  datatype State = State(next: nat, stop: bool, workers: seq<Worker>)

  const EMPTY := Batch(0, [], [], None)

  /** One worker's next atomic step; `outcome` matters to a running copy only. */
  datatype Move = Move(worker: nat, outcome: Outcome)

  datatype Run = Run(copies: nat, jobs: nat, moves: seq<Move>)

  function Initial(run: Run): State {
    State(1, false, seq(Min(run.jobs, run.copies), i => Worker(Testing, EMPTY)))
  }

  function EndedBatch(batch: Batch, copy: nat, outcome: Outcome): Batch {
    match outcome
    case Passed => batch.(completed := batch.completed + 1)
    case Failed => batch.(completed := batch.completed + 1, failed := batch.failed + [copy])
    case Errored(kept) => batch.(aborted := if kept then batch.aborted + [copy] else batch.aborted, error := Some(copy))
    case Panicked => batch
  }

  function Act(copies: nat, s: State, move: Move): State
    requires move.worker < |s.workers|
  {
    var w := move.worker;
    var worker := s.workers[w];
    match worker.phase
    case Testing => s.(workers := s.workers[w := worker.(phase := if s.stop then Done else Claiming)])
    case Claiming =>
      s.(next := (s.next + 1) % USIZE,
         workers := s.workers[w := worker.(phase := if s.next > copies then Done else Running(s.next))])
    case Running(copy) =>
      State(s.next, s.stop || move.outcome.Errored?,
            s.workers[w := Worker(if move.outcome.Panicked? then Dead else Testing,
                                  EndedBatch(worker.batch, copy, move.outcome))])
    case Done => s
    case Dead => s
  }

  predicate Legal(run: Run) {
    && 0 < run.copies && 0 < run.jobs && run.copies + run.jobs + 1 < USIZE
    && forall i | 0 <= i < |run.moves| :: run.moves[i].worker < Min(run.jobs, run.copies)
  }

  function At(run: Run, n: nat): (s: State)
    requires Legal(run) && n <= |run.moves|
    ensures |s.workers| == Min(run.jobs, run.copies)
  {
    if n == 0 then Initial(run) else Act(run.copies, At(run, n - 1), run.moves[n - 1])
  }

  function Mover(run: Run, i: nat): Worker
    requires Legal(run) && i < |run.moves|
  {
    At(run, i).workers[run.moves[i].worker]
  }

  /** The copy move `i` starts, if it starts one. */
  function StartAt(run: Run, i: nat): Option<nat>
    requires Legal(run) && i < |run.moves|
  {
    if Mover(run, i).phase.Claiming? && At(run, i).next <= run.copies then Some(At(run, i).next) else None
  }

  /** The copies started in the first `n` moves, in order. */
  function Started(run: Run, n: nat): seq<nat>
    requires Legal(run) && n <= |run.moves|
  {
    if n == 0 then []
    else if StartAt(run, n - 1).Some? then Started(run, n - 1) + [StartAt(run, n - 1).value]
    else Started(run, n - 1)
  }

  function UpTo(k: nat): seq<nat> {
    seq(k, i requires 0 <= i < k => i + 1)
  }

  // ----- Sums over workers -----

  function Sum(workers: seq<Worker>, f: Worker -> nat): nat {
    if workers == [] then 0 else Sum(workers[..|workers| - 1], f) + f(workers[|workers| - 1])
  }

  lemma {:induction false} SumUpdate(workers: seq<Worker>, w: nat, x: Worker, f: Worker -> nat)
    requires w < |workers|
    ensures Sum(workers[w := x], f) + f(workers[w]) == Sum(workers, f) + f(x)
  {
    var init := workers[..|workers| - 1];
    if w == |workers| - 1 {
      assert workers[w := x][..|workers| - 1] == init;
    } else {
      SumUpdate(init, w, x, f);
      assert workers[w := x][..|workers| - 1] == init[w := x];
    }
  }

  lemma {:induction false} SumBound(workers: seq<Worker>, f: Worker -> nat, bound: nat)
    requires forall i | 0 <= i < |workers| :: f(workers[i]) <= bound
    ensures Sum(workers, f) <= bound * |workers|
  {
    if workers != [] {
      SumBound(workers[..|workers| - 1], f, bound);
    }
  }

  lemma {:induction false} SumZero(workers: seq<Worker>, f: Worker -> nat)
    ensures Sum(workers, f) == 0 <==> forall i | 0 <= i < |workers| :: f(workers[i]) == 0
  {
    if workers != [] {
      SumZero(workers[..|workers| - 1], f);
      if Sum(workers, f) == 0 {
        forall i | 0 <= i < |workers| ensures f(workers[i]) == 0 {
          if i < |workers| - 1 {
            assert workers[..|workers| - 1][i] == workers[i];
          }
        }
      }
    }
  }

  /** A move changes a sum by its own worker's share. */
  lemma SumStep(copies: nat, s: State, move: Move, f: Worker -> nat)
    requires move.worker < |s.workers|
    ensures var t := Act(copies, s, move);
            Sum(t.workers, f) + f(s.workers[move.worker]) == Sum(s.workers, f) + f(t.workers[move.worker])
  {
    var t := Act(copies, s, move);
    SumUpdate(s.workers, move.worker, t.workers[move.worker], f);
    assert t.workers == s.workers[move.worker := t.workers[move.worker]];
  }

  function Finishing(): Worker -> nat {
    (worker: Worker) => if worker.phase.Done? || worker.phase.Dead? then 1 else 0
  }

  function InACopy(): Worker -> nat {
    (worker: Worker) => if worker.phase.Running? then 1 else 0
  }

  function InCopy(copy: nat): Worker -> nat {
    (worker: Worker) => if worker.phase == Running(copy) then 1 else 0
  }

  function Completed(): Worker -> nat {
    (worker: Worker) => worker.batch.completed
  }

  // ----- Claims -----

  lemma ClaimExtends(k: nat)
    ensures UpTo(k) + [k + 1] == UpTo(k + 1)
  {
  }

  /** The counter never wraps: past the last copy each claim finishes its worker. */
  lemma ClaimStep(copies: nat, s: State, move: Move)
    requires move.worker < |s.workers| && copies + |s.workers| + 1 < USIZE
    requires s.next <= copies + 1 + Sum(s.workers, Finishing())
    ensures var t := Act(copies, s, move);
            && t.next == s.next + (if s.workers[move.worker].phase.Claiming? then 1 else 0)
            && t.next <= copies + 1 + Sum(t.workers, Finishing())
  {
    SumStep(copies, s, move, Finishing());
    if s.workers[move.worker].phase.Claiming? {
      var full := s.workers[move.worker := Worker(Done, EMPTY)];
      SumUpdate(s.workers, move.worker, Worker(Done, EMPTY), Finishing());
      SumBound(full, Finishing(), 1);
      assert s.next + 1 < USIZE;
    }
  }

  /** The counter and the copies started so far. */
  predicate Counted(run: Run, n: nat)
    requires Legal(run) && n <= |run.moves|
  {
    var s := At(run, n);
    && 1 <= s.next <= run.copies + 1 + Sum(s.workers, Finishing())
    && Started(run, n) == UpTo(Min(s.next - 1, run.copies))
  }

  lemma CountedStep(run: Run, n: nat)
    requires Legal(run) && 0 < n <= |run.moves| && Counted(run, n - 1)
    ensures Counted(run, n)
  {
    var s := At(run, n - 1);
    ClaimStep(run.copies, s, run.moves[n - 1]);
    ClaimExtends(s.next - 1);
  }

  lemma {:induction false} AlwaysCounted(run: Run, n: nat)
    requires Legal(run) && n <= |run.moves|
    ensures Counted(run, n)
  {
    if n > 0 {
      AlwaysCounted(run, n - 1);
      CountedStep(run, n);
    }
  }

  /** No copy runs twice, and the copies run are an initial segment of 1..copies, whatever the interleaving. */
  lemma CopiesStartInOrder(run: Run, n: nat)
    requires Legal(run) && n <= |run.moves|
    ensures exists k | 0 <= k <= run.copies :: Started(run, n) == UpTo(k)
  {
    AlwaysCounted(run, n);
  }

  // ----- Every started copy is running or has ended, exactly once -----

  /** The copy and outcome that move `i` ends, if it ends one. */
  function EndAt(run: Run, i: nat): Option<(nat, Outcome)>
    requires Legal(run) && i < |run.moves|
  {
    if Mover(run, i).phase.Running? then Some((Mover(run, i).phase.copy, run.moves[i].outcome)) else None
  }

  /** The copies that ended in the first `n` moves with their outcomes, in order. */
  function Ended(run: Run, n: nat): seq<(nat, Outcome)>
    requires Legal(run) && n <= |run.moves|
  {
    if n == 0 then []
    else if EndAt(run, n - 1).Some? then Ended(run, n - 1) + [EndAt(run, n - 1).value]
    else Ended(run, n - 1)
  }

  function Occurrences(copies: seq<nat>, copy: nat): nat {
    if copies == [] then 0
    else Occurrences(copies[..|copies| - 1], copy) + if copies[|copies| - 1] == copy then 1 else 0
  }

  function Endings(ended: seq<(nat, Outcome)>, copy: nat): nat {
    if ended == [] then 0
    else Endings(ended[..|ended| - 1], copy) + if ended[|ended| - 1].0 == copy then 1 else 0
  }

  lemma RunningStep(copies: nat, s: State, move: Move, copy: nat)
    requires move.worker < |s.workers|
    ensures var t, phase := Act(copies, s, move), s.workers[move.worker].phase;
            Sum(t.workers, InCopy(copy)) + (if phase == Running(copy) then 1 else 0) ==
            Sum(s.workers, InCopy(copy)) + (if phase.Claiming? && s.next <= copies && s.next == copy then 1 else 0)
  {
    SumStep(copies, s, move, InCopy(copy));
  }

  lemma StartedPush(run: Run, n: nat, copy: nat)
    requires Legal(run) && 0 < n <= |run.moves|
    ensures Occurrences(Started(run, n), copy) ==
            Occurrences(Started(run, n - 1), copy) + if StartAt(run, n - 1) == Some(copy) then 1 else 0
  {
    if StartAt(run, n - 1).Some? {
      assert Started(run, n)[..|Started(run, n)| - 1] == Started(run, n - 1);
    }
  }

  lemma EndedPush(run: Run, n: nat, copy: nat)
    requires Legal(run) && 0 < n <= |run.moves|
    ensures Endings(Ended(run, n), copy) ==
            Endings(Ended(run, n - 1), copy) + if Mover(run, n - 1).phase == Running(copy) then 1 else 0
  {
    if EndAt(run, n - 1).Some? {
      assert Ended(run, n)[..|Ended(run, n)| - 1] == Ended(run, n - 1);
    }
  }

  lemma {:induction false} StartsSplit(run: Run, n: nat, copy: nat)
    requires Legal(run) && n <= |run.moves|
    ensures Occurrences(Started(run, n), copy) ==
            Endings(Ended(run, n), copy) + Sum(At(run, n).workers, InCopy(copy))
  {
    if n == 0 {
      SumZero(Initial(run).workers, InCopy(copy));
    } else {
      StartsSplit(run, n - 1, copy);
      SplitStep(run, n, copy);
    }
  }

  lemma SplitStep(run: Run, n: nat, copy: nat)
    requires Legal(run) && 0 < n <= |run.moves|
    ensures Occurrences(Started(run, n), copy) - Occurrences(Started(run, n - 1), copy) ==
            Endings(Ended(run, n), copy) - Endings(Ended(run, n - 1), copy)
            + Sum(At(run, n).workers, InCopy(copy)) - Sum(At(run, n - 1).workers, InCopy(copy))
  {
    StartedPush(run, n, copy);
    EndedPush(run, n, copy);
    RunningStep(run.copies, At(run, n - 1), run.moves[n - 1], copy);
  }

  lemma {:induction false} UpToOnce(k: nat, copy: nat)
    ensures Occurrences(UpTo(k), copy) == if 1 <= copy <= k then 1 else 0
  {
    if k > 0 {
      UpToOnce(k - 1, copy);
      ClaimExtends(k - 1);
      assert UpTo(k)[..k - 1] == UpTo(k - 1);
    }
  }

  /** Each copy started so far is in exactly one place: one worker runs it, or it ended once. */
  lemma CopiesAccounted(run: Run, n: nat, copy: nat)
    requires Legal(run) && n <= |run.moves|
    ensures Endings(Ended(run, n), copy) + Sum(At(run, n).workers, InCopy(copy)) ==
            if 1 <= copy < At(run, n).next && copy <= run.copies then 1 else 0
  {
    StartsSplit(run, n, copy);
    AlwaysCounted(run, n);
    UpToOnce(Min(At(run, n).next - 1, run.copies), copy);
  }

  // ----- Runs end -----

  /** Work left: four steps for every unclaimed copy, and what the workers still owe. */
  function Owing(): Worker -> nat {
    (worker: Worker) =>
      match worker.phase
      case Testing => 3
      case Claiming => 2
      case Running(_) => 4
      case Done => 0
      case Dead => 0
  }

  function WorkLeft(copies: nat, s: State): nat {
    4 * SatSub(copies + 1, s.next) + Sum(s.workers, Owing())
  }

  /** The moves among the first `n` made by an unfinished worker. */
  function Effective(run: Run, n: nat): nat
    requires Legal(run) && n <= |run.moves|
  {
    if n == 0 then 0 else Effective(run, n - 1) + if Finishing()(Mover(run, n - 1)) == 0 then 1 else 0
  }

  lemma WorkStep(copies: nat, s: State, move: Move)
    requires move.worker < |s.workers| && copies + |s.workers| + 1 < USIZE
    requires s.next <= copies + 1 + Sum(s.workers, Finishing())
    ensures WorkLeft(copies, Act(copies, s, move)) + (if Finishing()(s.workers[move.worker]) == 0 then 1 else 0)
            <= WorkLeft(copies, s)
  {
    ClaimStep(copies, s, move);
    SumStep(copies, s, move, Owing());
  }

  lemma {:induction false} WorkShrinks(run: Run, n: nat)
    requires Legal(run) && n <= |run.moves|
    ensures Effective(run, n) + WorkLeft(run.copies, At(run, n)) <= 4 * run.copies + 3 * Min(run.jobs, run.copies)
  {
    if n == 0 {
      SumBound(Initial(run).workers, Owing(), 3);
    } else {
      WorkShrinks(run, n - 1);
      AlwaysCounted(run, n - 1);
      WorkStep(run.copies, At(run, n - 1), run.moves[n - 1]);
    }
  }

  /** No interleaving keeps the workers busy for longer than this. */
  lemma RunsEnd(run: Run)
    requires Legal(run)
    ensures Effective(run, |run.moves|) <= 4 * run.copies + 3 * Min(run.jobs, run.copies)
  {
    WorkShrinks(run, |run.moves|);
  }

  // ----- Runs without errors complete -----

  predicate CleanAt(run: Run, i: nat)
    requires Legal(run) && i < |run.moves|
  {
    EndAt(run, i).Some? ==> EndAt(run, i).value.1.Passed? || EndAt(run, i).value.1.Failed?
  }

  predicate Orderly(copies: nat, s: State) {
    && !s.stop
    && forall i | 0 <= i < |s.workers| ::
         var worker := s.workers[i];
         !worker.phase.Dead? && worker.batch.error.None? && (worker.phase.Done? ==> s.next > copies)
  }

  lemma OrderlyStep(copies: nat, s: State, move: Move)
    requires Orderly(copies, s) && move.worker < |s.workers| && copies + |s.workers| + 1 < USIZE
    requires s.next <= copies + 1 + Sum(s.workers, Finishing())
    requires s.workers[move.worker].phase.Running? ==> move.outcome.Passed? || move.outcome.Failed?
    ensures Orderly(copies, Act(copies, s, move))
  {
    ClaimStep(copies, s, move);
  }

  lemma {:induction false} CleanIsOrderly(run: Run, n: nat)
    requires Legal(run) && n <= |run.moves| && forall i | 0 <= i < n :: CleanAt(run, i)
    ensures Orderly(run.copies, At(run, n))
  {
    if n > 0 {
      CleanIsOrderly(run, n - 1);
      AlwaysCounted(run, n - 1);
      assert CleanAt(run, n - 1);
      OrderlyStep(run.copies, At(run, n - 1), run.moves[n - 1]);
    }
  }

  /** A clean move completes what it ends. */
  lemma CleanStep(copies: nat, s: State, move: Move)
    requires move.worker < |s.workers|
    requires s.workers[move.worker].phase.Running? ==> move.outcome.Passed? || move.outcome.Failed?
    ensures var t, phase := Act(copies, s, move), s.workers[move.worker].phase;
            Sum(t.workers, Completed()) + Sum(t.workers, InACopy()) ==
            Sum(s.workers, Completed()) + Sum(s.workers, InACopy()) + if phase.Claiming? && s.next <= copies then 1 else 0
  {
    SumStep(copies, s, move, Completed());
    SumStep(copies, s, move, InACopy());
  }

  /** What a clean run has started is completed or still running. */
  lemma {:induction false} CleanRun(run: Run, n: nat)
    requires Legal(run) && n <= |run.moves| && forall i | 0 <= i < n :: CleanAt(run, i)
    ensures |Started(run, n)| == Sum(At(run, n).workers, Completed()) + Sum(At(run, n).workers, InACopy())
  {
    if n == 0 {
      SumZero(Initial(run).workers, Completed());
      SumZero(Initial(run).workers, InACopy());
    } else {
      CleanRun(run, n - 1);
      assert CleanAt(run, n - 1);
      CleanStep(run.copies, At(run, n - 1), run.moves[n - 1]);
    }
  }

  // ----- The merged batch -----

  /** The part a worker contributes; the batch of a worker that panicked is lost. */
  function Part(worker: Worker): Batch {
    if worker.phase.Dead? then EMPTY.(error := Some(0)) else worker.batch
  }

  function Merged(workers: seq<Worker>): Batch {
    if workers == [] then EMPTY
    else
      var rest, part := Merged(workers[..|workers| - 1]), Part(workers[|workers| - 1]);
      Batch(rest.completed + part.completed, rest.failed + part.failed, rest.aborted + part.aborted,
            if rest.error.Some? then rest.error else part.error)
  }

  method MergeBatches(workers: seq<Worker>) returns (batch: Batch)
    ensures batch == Merged(workers)
  {
    batch := EMPTY;
    for i := 0 to |workers|
      invariant batch == Merged(workers[..i])
    {
      var part := Part(workers[i]);
      batch := Batch(batch.completed + part.completed, batch.failed + part.failed, batch.aborted + part.aborted,
                     if batch.error.Some? then batch.error else part.error);
      assert workers[..i + 1][..i] == workers[..i];
    }
    assert workers[..|workers|] == workers;
  }

  lemma {:induction false} MergedAddsUp(workers: seq<Worker>)
    requires forall i | 0 <= i < |workers| :: !workers[i].phase.Dead? && workers[i].batch.error.None?
    ensures Merged(workers).completed == Sum(workers, Completed()) && Merged(workers).error.None?
  {
    if workers != [] {
      MergedAddsUp(workers[..|workers| - 1]);
    }
  }

  /** A run in which no copy errs or panics completes every copy once all workers have finished. */
  lemma CleanRunCompletes(run: Run, n: nat)
    requires Legal(run) && n <= |run.moves| && (forall i | 0 <= i < n :: CleanAt(run, i))
    requires forall i | 0 <= i < |At(run, n).workers| :: At(run, n).workers[i].phase.Done?
    ensures Started(run, n) == UpTo(run.copies)
    ensures Merged(At(run, n).workers).completed == run.copies && Merged(At(run, n).workers).error.None?
  {
    var s := At(run, n);
    CleanRun(run, n);
    CleanIsOrderly(run, n);
    AlwaysCounted(run, n);
    assert s.workers[0].phase.Done?;
    SumZero(s.workers, InACopy());
    MergedAddsUp(s.workers);
  }

  // ----- After a stop -----

  /** Worker `w` makes none of the moves from `m` up to `n`. */
  predicate Idle(run: Run, w: nat, m: nat, n: nat)
    requires m <= n <= |run.moves|
  {
    forall k | m <= k < n :: run.moves[k].worker != w
  }

  /** Once stopped, a worker stands before a claim exactly if it already did and has not moved since. */
  lemma {:induction false} StoppedClaiming(run: Run, w: nat, m: nat, n: nat)
    requires Legal(run) && m <= n <= |run.moves| && w < Min(run.jobs, run.copies) && At(run, m).stop
    ensures At(run, n).stop
    ensures At(run, n).workers[w].phase.Claiming? <==> At(run, m).workers[w].phase.Claiming? && Idle(run, w, m, n)
    decreases n
  {
    if m < n {
      StoppedClaiming(run, w, m, n - 1);
      assert Idle(run, w, m, n) <==> Idle(run, w, m, n - 1) && run.moves[n - 1].worker != w;
    }
  }

  /**
    Once stopped, move `i` starts a copy if and only if its worker had passed the stop test before
    the stop, has not moved since, and a copy is left.
   */
  lemma StartsAfterStopIff(run: Run, m: nat, i: nat)
    requires Legal(run) && m <= i < |run.moves| && At(run, m).stop
    ensures StartAt(run, i).Some? <==>
            && At(run, m).workers[run.moves[i].worker].phase.Claiming? && Idle(run, run.moves[i].worker, m, i)
            && At(run, i).next <= run.copies
  {
    StoppedClaiming(run, run.moves[i].worker, m, i);
  }

  /** How many copies worker `w` starts in moves `m` to `n`. */
  function StartsBy(run: Run, w: nat, m: nat, n: nat): nat
    requires Legal(run) && m <= n <= |run.moves|
    decreases n
  {
    if m == n then 0
    else StartsBy(run, w, m, n - 1) + if run.moves[n - 1].worker == w && StartAt(run, n - 1).Some? then 1 else 0
  }

  lemma {:induction false} IdleStartsNothing(run: Run, w: nat, m: nat, n: nat)
    requires Legal(run) && m <= n <= |run.moves| && Idle(run, w, m, n)
    ensures StartsBy(run, w, m, n) == 0
    decreases n
  {
    if m < n {
      IdleStartsNothing(run, w, m, n - 1);
    }
  }

  /** So a stopped worker starts at most one more copy, and only if it had passed the stop test before. */
  lemma {:induction false} StoppedWorkerStartsOnce(run: Run, w: nat, m: nat, n: nat)
    requires Legal(run) && m <= n <= |run.moves| && w < Min(run.jobs, run.copies) && At(run, m).stop
    ensures StartsBy(run, w, m, n) <= if At(run, m).workers[w].phase.Claiming? then 1 else 0
    decreases n
  {
    if m < n {
      StoppedWorkerStartsOnce(run, w, m, n - 1);
      StartsAfterStopIff(run, m, n - 1);
      if run.moves[n - 1].worker == w && StartAt(run, n - 1).Some? {
        IdleStartsNothing(run, w, m, n - 1);
      }
    }
  }

  /** Two workers, two copies: the second claims its copy after the first has stopped the batch. */
  const LATE := Run(2, 2, [
    Move(0, Passed), Move(0, Passed), Move(1, Passed), Move(0, Errored(false)), Move(1, Passed)])

  lemma ClaimAfterStop()
    ensures Legal(LATE) && At(LATE, 4).stop && StartAt(LATE, 4) == Some(2)
  {
    assert At(LATE, 0).workers == [Worker(Testing, EMPTY), Worker(Testing, EMPTY)];
    assert At(LATE, 1).workers == [Worker(Claiming, EMPTY), Worker(Testing, EMPTY)];
    assert At(LATE, 2) == State(2, false, [Worker(Running(1), EMPTY), Worker(Testing, EMPTY)]);
    assert At(LATE, 3).workers == [Worker(Running(1), EMPTY), Worker(Claiming, EMPTY)];
    assert At(LATE, 4).workers[1] == Worker(Claiming, EMPTY);
  }
}
