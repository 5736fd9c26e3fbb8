/** What the joined batch says about the copies that ended. */
module StressMerge {
  import opened Prelude
  import opened Stress

  /** How often `copy` ended with `outcome`. */
  function EndedAs(ended: seq<(nat, Outcome)>, copy: nat, outcome: Outcome): nat {
    if ended == [] then 0
    else EndedAs(ended[..|ended| - 1], copy, outcome) + if ended[|ended| - 1] == (copy, outcome) then 1 else 0
  }

  /** How many copies ran to their end. */
  function Ran(ended: seq<(nat, Outcome)>): nat {
    if ended == [] then 0
    else
      var outcome := ended[|ended| - 1].1;
      Ran(ended[..|ended| - 1]) + if outcome.Passed? || outcome.Failed? then 1 else 0
  }

  /** A copy ended in a fatal error or took its worker down. */
  predicate Fatal(ended: seq<(nat, Outcome)>) {
    exists j | 0 <= j < |ended| :: ended[j].1.Errored? || ended[j].1.Panicked?
  }

  predicate PanicFree(ended: seq<(nat, Outcome)>) {
    forall j | 0 <= j < |ended| :: !ended[j].1.Panicked?
  }

  // ----- Sums over the workers -----

  function Failures(copy: nat): Worker -> nat {
    (worker: Worker) => Occurrences(worker.batch.failed, copy)
  }

  function Abortions(copy: nat): Worker -> nat {
    (worker: Worker) => Occurrences(worker.batch.aborted, copy)
  }

  function Blames(): Worker -> nat {
    (worker: Worker) => if Part(worker).error.Some? then 1 else 0
  }

  function Deaths(): Worker -> nat {
    (worker: Worker) => if worker.phase.Dead? then 1 else 0
  }

  lemma {:induction false} OccurrencesConcat(a: seq<nat>, b: seq<nat>, copy: nat)
    ensures Occurrences(a + b, copy) == Occurrences(a, copy) + Occurrences(b, copy)
  {
    if b == [] {
      assert a + b == a;
    } else {
      OccurrencesConcat(a, b[..|b| - 1], copy);
      assert (a + b)[..|a + b| - 1] == a + b[..|b| - 1];
    }
  }

  /** Unless a worker died, the joined batch lists what the workers' batches list. */
  lemma {:induction false} MergedLists(workers: seq<Worker>, copy: nat)
    requires forall i | 0 <= i < |workers| :: !workers[i].phase.Dead?
    ensures Occurrences(Merged(workers).failed, copy) == Sum(workers, Failures(copy))
    ensures Occurrences(Merged(workers).aborted, copy) == Sum(workers, Abortions(copy))
    ensures Merged(workers).completed == Sum(workers, Completed())
  {
    if workers != [] {
      var init, last := workers[..|workers| - 1], workers[|workers| - 1];
      MergedLists(init, copy);
      OccurrencesConcat(Merged(init).failed, last.batch.failed, copy);
      OccurrencesConcat(Merged(init).aborted, last.batch.aborted, copy);
    }
  }

  lemma {:induction false} MergedErrs(workers: seq<Worker>)
    ensures Merged(workers).error.Some? <==> Sum(workers, Blames()) > 0
  {
    if workers != [] {
      MergedErrs(workers[..|workers| - 1]);
    }
  }

  // ----- One move -----

  lemma Push(ended: seq<(nat, Outcome)>, end: (nat, Outcome), copy: nat, outcome: Outcome)
    ensures EndedAs(ended + [end], copy, outcome) == EndedAs(ended, copy, outcome) + if end == (copy, outcome) then 1 else 0
    ensures Ran(ended + [end]) == Ran(ended) + if end.1.Passed? || end.1.Failed? then 1 else 0
    ensures Fatal(ended + [end]) <==> Fatal(ended) || end.1.Errored? || end.1.Panicked?
  {
    var longer := ended + [end];
    assert longer[..|longer| - 1] == ended;
    if Fatal(ended) {
      var j :| 0 <= j < |ended| && (ended[j].1.Errored? || ended[j].1.Panicked?);
      assert longer[j] == ended[j];
    }
    assert longer[|ended|] == end;
  }

  /** What ending a copy adds to its worker's batch. */
  lemma EndingAdds(batch: Batch, ending: nat, outcome: Outcome, copy: nat)
    ensures var after := EndedBatch(batch, ending, outcome);
            && Occurrences(after.failed, copy) == Occurrences(batch.failed, copy) + (if outcome.Failed? && ending == copy then 1 else 0)
            && Occurrences(after.aborted, copy) ==
               Occurrences(batch.aborted, copy) + (if outcome == Errored(true) && ending == copy then 1 else 0)
            && after.completed == batch.completed + (if outcome.Passed? || outcome.Failed? then 1 else 0)
  {
    OccurrencesConcat(batch.failed, [ending], copy);
    OccurrencesConcat(batch.aborted, [ending], copy);
    assert [ending][..0] == [];
  }

  /** The workers' batches list exactly the copies that ended so far. */
  predicate Listed(run: Run, n: nat, copy: nat)
    requires Legal(run) && n <= |run.moves|
  {
    var workers, ended := At(run, n).workers, Ended(run, n);
    && Sum(workers, Failures(copy)) == EndedAs(ended, copy, Failed)
    && Sum(workers, Abortions(copy)) == EndedAs(ended, copy, Errored(true))
    && Sum(workers, Completed()) == Ran(ended)
  }

  lemma MoveAdds(copies: nat, s: State, move: Move, copy: nat)
    requires move.worker < |s.workers|
    ensures var t, phase, outcome := Act(copies, s, move), s.workers[move.worker].phase, move.outcome;
            && Sum(t.workers, Failures(copy)) ==
               Sum(s.workers, Failures(copy)) + (if phase == Running(copy) && outcome == Failed then 1 else 0)
            && Sum(t.workers, Abortions(copy)) ==
               Sum(s.workers, Abortions(copy)) + (if phase == Running(copy) && outcome == Errored(true) then 1 else 0)
            && Sum(t.workers, Completed()) ==
               Sum(s.workers, Completed()) + (if phase.Running? && (outcome.Passed? || outcome.Failed?) then 1 else 0)
  {
    SumStep(copies, s, move, Failures(copy));
    SumStep(copies, s, move, Abortions(copy));
    SumStep(copies, s, move, Completed());
    var worker := s.workers[move.worker];
    if worker.phase.Running? {
      EndingAdds(worker.batch, worker.phase.copy, move.outcome, copy);
    }
  }

  lemma ListedStep(run: Run, n: nat, copy: nat)
    requires Legal(run) && 0 < n <= |run.moves| && Listed(run, n - 1, copy)
    ensures Listed(run, n, copy)
  {
    MoveAdds(run.copies, At(run, n - 1), run.moves[n - 1], copy);
    if EndAt(run, n - 1).Some? {
      var end := EndAt(run, n - 1).value;
      Push(Ended(run, n - 1), end, copy, Failed);
      Push(Ended(run, n - 1), end, copy, Errored(true));
    }
  }

  lemma {:induction false} AlwaysListed(run: Run, n: nat, copy: nat)
    requires Legal(run) && n <= |run.moves|
    ensures Listed(run, n, copy)
  {
    if n == 0 {
      SumZero(Initial(run).workers, Failures(copy));
      SumZero(Initial(run).workers, Abortions(copy));
      SumZero(Initial(run).workers, Completed());
    } else {
      AlwaysListed(run, n - 1, copy);
      ListedStep(run, n, copy);
    }
  }

  /** Errors and deaths of workers are the fatal endings so far. */
  predicate Blamed(run: Run, n: nat)
    requires Legal(run) && n <= |run.moves|
  {
    var workers, ended := At(run, n).workers, Ended(run, n);
    (Sum(workers, Blames()) > 0 <==> Fatal(ended)) && (PanicFree(ended) ==> Sum(workers, Deaths()) == 0)
  }

  lemma MoveBlames(copies: nat, s: State, move: Move)
    requires move.worker < |s.workers|
    ensures var t, phase, outcome := Act(copies, s, move), s.workers[move.worker].phase, move.outcome;
            && (Sum(t.workers, Blames()) > 0 <==>
                  Sum(s.workers, Blames()) > 0 || (phase.Running? && (outcome.Errored? || outcome.Panicked?)))
            && Sum(t.workers, Deaths()) == Sum(s.workers, Deaths()) + (if phase.Running? && outcome.Panicked? then 1 else 0)
  {
    SumStep(copies, s, move, Blames());
    SumStep(copies, s, move, Deaths());
    WorkerBlames(copies, s, move);
    SumAtLeast(Act(copies, s, move).workers, move.worker, Blames());
  }

  lemma WorkerBlames(copies: nat, s: State, move: Move)
    requires move.worker < |s.workers|
    ensures var before, after := s.workers[move.worker], Act(copies, s, move).workers[move.worker];
            && Blames()(after) == (if before.phase.Running? && (move.outcome.Errored? || move.outcome.Panicked?)
                                   then 1 else Blames()(before))
            && Deaths()(after) == Deaths()(before) + (if before.phase.Running? && move.outcome.Panicked? then 1 else 0)
  {
  }

  lemma {:induction false} SumAtLeast(workers: seq<Worker>, w: nat, f: Worker -> nat)
    requires w < |workers|
    ensures f(workers[w]) <= Sum(workers, f)
  {
    if w < |workers| - 1 {
      SumAtLeast(workers[..|workers| - 1], w, f);
    }
  }

  lemma PushedPanic(ended: seq<(nat, Outcome)>, end: (nat, Outcome))
    ensures PanicFree(ended + [end]) <==> PanicFree(ended) && !end.1.Panicked?
  {
    var longer := ended + [end];
    assert longer[|ended|] == end;
    assert forall j | 0 <= j < |ended| :: longer[j] == ended[j];
  }

  lemma BlamedStep(run: Run, n: nat)
    requires Legal(run) && 0 < n <= |run.moves| && Blamed(run, n - 1)
    ensures Blamed(run, n)
  {
    MoveBlames(run.copies, At(run, n - 1), run.moves[n - 1]);
    if EndAt(run, n - 1).Some? {
      var end := EndAt(run, n - 1).value;
      Push(Ended(run, n - 1), end, 0, Failed);
      PushedPanic(Ended(run, n - 1), end);
    }
  }

  lemma {:induction false} AlwaysBlamed(run: Run, n: nat)
    requires Legal(run) && n <= |run.moves|
    ensures Blamed(run, n)
  {
    if n == 0 {
      SumZero(Initial(run).workers, Blames());
      SumZero(Initial(run).workers, Deaths());
    } else {
      AlwaysBlamed(run, n - 1);
      BlamedStep(run, n);
    }
  }

  // ----- The joined batch -----

  /** Whatever the interleaving, an error is reported if and only if some copy erred or panicked. */
  lemma ReportsIffFatal(run: Run, n: nat)
    requires Legal(run) && n <= |run.moves|
    ensures Merged(At(run, n).workers).error.Some? <==> Fatal(Ended(run, n))
  {
    AlwaysBlamed(run, n);
    MergedErrs(At(run, n).workers);
  }

  /**
    Without panics the joined batch lists each copy as failed as often as it ended `Failed`, as
    aborted as often as it erred leaving output, and counts the copies that ran to their end.
   */
  lemma BatchListsEndings(run: Run, n: nat, copy: nat)
    requires Legal(run) && n <= |run.moves| && PanicFree(Ended(run, n))
    ensures var batch := Merged(At(run, n).workers);
            && Occurrences(batch.failed, copy) == EndedAs(Ended(run, n), copy, Failed) <= 1
            && Occurrences(batch.aborted, copy) == EndedAs(Ended(run, n), copy, Errored(true)) <= 1
            && batch.completed == Ran(Ended(run, n))
  {
    AlwaysListed(run, n, copy);
    AlwaysBlamed(run, n);
    SumZero(At(run, n).workers, Deaths());
    forall i | 0 <= i < |At(run, n).workers| ensures !At(run, n).workers[i].phase.Dead? {
      assert Deaths()(At(run, n).workers[i]) == 0;
    }
    MergedLists(At(run, n).workers, copy);
    EndedAsBound(Ended(run, n), copy, Failed);
    EndedAsBound(Ended(run, n), copy, Errored(true));
    CopiesAccounted(run, n, copy);
  }

  lemma {:induction false} EndedAsBound(ended: seq<(nat, Outcome)>, copy: nat, outcome: Outcome)
    ensures EndedAs(ended, copy, outcome) <= Endings(ended, copy)
  {
    if ended != [] {
      EndedAsBound(ended[..|ended| - 1], copy, outcome);
    }
  }
}
