/** Runs made longer, and what a longer run keeps of the shorter. */
module EngineGrowth {
  import opened Prelude
  import opened PokePolicy
  import opened ClientFocus
  import opened Room
  import opened Handlers
  import opened EngineRuns
  import opened EngineFocus
  import opened EngineWakes
  import opened FocusBooks
  import EngineTimers
  import F = FocusRuns

  // ----- A run and its beginnings -----

  /** `longer` starts as `run` does. */
  ghost predicate Begins(run: Run, longer: Run) {
    run.loadedAt == longer.loadedAt && run.config == longer.config && run.steps <= longer.steps
  }

  predicate SameAt(run: Run, longer: Run, n: nat)
    requires n <= |run.steps| && n <= |longer.steps|
  {
    At(longer, n) == At(run, n) && Timers(longer, n) == Timers(run, n)
  }

  /** The engine and the host's timers. */
  datatype Frame = Frame(state: State, timers: multiset<nat>)

  function Advanced(frame: Frame, step: Step): Frame {
    var o := Handle(frame.state, step);
    Frame(o.state, EngineTimers.Waiting(frame.timers, step.event) + Arms(o.effects, step.at))
  }

  predicate Moves(frames: seq<Frame>, steps: seq<Step>, i: nat)
    requires i < |steps| && i + 1 < |frames|
  {
    frames[i + 1] == Advanced(frames[i], steps[i])
  }

  function FrameAt(run: Run, n: nat): Frame
    requires n <= |run.steps|
  {
    Frame(At(run, n), Timers(run, n))
  }

  function Frames(run: Run): seq<Frame> {
    seq(|run.steps| + 1, i requires 0 <= i <= |run.steps| => FrameAt(run, i))
  }

  lemma FrameMoves(run: Run, i: nat)
    requires i < |run.steps|
    ensures FrameAt(run, i + 1) == Advanced(FrameAt(run, i), run.steps[i])
  {
  }

  lemma FramesMove(run: Run, i: nat)
    requires i < |run.steps|
    ensures Moves(Frames(run), run.steps, i)
  {
    var before, after := FrameAt(run, i), FrameAt(run, i + 1);
    assert after == Advanced(before, run.steps[i]) by {
      FrameMoves(run, i);
    }
    assert Frames(run)[i] == before && Frames(run)[i + 1] == after;
    MovePlaced(Frames(run), run.steps, i, before, after);
  }

  lemma MovePlaced(frames: seq<Frame>, steps: seq<Step>, i: nat, before: Frame, after: Frame)
    requires i < |steps| && i + 1 < |frames| && frames[i] == before && frames[i + 1] == after
    requires after == Advanced(before, steps[i])
    ensures Moves(frames, steps, i)
  {
  }

  /** The first `n` moves are made by the steps. */
  predicate MovesUpto(frames: seq<Frame>, steps: seq<Step>, n: nat) {
    n <= |steps| && n < |frames| && forall i | 0 <= i < n :: Moves(frames, steps, i)
  }

  lemma {:induction false} FramesAgree(a: seq<Frame>, b: seq<Frame>, steps: seq<Step>, more: seq<Step>, n: nat)
    requires MovesUpto(a, steps, n) && MovesUpto(b, more, n) && steps[..n] == more[..n] && a[0] == b[0]
    ensures a[n] == b[n]
  {
    if n > 0 {
      assert steps[..n][..n - 1] == steps[..n - 1] && more[..n][..n - 1] == more[..n - 1];
      FramesAgree(a, b, steps, more, n - 1);
      assert steps[..n][n - 1] == more[..n][n - 1];
      assert Moves(a, steps, n - 1) && Moves(b, more, n - 1);
      SameMove(a, b, steps, more, n - 1);
    }
  }

  lemma SameMove(a: seq<Frame>, b: seq<Frame>, steps: seq<Step>, more: seq<Step>, i: nat)
    requires i < |steps| && i < |more| && i + 1 < |a| && i + 1 < |b| && Moves(a, steps, i) && Moves(b, more, i)
    requires a[i] == b[i] && steps[i] == more[i]
    ensures a[i + 1] == b[i + 1]
  {
  }

  lemma AllMove(run: Run, n: nat)
    requires n <= |run.steps|
    ensures MovesUpto(Frames(run), run.steps, n)
  {
    forall i | 0 <= i < n ensures Moves(Frames(run), run.steps, i) {
      FramesMove(run, i);
    }
  }

  lemma FirstFrame(run: Run)
    ensures Frames(run)[0] == Frame(Initial(run.loadedAt, run.config), multiset{})
  {
  }

  lemma SameStart(run: Run, longer: Run, n: nat)
    requires Begins(run, longer) && n <= |run.steps|
    ensures SameAt(run, longer, n)
  {
    AllMove(run, n);
    AllMove(longer, n);
    FirstFrame(run);
    FirstFrame(longer);
    assert longer.steps[..n] == run.steps[..n];
    FramesAgree(Frames(run), Frames(longer), run.steps, longer.steps, n);
    FrameIs(run, n);
    FrameIs(longer, n);
  }

  lemma FrameIs(run: Run, n: nat)
    requires n <= |run.steps|
    ensures Frames(run)[n] == FrameAt(run, n)
  {
  }

  lemma SameFire(run: Run, longer: Run, i: nat)
    requires Begins(run, longer) && i < |run.steps|
    ensures FiresOutstanding(longer, i) <==> FiresOutstanding(run, i)
  {
    SameStart(run, longer, i);
    assert run.steps[i] == longer.steps[i];
  }

  lemma SameChunk(run: Run, longer: Run, i: nat)
    requires Begins(run, longer) && i < |run.steps|
    ensures Chunks(longer)[i] == Chunks(run)[i]
  {
    SameStart(run, longer, i);
    assert run.steps[i] == longer.steps[i];
  }

  lemma SameChunks(run: Run, longer: Run)
    requires Begins(run, longer)
    ensures Chunks(run) == Chunks(longer)[..|run.steps|]
  {
    forall i | 0 <= i < |run.steps| ensures Chunks(longer)[i] == Chunks(run)[i] {
      SameChunk(run, longer, i);
    }
  }

  lemma {:induction false} FlatPrefix(chunks: seq<seq<F.Op>>, m: nat, n: nat)
    requires n <= m <= |chunks|
    ensures Flat(chunks[..m], n) == Flat(chunks, n)
  {
    if n > 0 {
      FlatPrefix(chunks, m, n - 1);
    }
  }

  /** The trace of a beginning is a beginning of the trace. */
  lemma SameTrace(run: Run, longer: Run)
    requires Begins(run, longer)
    ensures TraceOf(run) <= TraceOf(longer) && TraceOf(run) == Flat(Chunks(longer), |run.steps|)
  {
    SameChunks(run, longer);
    FlatPrefix(Chunks(longer), |run.steps|, |run.steps|);
    FlatGrows(Chunks(longer), |run.steps|, |longer.steps|);
  }

  /** The first `n` steps of a run. */
  function Upto(run: Run, n: nat): Run
    requires n <= |run.steps|
  {
    run.(steps := run.steps[..n])
  }

  lemma UptoHosted(run: Run, n: nat)
    requires Hosted(run) && n <= |run.steps|
    ensures Hosted(Upto(run, n))
  {
    var part := Upto(run, n);
    forall i | 0 <= i < |part.steps| ensures FiresOutstanding(part, i) {
      SameFire(part, run, i);
      assert FiresOutstanding(run, i);
    }
    assert forall i | 0 <= i < n :: part.steps[i] == run.steps[i];
  }

  lemma UptoAsked(run: Run, n: nat)
    requires F.AskedHost(TraceOf(run)) && n <= |run.steps|
    ensures F.AskedHost(TraceOf(Upto(run, n)))
  {
    SameTrace(Upto(run, n), run);
    AskedPrefix(TraceOf(Upto(run, n)), TraceOf(run));
  }

  lemma AskedPrefix(ops: seq<F.Op>, longer: seq<F.Op>)
    requires ops <= longer && F.AskedHost(longer)
    ensures F.AskedHost(ops)
  {
    assert ops == longer[..|ops|];
    SolicitedFewer(longer, |ops|);
  }

  // ----- One step more -----

  function Then(run: Run, step: Step): Run {
    run.(steps := run.steps + [step])
  }

  lemma ThenTrace(run: Run, step: Step)
    ensures TraceOf(Then(run, step)) == TraceOf(run) + StepOps(At(run, |run.steps|), step)
    ensures At(Then(run, step), |run.steps|) == At(run, |run.steps|)
    ensures At(Then(run, step), |run.steps| + 1) == Handle(At(run, |run.steps|), step).state
  {
    var longer, n := Then(run, step), |run.steps|;
    SameTrace(run, longer);
    SameStart(run, longer, n);
    assert longer.steps[n] == step;
    LastFlat(Chunks(longer), n);
  }

  lemma LastFlat(chunks: seq<seq<F.Op>>, n: nat)
    requires |chunks| == n + 1
    ensures Flat(chunks, n + 1) == Flat(chunks, n) + chunks[n]
  {
  }

  lemma ThenTimed(run: Run, step: Step)
    requires Timed(run) && run.steps != [] && run.steps[|run.steps| - 1].at <= step.at && ClockFits(step.at)
    ensures Timed(Then(run, step))
  {
  }

  /** The step, if a timer event, fires one of these timers and not early. */
  predicate Fires(timers: multiset<nat>, step: Step) {
    step.event.Timer? ==> step.event.due in timers && step.event.due <= step.at
  }

  lemma ThenHosted(run: Run, step: Step)
    requires Hosted(run) && run.steps != [] && run.steps[|run.steps| - 1].at <= step.at && ClockFits(step.at)
    requires Fires(Timers(run, |run.steps|), step)
    ensures Hosted(Then(run, step))
  {
    var longer := Then(run, step);
    ThenTimed(run, step);
    assert longer.steps[0] == run.steps[0];
    forall i | 0 <= i < |longer.steps| ensures FiresOutstanding(longer, i) {
      if i < |run.steps| {
        SameFire(run, longer, i);
        assert FiresOutstanding(run, i);
      } else {
        SameStart(run, longer, i);
        assert longer.steps[i] == step;
      }
    }
  }

  // ----- Runs and their books -----

  /** A run a host may drive, its state, its books and the clock it stopped at. */
  predicate Stands(run: Run, s: State, b: Books, at: nat) {
    && Hosted(run) && run.steps != [] && run.steps[|run.steps| - 1].at == at
    && s == At(run, |run.steps|) && b == BooksOf(TraceOf(run)) && AllSolicited(TraceOf(run))
  }

  lemma StandsFocus(run: Run, s: State, b: Books, at: nat)
    requires Stands(run, s, b, at)
    ensures b.focus == s.focus && ClockFits(at)
  {
    EveryRunTraced(run);
    FocusFollowsTrace(run, Chunks(run), |run.steps|);
  }

  lemma FirstIsReply(ops: seq<F.Op>, event: Event)
    requires ReplyFirst(ops, event)
    ensures FocusBooks.ReplyLeads(ops) && (ops != [] && ops[0].Reply? ==> event.ClientsListed?)
  {
    forall i | 0 < i < |ops| ensures !ops[i].Reply? {
      if ops[i].Reply? {
        ReplyPlace(ops, event, i);
      }
    }
  }

  /** One event more. */
  lemma StandsNext(run: Run, s: State, b: Books, at: nat, step: Step) returns (longer: Run)
    requires Stands(run, s, b, at) && at <= step.at && ClockFits(step.at) && Fires(Timers(run, |run.steps|), step)
    requires step.event.ClientsListed? ==> b.asked != []
    ensures Begins(run, longer) && Stands(longer, Handle(s, step).state, BookAll(b, StepOps(s, step)), step.at)
    ensures longer.steps == run.steps + [step]
  {
    longer := Then(run, step);
    ThenHosted(run, step);
    ThenTrace(run, step);
    RepliesLead(s, step);
    FirstIsReply(StepOps(s, step), step.event);
    SolicitedMore(TraceOf(run), StepOps(s, step));
    BooksExtend(TraceOf(run), StepOps(s, step));
  }
}
