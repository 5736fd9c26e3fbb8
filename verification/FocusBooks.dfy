/** What the host owes beside what the focus machine expects, op by op, and how a lost count publishes an old sample. */
module FocusBooks {
  import opened Prelude
  import opened ClientFocus
  import opened FocusRuns

  /** The machine, the queries the host owes, the latest invalidation and the query behind the sample. */
  datatype Books = Books(focus: Focus, asked: seq<nat>, moved: Option<nat>, source: Option<nat>, length: nat)

  function BooksOf(ops: seq<Op>): Books {
    var n := |ops|;
    Books(FocusRuns.At(ops, n), Outstanding(ops, n), LastInvalidation(ops, n), SampleSource(ops, n), n)
  }

  function Booked(b: Books, op: Op): Books {
    Books(FocusRuns.Step(b.focus, op),
          if op.Drive? && Asks(b.focus, op.at, op.allowed) then b.asked + [b.length]
          else if op.Reply? && b.asked != [] then b.asked[1..]
          else b.asked,
          if op.Invalidate? then Some(b.length) else b.moved,
          if !op.Reply? then b.source else if b.asked == [] then None else Some(b.asked[0]),
          b.length + 1)
  }

  function BookAll(b: Books, ops: seq<Op>): Books {
    if ops == [] then b else Booked(BookAll(b, ops[..|ops| - 1]), ops[|ops| - 1])
  }

  lemma {:induction false} SamePrefix(ops: seq<Op>, longer: seq<Op>, n: nat)
    requires ops <= longer && n <= |ops|
    ensures FocusRuns.At(longer, n) == FocusRuns.At(ops, n) && Outstanding(longer, n) == Outstanding(ops, n)
    ensures LastInvalidation(longer, n) == LastInvalidation(ops, n) && SampleSource(longer, n) == SampleSource(ops, n)
  {
    if n > 0 {
      SamePrefix(ops, longer, n - 1);
      assert AsksAt(longer, n - 1) == AsksAt(ops, n - 1);
    }
  }

  lemma BooksPush(ops: seq<Op>, op: Op)
    ensures BooksOf(ops + [op]) == Booked(BooksOf(ops), op)
  {
    var longer, n := ops + [op], |ops|;
    SamePrefix(ops, longer, n);
    BooksNext(longer, n);
  }

  lemma BooksNext(ops: seq<Op>, n: nat)
    requires n < |ops|
    ensures var b := Books(FocusRuns.At(ops, n), Outstanding(ops, n), LastInvalidation(ops, n), SampleSource(ops, n), n);
            Booked(b, ops[n]) == Books(FocusRuns.At(ops, n + 1), Outstanding(ops, n + 1), LastInvalidation(ops, n + 1),
                                       SampleSource(ops, n + 1), n + 1)
  {
  }

  lemma {:induction false} BooksExtend(ops: seq<Op>, more: seq<Op>)
    ensures BooksOf(ops + more) == BookAll(BooksOf(ops), more)
  {
    if more == [] {
      assert ops + more == ops;
    } else {
      var init := more[..|more| - 1];
      BooksExtend(ops, init);
      BooksPush(ops + init, more[|more| - 1]);
      assert ops + more == ops + init + [more[|more| - 1]];
    }
  }

  lemma {:induction false} BookConcat(b: Books, xs: seq<Op>, ys: seq<Op>)
    ensures BookAll(b, xs + ys) == BookAll(BookAll(b, xs), ys)
  {
    if ys == [] {
      assert xs + ys == xs;
    } else {
      BookConcat(b, xs, ys[..|ys| - 1]);
      assert (xs + ys)[..|xs + ys| - 1] == xs + ys[..|ys| - 1];
    }
  }

  lemma BookOne(b: Books, op: Op)
    ensures BookAll(b, [op]) == Booked(b, op) && BookAll(b, []) == b
  {
    assert [op][..0] == [];
  }

  // ----- Replies that were asked for -----

  /** Every reply answers a query the host was asked. */
  predicate AllSolicited(ops: seq<Op>) {
    forall i | 0 <= i < |ops| :: Solicited(ops, i)
  }

  /** At most the first of these ops is a reply. */
  predicate ReplyLeads(ops: seq<Op>) {
    forall i | 0 < i < |ops| :: !ops[i].Reply?
  }

  lemma SolicitedMore(ops: seq<Op>, more: seq<Op>)
    requires AllSolicited(ops) && ReplyLeads(more)
    requires more != [] && more[0].Reply? ==> Outstanding(ops, |ops|) != []
    ensures AllSolicited(ops + more)
  {
    var longer := ops + more;
    forall i | 0 <= i < |longer| ensures Solicited(longer, i) {
      if i < |ops| {
        SamePrefix(ops, longer, i);
        assert Solicited(ops, i);
      } else if i == |ops| {
        SamePrefix(ops, longer, i);
      } else {
        assert longer[i] == more[i - |ops|];
      }
    }
  }

  lemma SolicitedFewer(ops: seq<Op>, n: nat)
    requires n <= |ops| && forall i | 0 <= i < n :: Solicited(ops, i)
    ensures AllSolicited(ops[..n])
  {
    forall i | 0 <= i < n ensures Solicited(ops[..n], i) {
      SamePrefix(ops[..n], ops, i);
      assert Solicited(ops, i);
    }
  }

  // ----- The host owes more than the machine expects -----

  /** The query in flight has not expired. */
  predicate Live(f: Focus, at: nat) {
    f.inFlight.Some? ==> f.inFlight.value.deadline > at
  }

  /** The host owes more replies than the machine expects. */
  predicate Ahead(b: Books, at: nat) {
    |b.asked| > Expected(b.focus) && Live(b.focus, at) && forall j | 0 <= j < |b.asked| :: b.asked[j] < b.length
  }

  lemma AheadDrive(b: Books, op: Op, at: nat)
    requires Ahead(b, at) && op.at == at && op.Drive? && at + QUERY_TTL_MS <= U64_MAX
    ensures Ahead(Booked(b, op), at) && Booked(b, op).focus.sample == b.focus.sample
  {
    var c := Booked(b, op);
    assert Expired(b.focus, at) == b.focus;
    if Asks(b.focus, at, op.allowed) {
      assert |c.asked| == |b.asked| + 1;
    }
  }

  lemma AheadOp(b: Books, op: Op, at: nat)
    requires Ahead(b, at) && op.at == at && !op.Reply? && at + QUERY_TTL_MS <= U64_MAX
    ensures Ahead(Booked(b, op), at) && Booked(b, op).focus.sample == b.focus.sample
  {
    if op.Drive? {
      AheadDrive(b, op, at);
    } else {
      QuietStep(b.focus, op);
    }
  }

  lemma {:induction false} AheadOps(b: Books, ops: seq<Op>, at: nat)
    requires Ahead(b, at) && at + QUERY_TTL_MS <= U64_MAX && forall i | 0 <= i < |ops| :: ops[i].at == at && !ops[i].Reply?
    ensures Ahead(BookAll(b, ops), at) && BookAll(b, ops).focus.sample == b.focus.sample
  {
    if ops != [] {
      AheadOps(b, ops[..|ops| - 1], at);
      AheadOp(BookAll(b, ops[..|ops| - 1]), ops[|ops| - 1], at);
    }
  }

  /** At most an observation. */
  predicate Pause(ops: seq<Op>, at: nat) {
    ops == [] || ops == [Observe(at)]
  }

  function Paused(f: Focus, pause: seq<Op>): Focus {
    if pause == [] then f else Observed(f)
  }

  function Rested(b: Books, pause: seq<Op>): Books {
    b.(focus := Paused(b.focus, pause), length := b.length + |pause|)
  }

  lemma BookPause(b: Books, pause: seq<Op>, at: nat)
    requires Pause(pause, at)
    ensures BookAll(b, pause) == Rested(b, pause)
  {
    BookOne(b, Observe(at));
  }

  lemma BookThree(b: Books, xs: seq<Op>, ys: seq<Op>, last: Op)
    ensures BookAll(b, xs + ys + [last]) == Booked(BookAll(BookAll(b, xs), ys), last)
  {
    BookConcat(b, xs, ys);
    assert (xs + ys + [last])[..|xs + ys|] == xs + ys;
  }

  /** An op, at most an observation, and a drive that may ask. */
  lemma BookSwept(b: Books, op: Op, pause: seq<Op>, at: nat)
    requires Pause(pause, at)
    ensures BookAll(b, [op] + pause + [Drive(at, true)]) == Booked(Rested(Booked(b, op), pause), Drive(at, true))
  {
    BookPause(Booked(b, op), pause, at);
    BookThree(b, [op], pause, Drive(at, true));
    BookOne(b, op);
  }

  /** No switch pends and a query is in flight. */
  predicate Calm(f: Focus, at: nat) {
    f.mode.Stable? && f.inFlight.Some? && Live(f, at)
  }

  /** Losing the last tab leaves no switch pending and a query in flight. */
  lemma LostTabCalms(f: Focus, pause: seq<Op>, at: nat)
    requires Live(f, at) && at + QUERY_TTL_MS <= U64_MAX && Pause(pause, at)
    ensures Calm(Driven(Paused(TabUpdated(f, None, at), pause), at, true), at)
  {
  }

  /** The roster is newer than every query owed, and the query in flight is marked. */
  predicate Marked(b: Books, at: nat) {
    && Ahead(b, at) && Calm(b.focus, at) && b.focus.inFlight.value.rosterInvalidated && b.focus.queued.Some?
    && b.focus.rosterChangedAt == Some(at) && b.moved.Some?
    && forall j | 0 <= j < |b.asked| :: b.asked[j] < b.moved.value
  }

  /** A new query is in flight, and as many older ones are owed as the machine writes off before it. */
  predicate Poised(b: Books, at: nat, moved: nat) {
    && Calm(b.focus, at) && !b.focus.inFlight.value.rosterInvalidated && b.focus.inFlight.value.issuedAt == at
    && b.focus.rosterChangedAt == Some(at) && b.moved == Some(moved) && |b.asked| > b.focus.staleReplies
    && forall j | 0 <= j <= b.focus.staleReplies :: b.asked[j] < moved
  }

  lemma MoveMarks(b: Books, pause: seq<Op>, at: nat)
    requires Ahead(b, at) && Calm(b.focus, at) && Pause(pause, at)
    ensures Marked(BookAll(b, [Observe(at)] + ([Invalidate(at)] + pause + [Drive(at, true)])), at)
  {
    BookConcat(b, [Observe(at)], [Invalidate(at)] + pause + [Drive(at, true)]);
    BookOne(b, Observe(at));
    var c := Booked(b, Observe(at));
    BookSwept(c, Invalidate(at), pause, at);
    var f := Paused(Invalidated(c.focus, at), pause);
    assert Driven(f, at, true) == f && !Asks(f, at, true);
  }

  lemma MarkedAnswer(b: Books, clients: seq<ClientView>, pause: seq<Op>, at: nat)
    requires Marked(b, at) && Pause(pause, at) && at + QUERY_TTL_MS <= U64_MAX
    ensures var c := BookAll(b, [Reply(at, clients)] + pause + [Drive(at, true)]);
            Poised(c, at, b.moved.value) && c.focus.staleReplies == SatSub(b.focus.staleReplies, 1)
  {
    BookSwept(b, Reply(at, clients), pause, at);
    var f := Paused(Replied(b.focus, clients, at).0, pause);
    assert f.queued.Some? && f.inFlight.None? && f.mode.Stable? && f.rosterChangedAt == Some(at);
    assert Asks(f, at, true);
  }

  lemma PoisedAnswer(b: Books, clients: seq<ClientView>, pause: seq<Op>, at: nat, moved: nat)
    requires Poised(b, at, moved) && Pause(pause, at) && at + QUERY_TTL_MS <= U64_MAX && b.focus.staleReplies > 0
    ensures var c := BookAll(b, [Reply(at, clients)] + pause + [Drive(at, true)]);
            Poised(c, at, moved) && c.focus.staleReplies == b.focus.staleReplies - 1
  {
    BookSwept(b, Reply(at, clients), pause, at);
    var f := Paused(Replied(b.focus, clients, at).0, pause);
    assert f.queued.Some? && f.inFlight.None? && f.mode.Stable? && f.rosterChangedAt == Some(at);
    assert Asks(f, at, true);
  }

  /** The sample may be published and answers a query older than the latest invalidation. */
  predicate Fooled(b: Books) {
    && PublishedSample(b.focus).Some? && b.source.Some? && b.moved.Some? && b.source.value < b.moved.value
  }

  /** The oldest reply is credited to the query in flight. */
  lemma LastAnswerFools(b: Books, clients: seq<ClientView>, pause: seq<Op>, at: nat, moved: nat)
    requires Poised(b, at, moved) && Pause(pause, at) && b.focus.staleReplies == 0
    ensures Fooled(BookAll(b, [Reply(at, clients)] + pause + [Drive(at, true)]))
  {
    BookSwept(b, Reply(at, clients), pause, at);
    var f := Paused(Replied(b.focus, clients, at).0, pause);
    assert f.rosterChangedAt.None? && f.sample.Some?;
  }
}
