/** A pending tab switch is settled, if the machine is driven after its window and every query is answered. */
module FocusLiveness {
  import opened Prelude
  import opened ClientFocus
  import opened FocusRuns
  import opened FocusProgress

  // ----- One op -----

  /** The switch is pending and its tab active. */
  predicate Pends(f: Focus, pending: PendingSwitch) {
    f.mode == Switching(pending) && f.activeTab == Some(pending.tab)
  }

  /** The switch is pending and its observation not yet queued. */
  predicate Unasked(f: Focus, pending: PendingSwitch) {
    Pends(f, pending) && !HasQuery(f, SwitchPurpose(pending))
  }

  /** A query is in flight that observes the switch, or behind which that observation waits. */
  predicate Carries(f: Focus, pending: PendingSwitch, purpose: Purpose) {
    && Pends(f, pending) && f.inFlight.Some? && f.inFlight.value.purpose == purpose
    && (purpose == SwitchPurpose(pending) || f.queued == Some(SwitchPurpose(pending)))
  }

  /** The op is no tab update, or one that keeps `tab` active. */
  predicate StaysOn(op: Op, tab: nat) {
    op.TabUpdate? ==> op.active == Some(tab)
  }

  /** Nothing is in flight and the observation waits to be asked. */
  predicate FirstInLine(f: Focus, pending: PendingSwitch) {
    Pends(f, pending) && f.inFlight.None? && f.queued == Some(SwitchPurpose(pending))
  }

  /** Before its window has passed nothing asks for the switch, and so nothing settles it. */
  lemma UnaskedStep(f: Focus, op: Op, pending: PendingSwitch)
    requires Unasked(f, pending) && StaysOn(op, pending.tab) && (op.Drive? ==> op.at < pending.settleAt)
    ensures Unasked(Step(f, op), pending)
  {
  }

  /** The first drive after the window leaves a query in flight with the observation asked or waiting. */
  lemma DriveCarries(f: Focus, at: nat, pending: PendingSwitch)
    requires Pends(f, pending) && Coherent(f) && pending.settleAt <= at && Expired(f, at) == f
    ensures var g := Driven(f, at, true);
            g.inFlight.Some? && Carries(g, pending, g.inFlight.value.purpose)
  {
  }

  lemma CarriesOn(f: Focus, op: Op, pending: PendingSwitch, purpose: Purpose)
    requires Carries(f, pending, purpose) && StaysOn(op, pending.tab) && !op.Reply? && Expired(f, op.at) == f
    ensures Carries(Step(f, op), pending, purpose)
  {
  }

  /** The answer to the observation settles the switch. */
  lemma AnswerSettles(f: Focus, clients: seq<ClientView>, at: nat, pending: PendingSwitch)
    requires Carries(f, pending, SwitchPurpose(pending)) && f.staleReplies == 0 && Expired(f, at) == f
    ensures Replied(f, clients, at).1.settled == Some(Settled(pending.tab, pending.generation, clients))
  {
  }

  /** The answer to another query leaves the observation first in line. */
  lemma AnswerFrees(f: Focus, clients: seq<ClientView>, at: nat, pending: PendingSwitch, purpose: Purpose)
    requires Carries(f, pending, purpose) && purpose != SwitchPurpose(pending) && f.staleReplies == 0 && Expired(f, at) == f
    ensures FirstInLine(Replied(f, clients, at).0, pending)
  {
  }

  lemma DriveAsks(f: Focus, at: nat, pending: PendingSwitch)
    requires FirstInLine(f, pending)
    ensures Asks(f, at, true) && Carries(Driven(f, at, true), pending, SwitchPurpose(pending))
  {
  }

  // ----- Hosts that answer -----

  /** At op `i` no query has waited longer than `wait`. */
  predicate WaitsAtMost(ops: seq<Op>, i: nat, now: nat, wait: nat)
    requires i <= |ops|
  {
    forall j | 0 <= j < |Outstanding(ops, i)| :: now <= ops[Outstanding(ops, i)[j]].at + wait
  }

  /** Nothing is owed beyond the query in flight. */
  predicate Tidy(ops: seq<Op>, n: nat)
    requires n <= |ops|
  {
    var f := FocusRuns.At(ops, n);
    f.staleReplies == 0 && |Outstanding(ops, n)| == if f.inFlight.Some? then 1 else 0
  }

  /** From op `m` on, with nothing owed beyond the query in flight, the host answers within `wait`, up to `end`. */
  predicate Answers(ops: seq<Op>, m: nat, wait: nat, end: nat) {
    && m <= |ops| && wait < QUERY_TTL_MS && Tidy(ops, m)
    && (forall i | m <= i < |ops| :: WaitsAtMost(ops, i, ops[i].at, wait))
    && WaitsAtMost(ops, |ops|, end, wait)
  }

  /** The query in flight is the latest of the queries owed. */
  lemma {:induction false} FlightIsOwed(ops: seq<Op>, n: nat)
    requires FocusRuns.Timed(ops) && n <= |ops| && FocusRuns.At(ops, n).inFlight.Some?
    ensures var asked := Outstanding(ops, n);
            asked != [] && FocusRuns.At(ops, n).inFlight.value.deadline == ops[asked[|asked| - 1]].at + QUERY_TTL_MS
  {
    var f := FocusRuns.At(ops, n - 1);
    if ops[n - 1].Drive? {
      DriveStep(f, ops[n - 1].at, ops[n - 1].allowed);
    } else if !ops[n - 1].Reply? {
      QuietStep(f, ops[n - 1]);
    }
    if !AsksAt(ops, n - 1) {
      FlightIsOwed(ops, n - 1);
    }
  }

  lemma Unexpired(ops: seq<Op>, n: nat, wait: nat)
    requires FocusRuns.Timed(ops) && n < |ops| && wait < QUERY_TTL_MS && WaitsAtMost(ops, n, ops[n].at, wait)
    ensures Expired(FocusRuns.At(ops, n), ops[n].at) == FocusRuns.At(ops, n)
  {
    if FocusRuns.At(ops, n).inFlight.Some? {
      FlightIsOwed(ops, n);
      var asked := Outstanding(ops, n);
      assert ops[n].at <= ops[asked[|asked| - 1]].at + wait;
    }
  }

  lemma TidyStep(ops: seq<Op>, n: nat)
    requires n < |ops| && Tidy(ops, n) && Expired(FocusRuns.At(ops, n), ops[n].at) == FocusRuns.At(ops, n)
    ensures Tidy(ops, n + 1)
  {
    if !ops[n].Reply? && !ops[n].Drive? {
      QuietStep(FocusRuns.At(ops, n), ops[n]);
    }
  }

  /** With such a host one query at most is owed, the one in flight, and it does not expire. */
  lemma {:induction false} OneOwed(ops: seq<Op>, m: nat, wait: nat, end: nat, n: nat)
    requires FocusRuns.Timed(ops) && Answers(ops, m, wait, end) && m <= n <= |ops|
    ensures Tidy(ops, n) && (n < |ops| ==> Expired(FocusRuns.At(ops, n), ops[n].at) == FocusRuns.At(ops, n))
  {
    if m < n {
      OneOwed(ops, m, wait, end, n - 1);
      TidyStep(ops, n - 1);
    }
    if n < |ops| {
      Unexpired(ops, n, wait);
    }
  }

  /** From op `n` on every tab update keeps `tab` active. */
  predicate Settling(ops: seq<Op>, n: nat, tab: nat) {
    forall i | n <= i < |ops| :: StaysOn(ops[i], tab)
  }

  /** The reply to the query in flight, with everything else as it was. */
  lemma {:induction false} NextReply(
    ops: seq<Op>, n: nat, pending: PendingSwitch, purpose: Purpose, q: nat, m: nat, wait: nat, end: nat
  ) returns (r: nat)
    requires FocusRuns.Timed(ops) && Answers(ops, m, wait, end) && m <= n <= |ops| && Settling(ops, n, pending.tab)
    requires Carries(FocusRuns.At(ops, n), pending, purpose) && Outstanding(ops, n) == [q] && q < n
    requires end > ops[q].at + wait
    ensures n <= r < |ops| && ops[r].Reply? && ops[r].at <= ops[q].at + wait
    ensures Carries(FocusRuns.At(ops, r), pending, purpose)
    decreases |ops| - n
  {
    if n == |ops| {
      WaitBound(ops, n, end, wait, q);
    } else {
      WaitBound(ops, n, ops[n].at, wait, q);
      if ops[n].Reply? {
        r := n;
      } else {
        StillCarries(ops, m, wait, end, n, pending, purpose);
        StillOwed(ops, m, wait, end, n, q);
        r := NextReply(ops, n + 1, pending, purpose, q, m, wait, end);
      }
    }
  }

  lemma WaitBound(ops: seq<Op>, i: nat, now: nat, wait: nat, q: nat)
    requires i <= |ops| && Outstanding(ops, i) == [q] && WaitsAtMost(ops, i, now, wait)
    ensures q < |ops| && now <= ops[q].at + wait
  {
    assert Outstanding(ops, i)[0] == q;
  }

  lemma StillCarries(ops: seq<Op>, m: nat, wait: nat, end: nat, n: nat, pending: PendingSwitch, purpose: Purpose)
    requires FocusRuns.Timed(ops) && Answers(ops, m, wait, end) && m <= n < |ops| && !ops[n].Reply? && StaysOn(ops[n], pending.tab)
    requires Carries(FocusRuns.At(ops, n), pending, purpose)
    ensures Carries(FocusRuns.At(ops, n + 1), pending, purpose)
  {
    OneOwed(ops, m, wait, end, n);
    CarriesOn(FocusRuns.At(ops, n), ops[n], pending, purpose);
  }

  lemma StillOwed(ops: seq<Op>, m: nat, wait: nat, end: nat, n: nat, q: nat)
    requires FocusRuns.Timed(ops) && Answers(ops, m, wait, end) && m <= n < |ops| && !ops[n].Reply?
    requires Outstanding(ops, n) == [q] && FocusRuns.At(ops, n).inFlight.Some?
    ensures Outstanding(ops, n + 1) == [q]
  {
    OneOwed(ops, m, wait, end, n);
    assert !AsksAt(ops, n);
  }

  // ----- Settlement -----

  /** The machine is driven right after a reply, with at most an observation between. */
  predicate Swept(ops: seq<Op>, i: nat)
    requires i < |ops|
  {
    ops[i].Reply? ==>
      || (i + 1 < |ops| && ops[i + 1] == Drive(ops[i].at, true))
      || (i + 2 < |ops| && ops[i + 1] == Observe(ops[i].at) && ops[i + 2] == Drive(ops[i].at, true))
  }

  /** The reply that settles the switch of op `r`, if it is asked. */
  predicate SettlesAt(ops: seq<Op>, r: nat, pending: PendingSwitch)
    requires r < |ops|
  {
    && SettledAt(ops, r).Some? && SettledAt(ops, r).value.generation == pending.generation
    && SettledAt(ops, r).value.tab == pending.tab
  }

  lemma LastOwed(ops: seq<Op>, n: nat)
    requires 0 < n <= |ops| && AsksAt(ops, n - 1) && |Outstanding(ops, n)| == 1
    ensures Outstanding(ops, n) == [n - 1]
  {
  }

  /** An observation in flight is answered and settles the switch. */
  lemma AskedSettles(ops: seq<Op>, n: nat, pending: PendingSwitch, q: nat, m: nat, wait: nat, end: nat) returns (r: nat)
    requires FocusRuns.Timed(ops) && Answers(ops, m, wait, end) && m <= n <= |ops| && Settling(ops, n, pending.tab)
    requires Carries(FocusRuns.At(ops, n), pending, SwitchPurpose(pending)) && Outstanding(ops, n) == [q] && q < n
    requires end > ops[q].at + wait
    ensures n <= r < |ops| && SettlesAt(ops, r, pending) && ops[r].at <= ops[q].at + wait
  {
    r := NextReply(ops, n, pending, SwitchPurpose(pending), q, m, wait, end);
    OneOwed(ops, m, wait, end, r);
    AnswerSettles(FocusRuns.At(ops, r), ops[r].clients, ops[r].at, pending);
  }

  lemma AskedAt(ops: seq<Op>, n: nat, pending: PendingSwitch, m: nat, wait: nat, end: nat)
    requires FocusRuns.Timed(ops) && Answers(ops, m, wait, end) && m <= n - 1 < |ops| && AsksAt(ops, n - 1)
    requires Carries(FocusRuns.At(ops, n), pending, SwitchPurpose(pending))
    ensures Outstanding(ops, n) == [n - 1]
  {
    OneOwed(ops, m, wait, end, n);
    LastOwed(ops, n);
  }

  lemma Freed(ops: seq<Op>, r: nat, pending: PendingSwitch, purpose: Purpose, m: nat, wait: nat, end: nat)
    requires FocusRuns.Timed(ops) && Answers(ops, m, wait, end) && m <= r < |ops| && ops[r].Reply?
    requires Carries(FocusRuns.At(ops, r), pending, purpose) && purpose != SwitchPurpose(pending)
    ensures FirstInLine(FocusRuns.At(ops, r + 1), pending)
  {
    OneOwed(ops, m, wait, end, r);
    AnswerFrees(FocusRuns.At(ops, r), ops[r].clients, ops[r].at, pending, purpose);
  }

  /** After the answer to another query the observation is asked at once. */
  lemma FreedAsks(ops: seq<Op>, r: nat, pending: PendingSwitch, purpose: Purpose, m: nat, wait: nat, end: nat) returns (n: nat)
    requires FocusRuns.Timed(ops) && Answers(ops, m, wait, end) && m <= r < |ops| && ops[r].Reply? && Swept(ops, r)
    requires Carries(FocusRuns.At(ops, r), pending, purpose) && purpose != SwitchPurpose(pending)
    ensures r < n - 1 < n <= |ops| && ops[n - 1].at == ops[r].at && Outstanding(ops, n) == [n - 1]
    ensures Carries(FocusRuns.At(ops, n), pending, SwitchPurpose(pending))
  {
    Freed(ops, r, pending, purpose, m, wait, end);
    if ops[r + 1] == Drive(ops[r].at, true) {
      n := r + 2;
    } else {
      n := r + 3;
      StillFirst(FocusRuns.At(ops, r + 1), pending);
      assert FocusRuns.At(ops, r + 2) == Observed(FocusRuns.At(ops, r + 1));
    }
    DriveAsksAt(ops, n - 1, pending);
    AskedAt(ops, n, pending, m, wait, end);
  }

  lemma StillFirst(f: Focus, pending: PendingSwitch)
    requires FirstInLine(f, pending)
    ensures FirstInLine(Observed(f), pending)
  {
  }

  lemma DriveAsksAt(ops: seq<Op>, d: nat, pending: PendingSwitch)
    requires d < |ops| && ops[d] == Drive(ops[d].at, true) && FirstInLine(FocusRuns.At(ops, d), pending)
    ensures AsksAt(ops, d) && Carries(FocusRuns.At(ops, d + 1), pending, SwitchPurpose(pending))
  {
    DriveAsks(FocusRuns.At(ops, d), ops[d].at, pending);
  }

  /** The first drive after the window leaves one query owed that carries the observation. */
  lemma DriveStarts(ops: seq<Op>, d: nat, pending: PendingSwitch, m: nat, wait: nat, end: nat) returns (q: nat, purpose: Purpose)
    requires FocusRuns.Timed(ops) && Answers(ops, m, wait, end) && m <= d < |ops|
    requires Unasked(FocusRuns.At(ops, d), pending) && Coherent(FocusRuns.At(ops, d))
    requires ops[d] == Drive(ops[d].at, true) && pending.settleAt <= ops[d].at
    ensures q <= d && ops[q].at <= ops[d].at && Outstanding(ops, d + 1) == [q]
    ensures Carries(FocusRuns.At(ops, d + 1), pending, purpose)
  {
    OneOwed(ops, m, wait, end, d);
    DriveCarries(FocusRuns.At(ops, d), ops[d].at, pending);
    var f := FocusRuns.At(ops, d + 1);
    assert f == Driven(FocusRuns.At(ops, d), ops[d].at, true);
    OneOwed(ops, m, wait, end, d + 1);
    q, purpose := Outstanding(ops, d + 1)[0], f.inFlight.value.purpose;
  }

  /**
    A switch whose window has passed when the machine is driven is settled by a reply within twice
    the host's answering time.
   */
  lemma DrivenSwitchSettles(ops: seq<Op>, d: nat, pending: PendingSwitch, m: nat, wait: nat, end: nat) returns (r: nat)
    requires FocusRuns.Timed(ops) && Answers(ops, m, wait, end) && m <= d < |ops| && Settling(ops, d, pending.tab)
    requires Unasked(FocusRuns.At(ops, d), pending) && Coherent(FocusRuns.At(ops, d))
    requires ops[d] == Drive(ops[d].at, true) && pending.settleAt <= ops[d].at && end > ops[d].at + 2 * wait
    requires forall i | d <= i < |ops| :: Swept(ops, i)
    ensures d < r < |ops| && SettlesAt(ops, r, pending) && ops[r].at <= ops[d].at + 2 * wait
  {
    var q, purpose := DriveStarts(ops, d, pending, m, wait, end);
    if purpose == SwitchPurpose(pending) {
      r := AskedSettles(ops, d + 1, pending, q, m, wait, end);
    } else {
      var first := NextReply(ops, d + 1, pending, purpose, q, m, wait, end);
      assert Swept(ops, first);
      var n := FreedAsks(ops, first, pending, purpose, m, wait, end);
      r := AskedSettles(ops, n, pending, n - 1, m, wait, end);
    }
  }
}
