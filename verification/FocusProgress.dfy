/** Driving the focus machine neither spins nor goes to sleep on a pending switch. */
module FocusProgress {
  import opened Prelude
  import opened ClientFocus
  import opened FocusRuns

  /** No settled observation is newer than the latest switch, and a pending switch is that latest one. */
  predicate Coherent(f: Focus) {
    && (f.mode.Switching? ==> f.mode.pending.generation == f.generation && f.activeTab == Some(f.mode.pending.tab))
    && (f.queued.Some? && f.queued.value.SwitchSettled? ==> f.queued.value.generation <= f.generation)
    && (f.inFlight.Some? && f.inFlight.value.purpose.SwitchSettled? ==>
          f.inFlight.value.purpose.generation <= f.generation)
  }

  lemma ElapsedIsPast(ops: seq<Op>, n: nat, purpose: Purpose)
    requires 0 < n <= |ops| && Elapsed(ops, n, purpose) && purpose.SwitchSettled?
    ensures purpose.generation <= Switches(ops, n)
  {
    var k :| 0 <= k < n && Born(ops, k, purpose.generation, purpose.tab)
               && ops[k].at + FOCUS_SETTLE_MS <= ops[n - 1].at;
    SwitchesAscend(ops, k + 1, n);
  }

  lemma AlwaysCoherent(ops: seq<Op>, n: nat)
    requires FocusRuns.Timed(ops) && n <= |ops| && Switches(ops, n) < GENERATIONS
    ensures Coherent(FocusRuns.At(ops, n))
  {
    AlwaysTraced(ops, n);
    var f := FocusRuns.At(ops, n);
    if f.queued.Some? && f.queued.value.SwitchSettled? {
      ElapsedIsPast(ops, n, f.queued.value);
    }
    if f.inFlight.Some? && f.inFlight.value.purpose.SwitchSettled? {
      ElapsedIsPast(ops, n, f.inFlight.value.purpose);
    }
  }

  /** Once driven, the machine's next deadline lies in the future. */
  lemma DrivenIsQuiet(f: Focus, now: nat, allowed: bool)
    requires Coherent(f) && now + QUERY_TTL_MS <= U64_MAX
    ensures !Reached(NextDeadline(Driven(f, now, allowed)), now)
  {
  }

  /** A machine that has gone to sleep on a pending switch: nothing will wake it to settle the switch. */
  predicate Asleep(f: Focus) {
    f.mode.Switching? && NextDeadline(f).None?
  }

  /** A machine allowed to ask is not asleep once driven and has nothing left to ask. */
  lemma DrivenIsAwake(f: Focus, now: nat)
    ensures !Asleep(Driven(f, now, true))
    ensures Drained(Driven(f, now, true))
  {
  }

  /** Nothing waits to be asked. */
  predicate Drained(f: Focus) {
    f.inFlight.Some? || f.queued.None?
  }

  /** Before its deadline a drained machine, or one that may not ask, does not move when driven. */
  lemma EarlyDriveIsNoop(f: Focus, now: nat, allowed: bool)
    requires !Reached(NextDeadline(f), now) && (allowed ==> Drained(f))
    ensures Driven(f, now, allowed) == f && !Asks(f, now, allowed)
  {
  }
}
