/** What tab-switch settling guarantees over every interleaving of switches, replies, expiries and invalidations. */
module FocusRuns {
  import opened Prelude
  import opened ClientFocus

  datatype Op =
    | Observe(at: nat)
    | Invalidate(at: nat)
    | TabUpdate(at: nat, active: Option<nat>)
    | Connected(at: nat, count: Option<nat>)
    | Reply(at: nat, clients: seq<ClientView>)
    | Drive(at: nat, allowed: bool)

  function Step(f: Focus, op: Op): Focus {
    match op
    case Observe(_) => Observed(f)
    case Invalidate(at) => Invalidated(f, at)
    case TabUpdate(at, active) => TabUpdated(f, active, at)
    case Connected(_, count) => ClientsCounted(f, count)
    case Reply(at, clients) => Replied(f, clients, at).0
    case Drive(at, allowed) => Driven(f, at, allowed)
  }

  /** The focus state after the first `n` ops of a run. */
  function At(ops: seq<Op>, n: nat): Focus
    requires n <= |ops|
  {
    if n == 0 then IDLE else Step(At(ops, n - 1), ops[n - 1])
  }

  /** The clock never runs backwards and `saturating_add` stays exact. */
  predicate Timed(ops: seq<Op>) {
    && (forall i | 0 <= i < |ops| :: ops[i].at + QUERY_TTL_MS <= U64_MAX)
    && (forall i, j | 0 <= i <= j < |ops| :: ops[i].at <= ops[j].at)
  }

  // ----- Switch settlement -----

  predicate SwitchAt(ops: seq<Op>, i: nat)
    requires i < |ops|
  {
    ops[i].TabUpdate? && IsSwitch(At(ops, i), ops[i].active)
  }

  /** How many of the first `n` ops switch tabs. */
  function Switches(ops: seq<Op>, n: nat): nat
    requires n <= |ops|
  {
    if n == 0 then 0 else Switches(ops, n - 1) + if SwitchAt(ops, n - 1) then 1 else 0
  }

  /** The settled observation op `i` yields, if any. */
  function SettledAt(ops: seq<Op>, i: nat): Option<Settled>
    requires i < |ops|
  {
    if ops[i].Reply? then Replied(At(ops, i), ops[i].clients, ops[i].at).1.settled else None
  }

  /** Op `k` is the switch numbered `generation`, to `tab`. */
  predicate Born(ops: seq<Op>, k: nat, generation: nat, tab: nat)
    requires k < |ops|
  {
    SwitchAt(ops, k) && Switches(ops, k + 1) == generation && ops[k].active == Some(tab)
  }

  lemma {:induction false} SwitchesAscend(ops: seq<Op>, m: nat, n: nat)
    requires m <= n <= |ops|
    ensures Switches(ops, m) <= Switches(ops, n)
    decreases n
  {
    if m < n {
      SwitchesAscend(ops, m, n - 1);
    }
  }

  /** A settled-observation purpose exists only once the settle window of its switch has passed. */
  predicate Elapsed(ops: seq<Op>, n: nat, purpose: Purpose)
    requires 0 < n <= |ops|
  {
    purpose.SwitchSettled? ==>
      exists k | 0 <= k < n ::
        Born(ops, k, purpose.generation, purpose.tab) && ops[k].at + FOCUS_SETTLE_MS <= ops[n - 1].at
  }

  predicate PendingTraced(ops: seq<Op>, n: nat, pending: PendingSwitch)
    requires n <= |ops|
  {
    exists k | 0 <= k < n ::
      Born(ops, k, pending.generation, pending.tab) && pending.settleAt == ops[k].at + FOCUS_SETTLE_MS
  }

  predicate Traced(ops: seq<Op>, n: nat)
    requires n <= |ops|
  {
    var f := At(ops, n);
    && f.generation == Switches(ops, n)
    && (f.mode.Switching? ==>
          && f.mode.pending.generation == f.generation
          && f.activeTab == Some(f.mode.pending.tab)
          && PendingTraced(ops, n, f.mode.pending))
    && (f.queued.Some? ==> n > 0 && Elapsed(ops, n, f.queued.value))
    && (f.inFlight.Some? ==> n > 0 && Elapsed(ops, n, f.inFlight.value.purpose))
  }

  lemma ElapsedKept(ops: seq<Op>, n: nat, purpose: Purpose)
    requires Timed(ops) && 0 < n < |ops| && Elapsed(ops, n, purpose)
    ensures Elapsed(ops, n + 1, purpose)
  {
    if purpose.SwitchSettled? {
      var k :| 0 <= k < n && Born(ops, k, purpose.generation, purpose.tab)
                 && ops[k].at + FOCUS_SETTLE_MS <= ops[n - 1].at;
      assert ops[n - 1].at <= ops[n].at;
    }
  }

  /** The purposes a step may leave behind: those it found, the general one, or a switch that is due. */
  lemma PurposesComeFrom(f: Focus, op: Op, purpose: Purpose)
    requires Step(f, op).queued == Some(purpose)
          || (Step(f, op).inFlight.Some? && Step(f, op).inFlight.value.purpose == purpose)
    ensures || purpose.General?
            || f.queued == Some(purpose)
            || (f.inFlight.Some? && f.inFlight.value.purpose == purpose)
            || (f.mode.Switching? && purpose == SwitchPurpose(f.mode.pending) && f.mode.pending.settleAt <= op.at)
  {
  }

  lemma ElapsedStep(ops: seq<Op>, n: nat, purpose: Purpose)
    requires Timed(ops) && n < |ops| && Traced(ops, n)
    requires At(ops, n + 1).queued == Some(purpose)
          || (At(ops, n + 1).inFlight.Some? && At(ops, n + 1).inFlight.value.purpose == purpose)
    ensures Elapsed(ops, n + 1, purpose)
  {
    var f := At(ops, n);
    PurposesComeFrom(f, ops[n], purpose);
    if purpose.SwitchSettled? {
      if f.queued == Some(purpose) || (f.inFlight.Some? && f.inFlight.value.purpose == purpose) {
        ElapsedKept(ops, n, purpose);
      } else {
        var k :| 0 <= k < n && Born(ops, k, f.mode.pending.generation, f.mode.pending.tab)
                   && f.mode.pending.settleAt == ops[k].at + FOCUS_SETTLE_MS;
      }
    }
  }

  /** A step switches to a new generation, keeps the pending switch and its tab, or goes stable. */
  lemma ModeStep(f: Focus, op: Op)
    requires f.mode.Switching? ==> f.activeTab == Some(f.mode.pending.tab)
    ensures var g := Step(f, op);
            if op.TabUpdate? && IsSwitch(f, op.active)
            then && g.generation == (f.generation + 1) % GENERATIONS
                 && g.activeTab == op.active
                 && g.mode == Switching(PendingSwitch(g.generation, op.active.value, SatAdd(op.at, FOCUS_SETTLE_MS)))
            else && g.generation == f.generation
                 && (g.mode.Stable? || (g.mode == f.mode && g.activeTab == f.activeTab))
  {
  }

  lemma PendingStep(ops: seq<Op>, n: nat)
    requires Timed(ops) && n < |ops| && Traced(ops, n) && Switches(ops, n + 1) < GENERATIONS
    ensures var g := At(ops, n + 1);
            && g.generation == Switches(ops, n + 1)
            && (g.mode.Switching? ==>
                  && g.mode.pending.generation == g.generation
                  && g.activeTab == Some(g.mode.pending.tab)
                  && PendingTraced(ops, n + 1, g.mode.pending))
  {
    var f, g := At(ops, n), At(ops, n + 1);
    assert g == Step(f, ops[n]);
    ModeStep(f, ops[n]);
    if SwitchAt(ops, n) {
      assert Born(ops, n, g.generation, g.mode.pending.tab);
    } else if g.mode.Switching? {
      var k :| 0 <= k < n && Born(ops, k, f.mode.pending.generation, f.mode.pending.tab)
                 && f.mode.pending.settleAt == ops[k].at + FOCUS_SETTLE_MS;
    }
  }

  lemma {:induction false} AlwaysTraced(ops: seq<Op>, n: nat)
    requires Timed(ops) && n <= |ops| && Switches(ops, n) < GENERATIONS
    ensures Traced(ops, n)
  {
    if n > 0 {
      SwitchesAscend(ops, n - 1, n);
      AlwaysTraced(ops, n - 1);
      PendingStep(ops, n - 1);
      var g := At(ops, n);
      if g.queued.Some? {
        ElapsedStep(ops, n - 1, g.queued.value);
      }
      if g.inFlight.Some? {
        ElapsedStep(ops, n - 1, g.inFlight.value.purpose);
      }
    }
  }

  /**
    A settled observation names the latest switch and the tab active at that moment, and comes
    no earlier than the settle window after that switch.
   */
  lemma SettlementOrigin(ops: seq<Op>, j: nat) returns (k: nat)
    requires Timed(ops) && j < |ops| && Switches(ops, j) < GENERATIONS && SettledAt(ops, j).Some?
    ensures k < j && SwitchAt(ops, k)
    ensures var settled := SettledAt(ops, j).value;
            && settled.generation == Switches(ops, k + 1) == Switches(ops, j)
            && ops[k].active == Some(settled.tab)
            && At(ops, j).activeTab == Some(settled.tab)
            && settled.clients == ops[j].clients
    ensures ops[k].at + FOCUS_SETTLE_MS <= ops[j].at
  {
    AlwaysTraced(ops, j);
    var f := At(ops, j);
    var settled := SettledAt(ops, j).value;
    var purpose := SwitchSettled(settled.generation, settled.tab);
    assert f.inFlight.Some? && f.inFlight.value.purpose == purpose;
    k :| 0 <= k < j && Born(ops, k, settled.generation, settled.tab) && ops[k].at + FOCUS_SETTLE_MS <= ops[j - 1].at;
    assert ops[j - 1].at <= ops[j].at;
  }

  /** Once a switch is settled its generation is spent. */
  lemma {:induction false} SettledIsSpent(ops: seq<Op>, i: nat, n: nat)
    requires Timed(ops) && i < n <= |ops| && Switches(ops, n) < GENERATIONS && SettledAt(ops, i).Some?
    ensures SettledAt(ops, i).value.generation <= Switches(ops, n)
    ensures At(ops, n).mode.Switching? ==> SettledAt(ops, i).value.generation < At(ops, n).mode.pending.generation
    decreases n
  {
    var m := n - 1;
    SwitchesAscend(ops, m, n);
    AlwaysTraced(ops, m);
    AlwaysTraced(ops, n);
    if i < m {
      SettledIsSpent(ops, i, m);
    }
  }

  /** Settled generations strictly increase, so every switch is settled at most once. */
  lemma SettlementsIncrease(ops: seq<Op>, i: nat, j: nat)
    requires Timed(ops) && i < j < |ops| && Switches(ops, |ops|) < GENERATIONS
    requires SettledAt(ops, i).Some? && SettledAt(ops, j).Some?
    ensures SettledAt(ops, i).value.generation < SettledAt(ops, j).value.generation
  {
    SwitchesAscend(ops, j, |ops|);
    SettledIsSpent(ops, i, j);
    AlwaysTraced(ops, j);
  }

  // ----- Client-sample freshness -----

  /** Op `i` sends `ListClients` to the host. */
  predicate AsksAt(ops: seq<Op>, i: nat)
    requires i < |ops|
  {
    ops[i].Drive? && Asks(At(ops, i), ops[i].at, ops[i].allowed)
  }

  /** The host's view: the ops whose query is still unanswered, oldest first. The host answers in order. */
  function Outstanding(ops: seq<Op>, n: nat): (asked: seq<nat>)
    requires n <= |ops|
    ensures forall j | 0 <= j < |asked| :: asked[j] < n && AsksAt(ops, asked[j])
  {
    if n == 0 then []
    else
      var asked := Outstanding(ops, n - 1);
      if AsksAt(ops, n - 1) then asked + [n - 1]
      else if ops[n - 1].Reply? && asked != [] then asked[1..]
      else asked
  }

  function LastInvalidation(ops: seq<Op>, n: nat): (i: Option<nat>)
    requires n <= |ops|
    ensures i.Some? ==> i.value < n && ops[i.value].Invalidate?
  {
    if n == 0 then None else if ops[n - 1].Invalidate? then Some(n - 1) else LastInvalidation(ops, n - 1)
  }

  function LastReply(ops: seq<Op>, n: nat): (i: Option<nat>)
    requires n <= |ops|
    ensures i.Some? ==> i.value < n && ops[i.value].Reply?
  {
    if n == 0 then None else if ops[n - 1].Reply? then Some(n - 1) else LastReply(ops, n - 1)
  }

  /** The op whose query the host answered to give the current sample. */
  function SampleSource(ops: seq<Op>, n: nat): Option<nat>
    requires n <= |ops|
  {
    if n == 0 then None
    else if ops[n - 1].Reply? then
      var asked := Outstanding(ops, n - 1);
      if asked == [] then None else Some(asked[0])
    else SampleSource(ops, n - 1)
  }

  /** Query `q` was asked after the latest roster invalidation. */
  predicate AskedSince(ops: seq<Op>, n: nat, q: nat)
    requires n <= |ops|
  {
    LastInvalidation(ops, n).None? || LastInvalidation(ops, n).value < q
  }

  /** The replies the machine expects: one for each expired query, and one for the query in flight. */
  function Expected(f: Focus): nat {
    f.staleReplies + if f.inFlight.Some? then 1 else 0
  }

  /** The machine expects exactly the replies the host still owes. */
  predicate Accounted(ops: seq<Op>, n: nat)
    requires n <= |ops|
  {
    |Outstanding(ops, n)| == Expected(At(ops, n))
  }

  /** A reply answers some query. */
  predicate Solicited(ops: seq<Op>, i: nat)
    requires i < |ops|
  {
    ops[i].Reply? ==> Outstanding(ops, i) != []
  }

  /** A reply does not find a query in flight behind an expired one. */
  predicate Attributable(ops: seq<Op>, i: nat)
    requires i < |ops|
  {
    ops[i].Reply? ==> var g := Expired(At(ops, i), ops[i].at); g.staleReplies == 0 || g.inFlight.None?
  }

  /** Every reply was asked for, and there are too few ops to saturate the count of stale replies. */
  predicate AskedHost(ops: seq<Op>) {
    |ops| <= U32_MAX && forall i | 0 <= i < |ops| :: Solicited(ops, i)
  }

  predicate AllAttributable(ops: seq<Op>, n: nat)
    requires n <= |ops|
  {
    forall i | 0 <= i < n :: Attributable(ops, i)
  }

  lemma {:induction false} StaleBound(ops: seq<Op>, n: nat)
    requires n <= |ops|
    ensures At(ops, n).staleReplies <= n
  {
    if n > 0 {
      StaleBound(ops, n - 1);
    }
  }

  lemma ExpiryExpects(f: Focus, now: nat)
    requires f.staleReplies < U32_MAX
    ensures Expected(Expired(f, now)) == Expected(f)
  {
  }

  /** What a reply does to the replies expected. */
  lemma ReplyExpects(f: Focus, clients: seq<ClientView>, now: nat)
    requires f.staleReplies < U32_MAX && Expected(f) > 0
    ensures var g, h := Expired(f, now), Replied(f, clients, now).0;
            && h.staleReplies == (if g.staleReplies > 0 then g.staleReplies - 1 else 0) && h.inFlight.None?
            && Expected(h) == Expected(f) - (if g.staleReplies > 0 && g.inFlight.Some? then 2 else 1)
  {
    ExpiryExpects(f, now);
  }

  lemma DriveExpects(f: Focus, now: nat, allowed: bool)
    requires f.staleReplies < U32_MAX
    ensures Expected(Driven(f, now, allowed)) == Expected(f) + if Asks(f, now, allowed) then 1 else 0
  {
    ExpiryExpects(f, now);
  }

  /**
    A reply taken with an expired query owed and another in flight drops the query in flight
    without expecting its reply: the host then owes one reply more than the machine expects.
   */
  lemma MiscountedReply(ops: seq<Op>, n: nat)
    requires AskedHost(ops) && n < |ops| && ops[n].Reply? && Accounted(ops, n) && !Attributable(ops, n)
    ensures |Outstanding(ops, n + 1)| == Expected(At(ops, n + 1)) + 1
  {
    StaleBound(ops, n);
    assert Solicited(ops, n);
    ReplyExpects(At(ops, n), ops[n].clients, ops[n].at);
  }

  lemma AccountedStep(ops: seq<Op>, n: nat)
    requires AskedHost(ops) && n < |ops| && Accounted(ops, n) && Attributable(ops, n)
    ensures Accounted(ops, n + 1)
  {
    StaleBound(ops, n);
    match ops[n] {
      case Reply(at, clients) =>
        assert Solicited(ops, n);
        ReplyExpects(At(ops, n), clients, at);
      case Drive(at, allowed) => DriveExpects(At(ops, n), at, allowed);
      case _ => QuietStep(At(ops, n), ops[n]);
    }
  }

  lemma {:induction false} AlwaysAccounted(ops: seq<Op>, n: nat)
    requires AskedHost(ops) && n <= |ops| && AllAttributable(ops, n)
    ensures Accounted(ops, n)
  {
    if n > 0 {
      AlwaysAccounted(ops, n - 1);
      assert Attributable(ops, n - 1);
      AccountedStep(ops, n - 1);
    }
  }

  /** The first reply that is not attributable, if there is one. */
  lemma {:induction false} FirstMiscount(ops: seq<Op>, n: nat) returns (k: nat)
    requires n <= |ops| && !AllAttributable(ops, n)
    ensures k < n && !Attributable(ops, k) && AllAttributable(ops, k)
  {
    if AllAttributable(ops, n - 1) {
      k := n - 1;
    } else {
      k := FirstMiscount(ops, n - 1);
    }
  }

  /** The machine expects exactly what the host owes throughout a run if and only if every reply is attributable. */
  lemma AccountedIffAttributable(ops: seq<Op>)
    requires AskedHost(ops)
    ensures AllAttributable(ops, |ops|) <==> forall n | 0 <= n <= |ops| :: Accounted(ops, n)
  {
    if AllAttributable(ops, |ops|) {
      forall n | 0 <= n <= |ops| ensures Accounted(ops, n) {
        AlwaysAccounted(ops, n);
      }
    } else {
      var k := FirstMiscount(ops, |ops|);
      AlwaysAccounted(ops, k);
      MiscountedReply(ops, k);
      assert !Accounted(ops, k + 1);
    }
  }

  /** The latest query asked is the one in flight, and carries its mark and times. */
  predicate FlightAsked(ops: seq<Op>, n: nat)
    requires n <= |ops|
  {
    var f, asked := At(ops, n), Outstanding(ops, n);
    f.inFlight.Some? ==>
      && asked != []
      && f.inFlight.value.issuedAt == ops[asked[|asked| - 1]].at
      && f.inFlight.value.deadline == ops[asked[|asked| - 1]].at + QUERY_TTL_MS
      && (f.inFlight.value.rosterInvalidated ==> f.rosterChangedAt.Some?)
      && (!f.inFlight.value.rosterInvalidated ==> AskedSince(ops, n, asked[|asked| - 1]))
  }

  /** While no invalidation is pending, every query owed was asked since the latest one. */
  predicate OwedSince(ops: seq<Op>, n: nat)
    requires n <= |ops|
  {
    At(ops, n).rosterChangedAt.None? ==>
      forall j | 0 <= j < |Outstanding(ops, n)| :: AskedSince(ops, n, Outstanding(ops, n)[j])
  }

  /** A publishable sample answers a query asked since the latest invalidation. */
  predicate SampledSince(ops: seq<Op>, n: nat)
    requires n <= |ops|
  {
    var f := At(ops, n);
    && (f.sample.Some? <==> LastReply(ops, n).Some?)
    && (f.sample.Some? ==> SampleSource(ops, n).Some?)
    && (PublishedSample(f).Some? ==> AskedSince(ops, n, SampleSource(ops, n).value))
  }

  predicate InStep(ops: seq<Op>, n: nat)
    requires n <= |ops|
  {
    Accounted(ops, n) && FlightAsked(ops, n) && OwedSince(ops, n) && SampledSince(ops, n)
  }

  /** Neither asking nor answering: a step keeps the query, the sample and the reply count. */
  lemma QuietStep(f: Focus, op: Op)
    requires !op.Reply? && !op.Drive?
    ensures var g := Step(f, op);
            && g.staleReplies == f.staleReplies && g.sample == f.sample
            && g.rosterChangedAt == (if op.Invalidate? then Some(op.at) else f.rosterChangedAt)
            && g.inFlight == (if op.Invalidate? && f.inFlight.Some?
                              then Some(f.inFlight.value.(rosterInvalidated := true)) else f.inFlight)
  {
  }

  lemma QuietInStep(ops: seq<Op>, n: nat)
    requires n < |ops| && !ops[n].Reply? && !ops[n].Drive? && InStep(ops, n)
    ensures FlightAsked(ops, n + 1) && OwedSince(ops, n + 1) && SampledSince(ops, n + 1)
  {
    QuietStep(At(ops, n), ops[n]);
    assert At(ops, n + 1) == Step(At(ops, n), ops[n]);
    assert Outstanding(ops, n + 1) == Outstanding(ops, n);
  }

  /** What a drive leaves: the query that was in flight, the one it asks, or none. */
  lemma DriveStep(f: Focus, now: nat, allowed: bool)
    requires now + QUERY_TTL_MS <= U64_MAX
    ensures var g := Driven(f, now, allowed);
            && g.sample == f.sample && g.rosterChangedAt == f.rosterChangedAt
            && if Asks(f, now, allowed)
               then && g.inFlight.Some? && g.inFlight.value.issuedAt == now && !g.inFlight.value.rosterInvalidated
                    && g.inFlight.value.deadline == now + QUERY_TTL_MS
               else g.inFlight == f.inFlight || g.inFlight.None?
  {
  }

  lemma DriveInStep(ops: seq<Op>, n: nat)
    requires Timed(ops) && n < |ops| && ops[n].Drive? && InStep(ops, n)
    ensures FlightAsked(ops, n + 1) && OwedSince(ops, n + 1) && SampledSince(ops, n + 1)
  {
    DriveStep(At(ops, n), ops[n].at, ops[n].allowed);
    assert At(ops, n + 1) == Driven(At(ops, n), ops[n].at, ops[n].allowed);
    assert LastInvalidation(ops, n + 1) == LastInvalidation(ops, n);
  }

  /** When a reply clears the invalidation, the query it answers was in flight alone and unmarked. */
  lemma ReplyClears(f: Focus, clients: seq<ClientView>, now: nat)
    requires f.rosterChangedAt.Some? && Replied(f, clients, now).0.rosterChangedAt.None?
    ensures f.inFlight.Some? && !f.inFlight.value.rosterInvalidated && f.staleReplies == 0
    ensures Expired(f, now) == f
  {
  }

  lemma ReplyInStep(ops: seq<Op>, n: nat)
    requires AskedHost(ops) && n < |ops| && ops[n].Reply? && InStep(ops, n)
    ensures FlightAsked(ops, n + 1) && OwedSince(ops, n + 1) && SampledSince(ops, n + 1)
  {
    var f, asked := At(ops, n), Outstanding(ops, n);
    StaleBound(ops, n);
    assert Solicited(ops, n);
    ReplyExpects(f, ops[n].clients, ops[n].at);
    assert At(ops, n + 1) == Replied(f, ops[n].clients, ops[n].at).0;
    assert LastInvalidation(ops, n + 1) == LastInvalidation(ops, n);
    assert SampleSource(ops, n + 1) == Some(asked[0]) && Outstanding(ops, n + 1) == asked[1..];
    if f.rosterChangedAt.Some? && At(ops, n + 1).rosterChangedAt.None? {
      ReplyClears(f, ops[n].clients, ops[n].at);
      assert |asked| == 1;
    }
  }

  lemma FirstInStep(ops: seq<Op>)
    ensures InStep(ops, 0)
  {
  }

  lemma NextInStep(ops: seq<Op>, n: nat)
    requires Timed(ops) && AskedHost(ops) && n < |ops| && InStep(ops, n) && Accounted(ops, n + 1)
    ensures InStep(ops, n + 1)
  {
    match ops[n] {
      case Reply(_, _) => ReplyInStep(ops, n);
      case Drive(_, _) => DriveInStep(ops, n);
      case _ => QuietInStep(ops, n);
    }
  }

  /** While every reply so far was attributable, the machine's queries and sample keep step with the host's. */
  lemma AlwaysInStep(ops: seq<Op>, n: nat)
    requires Timed(ops) && AskedHost(ops) && n <= |ops| && AllAttributable(ops, n)
    ensures InStep(ops, n)
  {
    forall k | 0 <= k <= n ensures Accounted(ops, k) {
      AlwaysAccounted(ops, k);
    }
    AccountedIsInStep(ops, n);
  }

  lemma {:induction false} AccountedIsInStep(ops: seq<Op>, n: nat)
    requires Timed(ops) && AskedHost(ops) && n <= |ops| && forall k | 0 <= k <= n :: Accounted(ops, k)
    ensures InStep(ops, n)
  {
    if n == 0 {
      FirstInStep(ops);
    } else {
      AccountedIsInStep(ops, n - 1);
      NextInStep(ops, n - 1);
    }
  }

  /** The current sample is the last reply's, whatever else happened since. */
  lemma {:induction false} SampleIsLastReply(ops: seq<Op>, n: nat)
    requires n <= |ops|
    ensures At(ops, n).sample ==
            if LastReply(ops, n).None? then None else Some(Views(ops[LastReply(ops, n).value].clients))
  {
    if n > 0 {
      SampleIsLastReply(ops, n - 1);
    }
  }

  /**
    While no reply finds a query in flight behind an expired one, a publishable sample answers a
    query asked after the latest roster invalidation.
   */
  lemma PublishedSampleIsFresh(ops: seq<Op>, n: nat) returns (q: nat, r: nat)
    requires Timed(ops) && AskedHost(ops) && n <= |ops| && AllAttributable(ops, n) && PublishedSample(At(ops, n)).Some?
    ensures q < r < n && AsksAt(ops, q) && ops[r].Reply?
    ensures Outstanding(ops, r) != [] && Outstanding(ops, r)[0] == q
    ensures PublishedSample(At(ops, n)).value == Views(ops[r].clients)
    ensures forall i | 0 <= i < n && ops[i].Invalidate? :: i < q
  {
    AlwaysInStep(ops, n);
    SampleIsLastReply(ops, n);
    q, r := SampleSource(ops, n).value, LastReply(ops, n).value;
    SourceOfReply(ops, n);
    forall i | 0 <= i < n && ops[i].Invalidate? ensures i < q {
      InvalidationsUpTo(ops, n, i);
    }
  }

  lemma {:induction false} SourceOfReply(ops: seq<Op>, n: nat)
    requires n <= |ops| && SampleSource(ops, n).Some?
    ensures LastReply(ops, n).Some? && Outstanding(ops, LastReply(ops, n).value) != []
    ensures Outstanding(ops, LastReply(ops, n).value)[0] == SampleSource(ops, n).value
  {
    if !ops[n - 1].Reply? {
      SourceOfReply(ops, n - 1);
    }
  }

  lemma {:induction false} InvalidationsUpTo(ops: seq<Op>, n: nat, i: nat)
    requires i < n <= |ops| && ops[i].Invalidate?
    ensures LastInvalidation(ops, n).Some? && i <= LastInvalidation(ops, n).value
  {
    if i < n - 1 {
      InvalidationsUpTo(ops, n - 1, i);
    }
  }

  /** Under a monotone clock the `issued_at` comparison agrees with the invalidation mark on every query in flight. */
  lemma {:induction false} UnmarkedQueryIsNewer(ops: seq<Op>, n: nat)
    requires Timed(ops) && n <= |ops|
    ensures var f := At(ops, n);
            && (f.rosterChangedAt.Some? ==> n > 0 && f.rosterChangedAt.value <= ops[n - 1].at)
            && (f.inFlight.Some? && f.rosterChangedAt.Some? && !f.inFlight.value.rosterInvalidated ==>
                  f.inFlight.value.issuedAt >= f.rosterChangedAt.value)
  {
    if n > 0 {
      UnmarkedQueryIsNewer(ops, n - 1);
    }
  }

  // ----- Prompt hosts -----

  /** At op `i` no unanswered query has reached its deadline. */
  predicate AnsweredInTime(ops: seq<Op>, i: nat)
    requires i < |ops|
  {
    forall j | 0 <= j < |Outstanding(ops, i)| :: ops[i].at < ops[Outstanding(ops, i)[j]].at + QUERY_TTL_MS
  }

  predicate PromptHost(ops: seq<Op>) {
    forall i | 0 <= i < |ops| :: AnsweredInTime(ops, i)
  }

  lemma PromptStep(ops: seq<Op>, n: nat)
    requires Timed(ops) && AskedHost(ops) && n < |ops| && InStep(ops, n) && At(ops, n).staleReplies == 0 && AnsweredInTime(ops, n)
    ensures Expired(At(ops, n), ops[n].at) == At(ops, n) && At(ops, n + 1).staleReplies == 0 && Attributable(ops, n)
  {
    var f, asked := At(ops, n), Outstanding(ops, n);
    if f.inFlight.Some? {
      assert ops[n].at < ops[asked[|asked| - 1]].at + QUERY_TTL_MS;
    }
    if !ops[n].Reply? && !ops[n].Drive? {
      QuietStep(f, ops[n]);
    }
  }

  /** A host that answers every query before its deadline makes every reply attributable. */
  lemma {:induction false} PromptIsAttributable(ops: seq<Op>, n: nat)
    requires Timed(ops) && AskedHost(ops) && PromptHost(ops) && n <= |ops|
    ensures AllAttributable(ops, n) && At(ops, n).staleReplies == 0
  {
    if n > 0 {
      PromptIsAttributable(ops, n - 1);
      AlwaysInStep(ops, n - 1);
      assert AnsweredInTime(ops, n - 1);
      PromptStep(ops, n - 1);
    }
  }

  /** A late reply that meets no query in flight is attributable, though the host is not prompt. */
  lemma LateReplyIsAttributable(view: ClientView)
    ensures var ops := [Observe(0), Drive(0, true), Reply(60_000, [view])];
            Timed(ops) && AskedHost(ops) && AllAttributable(ops, 3) && !PromptHost(ops)
  {
    var ops := [Observe(0), Drive(0, true), Reply(60_000, [view])];
    assert At(ops, 1) == IDLE.(queued := Some(General));
    assert At(ops, 2) == IDLE.(inFlight := Some(Query(General, 0, false, 60_000)));
    assert Outstanding(ops, 0) == Outstanding(ops, 1) == [];
    assert Outstanding(ops, 2) == [1];
    assert Solicited(ops, 0) && Solicited(ops, 1) && Solicited(ops, 2);
    assert Outstanding(ops, 2)[0] == 1 && ops[2].at == ops[1].at + QUERY_TTL_MS;
    assert !AnsweredInTime(ops, 2);
  }
}
