/** The stale-writer fence over every ordering of command results. */
module EngineFence {
  import opened Prelude
  import opened PokePolicy
  import opened ClientFocus
  import opened Room
  import opened Handlers
  import opened EngineRuns
  import opened EngineEffects
  import opened EngineWakes

  datatype Fence = Fence(muted: bool, rejections: nat, latestAccepted: Option<nat>)

  function FenceOf(s: State): Fence {
    Fence(s.muted, s.rejections, s.latestAccepted)
  }

  /** The event is a rejection newer than every accepted publication. */
  predicate Counts(f: Fence, event: Event) {
    && event.CommandResult? && event.issuedAt.Some? && event.exitCode == Some(STALE_WRITER_EXIT_CODE)
    && (f.latestAccepted.None? || event.issuedAt.value > f.latestAccepted.value)
  }

  /** The event clears the rejection count: an acceptance, or the dump that revives a muted engine. */
  predicate Clears(f: Fence, event: Event) {
    Accepts(event) || (event.DumpTopologyPipe? && f.muted)
  }

  /** What an event does to the fence; only a retirement may also mute. */
  predicate FenceMoves(f: Fence, e: Event, g: Fence) {
    if Accepts(e) then
      g == Fence(false, 0, Some(if f.latestAccepted.Some? then Max(f.latestAccepted.value, e.issuedAt.value)
                                else e.issuedAt.value))
    else if Clears(f, e) then g == Fence(false, 0, f.latestAccepted)
    else if Counts(f, e) then
      var rejections := Min(f.rejections + 1, U32_MAX);
      g == Fence(f.muted || rejections >= STALE_WRITER_MUTE_THRESHOLD, rejections, f.latestAccepted)
    else g == f || (e.RetirePipe? && g == f.(muted := true))
  }

  lemma FinishingFence(s: State, step: Step)
    requires Finishes(step.event)
    ensures FenceOf(Handle(s, step).state) == FenceOf(Entered(s, step))
  {
    FinishingHandler(s, step);
    if step.event.ClientsListed? {
      ClientsSettle(s, step.event.clients, step.at, step.host);
    } else {
      SeenIsTame(s, step);
    }
    FinishExtends(Seen(s, step), step.at, step.host);
  }

  lemma ResultFence(s: State, exitCode: Option<int>, issuedAt: Option<nat>, now: nat, host: Host)
    requires !(exitCode == Some(0) && issuedAt.Some?)
    ensures FenceMoves(FenceOf(s), CommandResult(exitCode, issuedAt),
                       FenceOf(AfterCommandResult(s, exitCode, issuedAt, now, host).state))
  {
    assert SameFence(s, Failed(s, now, host).state);
  }

  lemma DumpFence(s: State, now: nat, host: Host)
    ensures FenceMoves(FenceOf(s), DumpTopologyPipe, FenceOf(AfterDumpTopologyPipe(s, now, host).state))
  {
  }

  lemma RetireFence(s: State, generation: Option<Writer>)
    ensures FenceMoves(FenceOf(s), RetirePipe(generation), FenceOf(AfterRetirePipe(s, generation).state))
  {
  }

  lemma UserFence(s: State, clientId: nat, cliClientId: Option<nat>, buttonlessMotion: bool, now: nat)
    ensures FenceOf(AfterUserAction(s, clientId, cliClientId, buttonlessMotion, now).state) == FenceOf(s)
  {
  }

  lemma FenceStep(s: State, step: Step)
    ensures FenceMoves(FenceOf(s), step.event, FenceOf(Handle(s, step).state))
  {
    if Finishes(step.event) {
      FinishingFence(s, step);
    } else {
      match step.event {
        case CommandResult(exitCode, issuedAt) => ResultFence(s, exitCode, issuedAt, step.at, step.host);
        case DumpTopologyPipe => DumpFence(s, step.at, step.host);
        case RetirePipe(generation) => RetireFence(s, generation);
        case UserAction(clientId, cliClientId, motion) => UserFence(s, clientId, cliClientId, motion, step.at);
        case _ =>
      }
    }
  }

  // ----- Runs of the fence -----

  /** Event `i` leads from one fence to the next. */
  predicate Moves(fences: seq<Fence>, events: seq<Event>, i: nat)
    requires i < |events| && |fences| == |events| + 1
  {
    FenceMoves(fences[i], events[i], fences[i + 1])
  }

  predicate FenceRun(fences: seq<Fence>, events: seq<Event>) {
    && |fences| == |events| + 1 && fences[0] == Fence(false, 0, None)
    && forall i | 0 <= i < |events| :: Moves(fences, events, i)
  }

  predicate CountsAt(fences: seq<Fence>, events: seq<Event>, i: nat)
    requires i < |events| && |fences| == |events| + 1
  {
    Counts(fences[i], events[i])
  }

  predicate ClearsAt(fences: seq<Fence>, events: seq<Event>, i: nat)
    requires i < |events| && |fences| == |events| + 1
  {
    Clears(fences[i], events[i])
  }

  /** The rejections counted since the last clearing event. */
  function Streak(fences: seq<Fence>, events: seq<Event>, n: nat): nat
    requires n <= |events| && |fences| == |events| + 1
  {
    if n == 0 || ClearsAt(fences, events, n - 1) then 0
    else Streak(fences, events, n - 1) + if CountsAt(fences, events, n - 1) then 1 else 0
  }

  lemma {:induction false} CounterIsStreak(fences: seq<Fence>, events: seq<Event>, n: nat)
    requires FenceRun(fences, events) && n <= |events|
    ensures fences[n].rejections == Min(Streak(fences, events, n), U32_MAX)
  {
    if n > 0 {
      CounterIsStreak(fences, events, n - 1);
      assert Moves(fences, events, n - 1);
    }
  }

  /** The latest counted rejection of a streak, with nothing clearing it since. */
  lemma {:induction false} LastCounted(fences: seq<Fence>, events: seq<Event>, n: nat) returns (a: nat)
    requires FenceRun(fences, events) && n <= |events| && Streak(fences, events, n) > 0
    ensures a < n && CountsAt(fences, events, a) && Streak(fences, events, a) == Streak(fences, events, n) - 1
    ensures forall i | a <= i < n :: !ClearsAt(fences, events, i)
    ensures fences[n].latestAccepted == fences[a].latestAccepted
  {
    a := n - 1;
    assert Moves(fences, events, a);
    if !CountsAt(fences, events, a) {
      a := LastCounted(fences, events, n - 1);
    }
  }

  /** The watermark is the newest publication accepted so far. */
  predicate IsNewest(events: seq<Event>, n: nat, watermark: Option<nat>)
    requires n <= |events|
  {
    && (forall i | 0 <= i < n && Accepts(events[i]) ::
          watermark.Some? && events[i].issuedAt.value <= watermark.value)
    && (watermark.Some? ==> exists i | 0 <= i < n :: Accepts(events[i]) && events[i].issuedAt == watermark)
  }

  lemma {:induction false} WatermarkIsNewest(fences: seq<Fence>, events: seq<Event>, n: nat)
    requires FenceRun(fences, events) && n <= |events|
    ensures IsNewest(events, n, fences[n].latestAccepted)
  {
    if n > 0 {
      WatermarkIsNewest(fences, events, n - 1);
      assert Moves(fences, events, n - 1);
      var before, after := fences[n - 1].latestAccepted, fences[n].latestAccepted;
      if after.Some? && after == before {
        var i :| 0 <= i < n - 1 && Accepts(events[i]) && events[i].issuedAt == before;
      }
    }
  }

  lemma {:induction false} WatermarkAscends(fences: seq<Fence>, events: seq<Event>, m: nat, n: nat)
    requires FenceRun(fences, events) && m <= n <= |events| && fences[m].latestAccepted.Some?
    ensures fences[n].latestAccepted.Some? && fences[m].latestAccepted.value <= fences[n].latestAccepted.value
    decreases n
  {
    if m < n {
      WatermarkAscends(fences, events, m, n - 1);
      assert Moves(fences, events, n - 1);
    }
  }

  /** The publication accepted by event `i`, if any, is older than `issuedAt`. */
  predicate OlderAccepted(events: seq<Event>, i: nat, issuedAt: nat)
    requires i < |events|
  {
    Accepts(events[i]) ==> events[i].issuedAt.value < issuedAt
  }

  /** Event `r` is a rejection issued after every publication accepted before event `c`. */
  predicate RejectionAt(events: seq<Event>, r: nat, c: nat)
    requires r <= c < |events|
  {
    var event := events[r];
    && event.CommandResult? && event.exitCode == Some(STALE_WRITER_EXIT_CODE) && event.issuedAt.Some?
    && forall i | 0 <= i < c :: OlderAccepted(events, i, event.issuedAt.value)
  }

  lemma MutingStreak(fences: seq<Fence>, events: seq<Event>, c: nat) returns (a: nat, b: nat)
    requires FenceRun(fences, events) && c < |events| && events[c].CommandResult?
    requires !fences[c].muted && fences[c + 1].muted
    ensures a < b < c && RejectionAt(events, a, c) && RejectionAt(events, b, c) && RejectionAt(events, c, c)
    ensures forall i | a <= i <= c :: !ClearsAt(fences, events, i)
  {
    assert Moves(fences, events, c);
    CounterIsStreak(fences, events, c);
    b := LastCounted(fences, events, c);
    a := LastCounted(fences, events, b);
    WatermarkIsNewest(fences, events, c);
  }

  // ----- Runs of the engine -----

  function Fences(run: Run): seq<Fence> {
    seq(|run.steps| + 1, i requires 0 <= i <= |run.steps| => FenceOf(At(run, i)))
  }

  lemma Placed(fences: seq<Fence>, events: seq<Event>, i: nat, f: Fence, e: Event, g: Fence)
    requires i < |events| && |fences| == |events| + 1 && FenceMoves(f, e, g)
    requires fences[i] == f && events[i] == e && fences[i + 1] == g
    ensures Moves(fences, events, i)
  {
  }

  lemma EngineMoves(run: Run, i: nat)
    requires i < |run.steps|
    ensures Moves(Fences(run), Events(run), i)
  {
    var f, g := FenceOf(At(run, i)), FenceOf(At(run, i + 1));
    assert FenceMoves(f, run.steps[i].event, g) by {
      FenceStep(At(run, i), run.steps[i]);
    }
    Placed(Fences(run), Events(run), i, f, run.steps[i].event, g);
  }

  /** The engine's fence is a run of the fence. */
  lemma FencesMove(run: Run)
    ensures FenceRun(Fences(run), Events(run))
  {
    forall i | 0 <= i < |run.steps| ensures Moves(Fences(run), Events(run), i) {
      EngineMoves(run, i);
    }
  }

  /**
    A command result mutes the engine only as the third rejection of a streak: three rejections,
    each issued after every publication accepted so far, with no acceptance or revival between.
   */
  lemma MuteNeedsThreeRejections(run: Run, c: nat) returns (a: nat, b: nat)
    requires c < |run.steps| && run.steps[c].event.CommandResult?
    requires !Fences(run)[c].muted && Fences(run)[c + 1].muted
    ensures a < b < c
    ensures RejectionAt(Events(run), a, c) && RejectionAt(Events(run), b, c) && RejectionAt(Events(run), c, c)
    ensures forall i | a <= i <= c :: !ClearsAt(Fences(run), Events(run), i)
  {
    FencesMove(run);
    a, b := MutingStreak(Fences(run), Events(run), c);
  }

  /** Conversely, a third counted rejection in a row always mutes. */
  lemma ThirdRejectionMutes(run: Run, c: nat)
    requires c < |run.steps| && CountsAt(Fences(run), Events(run), c) && Streak(Fences(run), Events(run), c) >= 2
    ensures Fences(run)[c + 1].muted
  {
    FencesMove(run);
    assert Moves(Fences(run), Events(run), c);
    CounterIsStreak(Fences(run), Events(run), c);
  }

  /** The accepted watermark never decreases. */
  lemma AcceptedWatermarkAscends(run: Run, m: nat, n: nat)
    requires m <= n <= |run.steps| && Fences(run)[m].latestAccepted.Some?
    ensures Fences(run)[n].latestAccepted.Some?
    ensures Fences(run)[m].latestAccepted.value <= Fences(run)[n].latestAccepted.value
  {
    FencesMove(run);
    WatermarkAscends(Fences(run), Events(run), m, n);
  }

  /** A muted engine publishes no topology and asks for no clients until an acceptance or a dump, and stays muted. */
  lemma SilentStep(s: State, step: Step, k: nat)
    requires Silenced(s, step)
    ensures Handle(s, step).state.muted
    ensures k < |Handle(s, step).effects| ==>
              var e := Handle(s, step).effects[k];
              !CarriesTopology(e) && !e.ListClients? && (e.RunCommand? ==> e.topologyIssuedAt.None?)
  {
    FenceStep(s, step);
    if k < |Handle(s, step).effects| {
      EffectIsLawful(s, step, k);
    }
  }

  lemma MutedIsSilent(run: Run, i: nat, k: nat)
    requires i < |run.steps| && Silenced(At(run, i), run.steps[i])
    ensures At(run, i + 1).muted
    ensures k < |EffectsAt(run, i)| ==>
              var e := EffectsAt(run, i)[k];
              !CarriesTopology(e) && !e.ListClients? && (e.RunCommand? ==> e.topologyIssuedAt.None?)
  {
    SilentStep(At(run, i), run.steps[i], k);
  }

  // ----- Pipes -----

  /** The pipes that only ask the host to act. */
  predicate IsActionPipe(event: Event) {
    event.FocusSidebarPipe? || event.ZoomPanePipe? || event.PalettePipe? || event.FullscreenPipe?
  }

  /**
    An action pipe never changes the engine, says nothing while it is muted or not granted, and
    otherwise emits at most one effect, which neither publishes, nor asks for clients, nor arms a timer.
   */
  lemma ActionPipesAreGuarded(run: Run, i: nat)
    requires i < |run.steps| && IsActionPipe(run.steps[i].event)
    ensures At(run, i + 1) == At(run, i) && |EffectsAt(run, i)| <= 1
    ensures At(run, i).muted || !At(run, i).granted ==> EffectsAt(run, i) == []
    ensures forall k | 0 <= k < |EffectsAt(run, i)| ::
              var e := EffectsAt(run, i)[k];
              !CarriesTopology(e) && !IsSettledWake(e) && !e.ListClients? && !e.SetTimeout?
  {
  }

  lemma {:induction false} MuteHolds(fences: seq<Fence>, events: seq<Event>, m: nat, n: nat)
    requires FenceRun(fences, events) && m <= n <= |events| && fences[m].muted
    requires forall i | m <= i < n :: !ClearsAt(fences, events, i)
    ensures fences[n].muted
    decreases n
  {
    if m < n {
      MuteHolds(fences, events, m, n - 1);
      assert Moves(fences, events, n - 1) && !ClearsAt(fences, events, n - 1);
    }
  }

  /** From the step that mutes it to the next acceptance or dump, nothing the engine does carries topology. */
  lemma MutedSpanIsSilent(run: Run, m: nat, n: nat, k: nat)
    requires m <= n < |run.steps| && Fences(run)[m].muted && k < |EffectsAt(run, n)|
    requires forall i | m <= i <= n :: !ClearsAt(Fences(run), Events(run), i)
    ensures var e := EffectsAt(run, n)[k];
            !CarriesTopology(e) && !e.ListClients? && (e.RunCommand? ==> e.topologyIssuedAt.None?)
  {
    FencesMove(run);
    MuteHolds(Fences(run), Events(run), m, n);
    assert !ClearsAt(Fences(run), Events(run), n);
    assert Fences(run)[n] == FenceOf(At(run, n)) && Events(run)[n] == run.steps[n].event;
    MutedIsSilent(run, n, k);
  }
}
