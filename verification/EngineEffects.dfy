/** What every handler may emit, and which parts of the state it may move before `finish_update`. */
module EngineEffects {
  import opened Prelude
  import opened PokePolicy
  import opened ClientFocus
  import opened Room
  import opened Handlers
  import opened EngineRuns
  import RoomHash

  /** The topology of a command: published now, by an unmuted engine, with the given client sample. */
  predicate Publishes(topology: Option<Topology>, issuedAt: Option<nat>, at: nat, muted: bool, sample: Option<set<ClientView>>) {
    && issuedAt == (if topology.Some? then Some(at) else None)
    && (topology.Some? ==> !muted && topology.value.producedAt == at && topology.value.clients == sample)
  }

  /** An effect that neither arms a timer nor settles a switch, and publishes only the given sample. */
  predicate Plain(e: Effect, at: nat, muted: bool, sample: Option<set<ClientView>>) {
    match e
    case SetTimeout(_) => false
    case ListClients => !muted
    case RunCommand(Wake(_, request, topology), issuedAt) =>
      !request.SettledWake? && Publishes(topology, issuedAt, at, muted, sample)
    case RunCommand(_, issuedAt) => issuedAt.None?
    case _ => true
  }

  predicate AllPlain(effects: seq<Effect>, at: nat, muted: bool, sample: Option<set<ClientView>>) {
    forall i | 0 <= i < |effects| :: Plain(effects[i], at, muted, sample)
  }

  /** The writer fence is untouched. */
  predicate SameFence(s: State, t: State) {
    t.muted == s.muted && t.rejections == s.rejections && t.latestAccepted == s.latestAccepted
  }

  /** Plain effects, the timer mark and the writer fence untouched, the policy signalled at most. */
  predicate Tame(s: State, o: Outcome, at: nat) {
    && AllPlain(o.effects, at, s.muted, PublishedSample(s.focus))
    && o.state.armedFor == s.armedFor && SameFence(s, o.state)
    && (o.state.policy == s.policy || o.state.policy == Signalled(s.policy, at))
  }

  lemma WakeIsPublished(s: State, request: Request, now: nat, host: Host)
    requires CanWake(s, request)
    ensures var e := WakeEffect(s, request, now, host);
            && e.RunCommand? && e.command.Wake? && e.command.request == request
            && Publishes(e.command.topology, e.topologyIssuedAt, now, s.muted, PublishedSample(s.focus))
  {
  }

  lemma PokedIsTame(o: Outcome, poke: Poke, now: nat, host: Host)
    requires AllPlain(o.effects, now, o.state.muted, PublishedSample(o.state.focus))
    ensures AllPlain(Poked(o, poke, now, host).effects, now, o.state.muted, PublishedSample(o.state.focus))
    ensures Poked(o, poke, now, host).state == o.state
  {
    var request := PokeRequest(o.state, poke, now);
    if CanWake(o.state, request) {
      WakeIsPublished(o.state, request, now, host);
    }
  }

  lemma GrantIsTame(o: Outcome, now: nat, host: Host)
    requires AllPlain(o.effects, now, o.state.muted, PublishedSample(o.state.focus))
    ensures Tame(o.state, MarkedGranted(o, now, host), now)
  {
    if !o.state.granted {
      var first := Reconfigured(o.(state := o.state.(granted := true, focus := Observed(o.state.focus))));
      assert PublishedSample(first.state.focus) == PublishedSample(o.state.focus);
      PokedIsTame(first, Alive, now, host);
    }
  }

  lemma MergeIsTame(s: State, reports: seq<TabReport>, now: nat, host: Host)
    ensures Merged(s, reports, now, host).armedFor == s.armedFor
    ensures SameFence(s, Merged(s, reports, now, host))
    ensures var policy := Merged(s, reports, now, host).policy;
            policy == s.policy || policy == Signalled(s.policy, now)
  {
  }

  lemma ObservedIsTame(s: State, digest: RoomHash.Digest)
    ensures var t := s.(focus := Observed(s.focus), lastHash := Some(digest));
            t.armedFor == s.armedFor && SameFence(s, t) && t.policy == s.policy
  {
  }

  /** A reduced manifest leaves the timer and the fence alone, whether merged or skipped. */
  lemma ReducedIsTame(g: State, digest: RoomHash.Digest, reports: seq<TabReport>, now: nat, host: Host, skips: bool)
    ensures var observed := g.(focus := Observed(g.focus), lastHash := Some(digest));
            var t := if skips then observed else Merged(observed, reports, now, host);
            && t.armedFor == g.armedFor && SameFence(g, t)
            && (t.policy == g.policy || t.policy == Signalled(g.policy, now))
  {
    ObservedIsTame(g, digest);
    MergeIsTame(g.(focus := Observed(g.focus), lastHash := Some(digest)), reports, now, host);
  }

  lemma ManifestIsTame(s: State, digest: RoomHash.Digest, reports: seq<TabReport>, now: nat, host: Host)
    ensures Tame(s, ManifestSeen(s, digest, reports, now, host), now)
  {
    GrantIsTame(Outcome(s, []), now, host);
    var o := MarkedGranted(Outcome(s, []), now, host);
    ReducedIsTame(o.state, digest, reports, now, host, SkipsManifest(o.state, digest));
  }

  lemma NotingIsTame(s: State, connected: Option<nat>, now: nat)
    ensures var t := ClientsNoted(s, connected, now);
            && t.armedFor == s.armedFor && SameFence(s, t)
            && (t.policy == s.policy || t.policy == Signalled(s.policy, now))
  {
  }

  lemma SessionIsTame(s: State, connected: Option<nat>, now: nat, host: Host)
    ensures Tame(s, SessionSeen(s, connected, now, host), now)
  {
    var start := if Attaches(s, connected) then Reconfigured(Outcome(s, [])) else Outcome(s, []);
    GrantIsTame(start, now, host);
    NotingIsTame(MarkedGranted(start, now, host).state, connected, now);
  }

  lemma StampIsTame(
    s: State, active: Option<nat>, tabNames: map<nat, string>, tabIds: map<nat, nat>, otherViewed: set<nat>, now: nat
  )
    ensures var t := TabsStamped(s, active, tabNames, tabIds, otherViewed, now);
            && t.armedFor == s.armedFor && SameFence(s, t)
            && (t.policy == s.policy || t.policy == Signalled(s.policy, now))
  {
  }

  lemma TabsAreTame(
    s: State, active: Option<nat>, tabNames: map<nat, string>, tabIds: map<nat, nat>, otherViewed: set<nat>,
    now: nat, host: Host
  )
    ensures Tame(s, TabsSeen(s, active, tabNames, tabIds, otherViewed, now, host), now)
  {
    GrantIsTame(Outcome(s, []), now, host);
    StampIsTame(MarkedGranted(Outcome(s, []), now, host).state, active, tabNames, tabIds, otherViewed, now);
  }

  lemma CloseIsTame(s: State, pane: PaneId, now: nat, host: Host)
    ensures Tame(s, CloseSeen(s, pane, now, host), now)
  {
    GrantIsTame(Outcome(s, []), now, host);
  }

  lemma InputIsTame(o: Outcome, now: nat)
    requires AllPlain(o.effects, now, o.state.muted, PublishedSample(o.state.focus))
    ensures Tame(o.state, InputPublished(o, now), now)
    ensures InputPublished(o, now).state.policy == o.state.policy
  {
  }

  /** The events that prove the grant on their own. */
  predicate ProvesGrant(event: Event) {
    event.PermissionGranted? || event.PaneManifest? || event.TabUpdate? || event.PaneClosed? || event.SessionUpdate?
  }

  lemma GrantingSeenIsTame(s: State, step: Step)
    requires ProvesGrant(step.event)
    ensures Tame(s, Seen(s, step), step.at)
  {
    var at, host := step.at, step.host;
    match step.event {
      case PermissionGranted => GrantIsTame(Outcome(s, [HideSelf]), at, host);
      case PaneManifest(digest, reports) => ManifestIsTame(s, digest, reports, at, host);
      case TabUpdate(active, tabNames, tabIds, otherViewed) =>
        TabsAreTame(s, active, tabNames, tabIds, otherViewed, at, host);
      case PaneClosed(pane) => CloseIsTame(s, pane, at, host);
      case SessionUpdate(connected) => SessionIsTame(s, connected, at, host);
    }
  }

  /** The fence an accepted publication leaves. */
  function Unfenced(s: State, issuedAt: nat): State {
    s.(muted := false, rejections := 0,
       latestAccepted := Some(if s.latestAccepted.Some? then Max(s.latestAccepted.value, issuedAt) else issuedAt))
  }

  /** The state a handler starts from: a fired timer has cleared its mark, an acceptance the fence. */
  function Entered(s: State, step: Step): State {
    if step.event.Timer? then s.(armedFor := Fired(s.armedFor, step.at))
    else if Accepts(step.event) then Unfenced(s, step.event.issuedAt.value)
    else s
  }

  lemma CommandIsTame(s: State, pane: PaneId, command: seq<string>, isForeground: bool, now: nat)
    ensures Tame(s, CommandSeen(s, pane, command, isForeground, now), now)
  {
  }

  lemma CwdIsTame(s: State, pane: PaneId, cwd: Option<string>, now: nat)
    ensures Tame(s, CwdSeen(s, pane, cwd, now), now)
  {
  }

  lemma AcceptanceIsTame(s: State, issuedAt: nat, now: nat)
    ensures Tame(Unfenced(s, issuedAt), Outcome(Accepted(s, issuedAt, now), []), now)
  {
  }

  lemma LocalSeenIsTame(s: State, step: Step)
    requires Finishes(step.event) && !step.event.ClientsListed? && !step.event.Timer? && !ProvesGrant(step.event)
    ensures Tame(Entered(s, step), Seen(s, step), step.at)
  {
    match step.event {
      case CommandChanged(pane, command, isForeground) => CommandIsTame(s, pane, command, isForeground, step.at);
      case CwdChanged(pane, cwd) => CwdIsTame(s, pane, cwd, step.at);
      case CommandResult(_, issuedAt) => AcceptanceIsTame(s, issuedAt.value, step.at);
      case _ =>
    }
  }

  lemma SeenIsTame(s: State, step: Step)
    requires Finishes(step.event) && !step.event.ClientsListed?
    ensures Tame(Entered(s, step), Seen(s, step), step.at)
  {
    if ProvesGrant(step.event) {
      GrantingSeenIsTame(s, step);
    } else if step.event.Timer? {
      InputIsTame(Outcome(Entered(s, step), []), step.at);
    } else {
      LocalSeenIsTame(s, step);
    }
  }

  /** The settled wake of a client reply, if it carries one. */
  predicate SettlesOnly(s: State, o: Outcome, clients: seq<ClientView>, now: nat) {
    var settled := Replied(s.focus, clients, now).1.settled;
    || o.effects == []
    || (&& |o.effects| == 1 && settled.Some?
        && o.effects[0].RunCommand? && o.effects[0].command.Wake?
        && o.effects[0].command.request == SettledWake(settled.value.tab, settled.value.generation, settled.value.clients)
        && Publishes(o.effects[0].command.topology, o.effects[0].topologyIssuedAt, now, s.muted,
                     PublishedSample(o.state.focus)))
  }

  lemma ClientsSettle(s: State, clients: seq<ClientView>, now: nat, host: Host)
    ensures var o := ClientsSeen(s, clients, now, host);
            && SettlesOnly(s, o, clients, now)
            && o.state.focus == Replied(s.focus, clients, now).0
            && o.state.armedFor == s.armedFor && SameFence(s, o.state)
            && (o.state.policy == s.policy || o.state.policy == Signalled(s.policy, now))
  {
    var (focus, update) := Replied(s.focus, clients, now);
    if update.settled.Some? {
      var request := SettledWake(update.settled.value.tab, update.settled.value.generation, update.settled.value.clients);
      if CanWake(s.(focus := focus), request) {
        WakeIsPublished(s.(focus := focus), request, now, host);
      }
    }
  }

  // ----- `finish_update` -----

  /** The effects of `finish_update` after those of the handler: plain ones, then at most one timer. */
  predicate Extends(before: seq<Effect>, after: seq<Effect>, at: nat, muted: bool, sample: Option<set<ClientView>>) {
    && before <= after
    && forall i | |before| <= i < |after| ::
         Plain(after[i], at, muted, sample) || (i == |after| - 1 && after[i].SetTimeout?)
  }

  lemma PokedExtends(before: seq<Effect>, o: Outcome, poke: Poke, now: nat, host: Host)
    requires before <= o.effects
    requires AllPlain(o.effects[|before|..], now, o.state.muted, PublishedSample(o.state.focus))
    ensures var p := Poked(o, poke, now, host);
            && p.state == o.state && before <= p.effects
            && AllPlain(p.effects[|before|..], now, o.state.muted, PublishedSample(o.state.focus))
  {
    var request := PokeRequest(o.state, poke, now);
    if CanWake(o.state, request) {
      WakeIsPublished(o.state, request, now, host);
      var p := Poked(o, poke, now, host);
      assert p.effects[|before|..] == o.effects[|before|..] + [WakeEffect(o.state, request, now, host)];
    }
  }

  /** The focus a due keepalive leaves. */
  function AliveFocus(s: State, now: nat): Focus {
    if Alive in DuePokes(s.policy, now) then Observed(s.focus) else s.focus
  }

  lemma DispatchExtends(o: Outcome, now: nat, host: Host)
    ensures var d := DueDispatched(o, now, host);
            && o.effects <= d.effects
            && AllPlain(d.effects[|o.effects|..], now, o.state.muted, PublishedSample(o.state.focus))
            && d.state == o.state.(policy := Consulted(o.state.policy, now), focus := AliveFocus(o.state, now))
  {
    var pokes := DuePokes(o.state.policy, now);
    var start := o.(state := o.state.(policy := Consulted(o.state.policy, now)));
    assert start.effects[|o.effects|..] == [];
    PokedExtends(o.effects, start, Changed, now, host);
    var changed := if Changed in pokes then Poked(start, Changed, now, host) else start;
    var observed := changed.(state := changed.state.(focus := Observed(changed.state.focus)));
    PokedExtends(o.effects, observed, Alive, now, host);
  }

  /** The state `finish_update` leaves, but for the timer mark. */
  function FinishedState(s: State, now: nat): State {
    s.(policy := Consulted(s.policy, now), focus := Driven(AliveFocus(s, now), now, !s.muted))
  }

  lemma QueryExtends(o: Outcome, now: nat)
    ensures var q := QueryDriven(o, now);
            && q.state == o.state.(focus := Driven(o.state.focus, now, !o.state.muted))
            && q.effects == o.effects + if Asks(o.state.focus, now, !o.state.muted) then [ListClients] else []
  {
  }

  lemma RearmExtends(o: Outcome, now: nat)
    ensures var r := Rearmed(o, now);
            && r.state == o.state.(armedFor := r.state.armedFor)
            && (r.effects == o.effects || exists delay :: r.effects == o.effects + [SetTimeout(delay)])
  {
  }

  lemma FinishExtends(o: Outcome, now: nat, host: Host)
    ensures var r := Finished(o, now, host);
            && Extends(o.effects, r.effects, now, o.state.muted, PublishedSample(o.state.focus))
            && r.state == FinishedState(o.state, now).(armedFor := r.state.armedFor)
  {
    DispatchExtends(o, now, host);
    var d := DueDispatched(o, now, host);
    forall i | |o.effects| <= i < |d.effects| ensures Plain(d.effects[i], now, o.state.muted, PublishedSample(o.state.focus)) {
      assert d.effects[i] == d.effects[|o.effects|..][i - |o.effects|];
    }
    QueryExtends(d, now);
    RearmExtends(QueryDriven(d, now), now);
  }

  // ----- Handlers without `finish_update` -----

  /** The mute and the focus a handler publishes under when it does not finish: a dump revives first. */
  function Speaking(s: State, step: Step): State {
    if step.event.DumpTopologyPipe? then Revived(s, step.at) else s
  }

  lemma DumpExtends(s: State, now: nat, host: Host)
    ensures var r := Revived(s, now);
            Extends([], AfterDumpTopologyPipe(s, now, host).effects, now, r.muted, PublishedSample(r.focus))
  {
    var r := Revived(s, now);
    if r.granted {
      var probed := Outcome(r.(room := Probed(r.room, host.pids)), []);
      PokedIsTame(probed, Alive, now, host);
      var poked := Poked(probed, Alive, now, host);
      QueryExtends(poked, now);
      RearmExtends(QueryDriven(poked, now), now);
    }
  }

  lemma UserExtends(s: State, step: Step)
    requires step.event.UserAction?
    ensures Extends([], Handle(s, step).effects, step.at, s.muted, PublishedSample(s.focus))
  {
    var o := Outcome(s.(pendingInput := Some(step.at)), []);
    InputIsTame(o, step.at);
    RearmExtends(InputPublished(o, step.at), step.at);
  }

  lemma ResultExtends(s: State, exitCode: Option<int>, issuedAt: Option<nat>, now: nat, host: Host)
    requires !(exitCode == Some(0) && issuedAt.Some?)
    ensures Extends([], AfterCommandResult(s, exitCode, issuedAt, now, host).effects, now, s.muted, PublishedSample(s.focus))
  {
    PokedIsTame(Outcome(s.(config := s.config.(rimzBin := None), wakeForkFailures := 0), []), Alive, now, host);
  }

  lemma OtherExtends(s: State, step: Step)
    requires !Finishes(step.event)
    ensures var t := Speaking(s, step);
            Extends([], Handle(s, step).effects, step.at, t.muted, PublishedSample(t.focus))
  {
    match step.event {
      case UserAction(_, _, _) => UserExtends(s, step);
      case DumpTopologyPipe => DumpExtends(s, step.at, step.host);
      case CommandResult(exitCode, issuedAt) => ResultExtends(s, exitCode, issuedAt, step.at, step.host);
      case _ =>
    }
  }
}
