/**
  The decision engine of the presence plugin: host events in, effects out. Each handler is a
  function from a state to a state and effects; the class `Engine` performs the same handlers
  in place and is proved against them (module PluginEngine).
 */
module Handlers {
  import opened Prelude
  import opened PokePolicy
  import opened ClientFocus
  import opened Room
  import RoomHash

  const INPUT_PUBLISH_FLOOR_MS: nat := 1_000
  const WAKE_FORK_FALLBACK_THRESHOLD: nat := 3
  const STALE_WRITER_MUTE_THRESHOLD: nat := 3
  const STALE_WRITER_EXIT_CODE: int := 73

  /** `runtimeKdl` is the payload `runtime_reconfigure_kdl` builds from the load configuration. */
  datatype Config = Config(
    sessionName: Option<string>,
    workspaceId: Option<string>,
    rimzBin: Option<string>,
    pluginId: Option<nat>,
    clientId: Option<nat>,
    build: Option<string>,
    config: Option<string>,
    runtimeKdl: Option<string>)

  datatype Writer = Writer(
    pluginId: nat, clientId: Option<nat>, loadedAt: nat, build: Option<string>, config: Option<string>)

  datatype Topology = Topology(
    sessionName: string,
    producedAt: nat,
    writer: Option<Writer>,
    clients: Option<set<ClientView>>,
    clientsWithheld: bool,
    panes: map<PaneKey, PaneFields>)

  datatype Request =
    | ChangedWake
    | AliveWake(uptime: nat)
    | InputWake(clientId: nat, lastInput: nat)
    | SettledWake(tab: nat, generation: nat, clients: seq<ClientView>)

  datatype Command =
    | Wake(bin: Option<string>, request: Request, topology: Option<Topology>)
    | FocusSidebar
    | ZoomPane
    | Palette(mode: string, focus: Option<PaneId>)

  datatype Effect =
    | RunCommand(command: Command, topologyIssuedAt: Option<nat>)
    | HideSelf
    | Reconfigure(kdl: string)
    | CloseSelf
    | SetTimeout(delay: nat)
    | ListClients
    | TogglePaneFullscreen(pane: PaneId)

  /** Host answers: pids of live panes, and whether a topology serializes within the wire ceiling. */
  datatype Host = Host(pids: map<nat, nat>, fits: Topology -> bool)

  datatype State = State(
    config: Config,
    policy: Schedule,
    room: Roster,
    manifestApplied: bool,
    lastHash: Option<RoomHash.Digest>,
    tabNames: map<nat, string>,
    viewedTabs: set<nat>,
    focus: Focus,
    granted: bool,
    pendingPregrantChange: bool,
    armedFor: Option<nat>,
    loadedAt: nat,
    muted: bool,
    wakeForkFailures: nat,
    rejections: nat,
    latestAccepted: Option<nat>,
    lastInputPublishedAt: Option<nat>,
    pendingInput: Option<nat>)

  function Initial(now: nat, config: Config): State {
    State(config, Fresh(now), map[], false, None, map[], {}, IDLE, false, false, None, now, false, 0, 0, None, None, None)
  }

  datatype Outcome = Outcome(state: State, effects: seq<Effect>)

  function Emit(o: Outcome, effect: Effect): Outcome {
    o.(effects := o.effects + [effect])
  }

  // ----- Publication -----

  function WriterOf(s: State): Writer {
    Writer(if s.config.pluginId.Some? then s.config.pluginId.value else 0,
           s.config.clientId, s.loadedAt, s.config.build, s.config.config)
  }

  function ViewedPane(pane: PaneFields, viewedTabs: set<nat>): PaneFields {
    pane.(tabViewed := pane.stableTabId.Some? && pane.stableTabId.value in viewedTabs)
  }

  function ViewedPanes(room: Roster, viewedTabs: set<nat>): map<PaneKey, PaneFields> {
    var panes := PublishedPanes(room);
    map key | key in panes :: ViewedPane(panes[key], viewedTabs)
  }

  function TopologyOf(s: State, now: nat): Option<Topology> {
    if s.config.sessionName.None? || ViewedPanes(s.room, s.viewedTabs) == map[] then None
    else
      Some(Topology(
             s.config.sessionName.value, now,
             if s.config.pluginId.Some? then Some(WriterOf(s)) else None,
             PublishedSample(s.focus), s.focus.rosterChangedAt.Some?,
             ViewedPanes(s.room, s.viewedTabs)))
  }

  function FittingTopology(s: State, now: nat, host: Host): Option<Topology> {
    var topology := TopologyOf(s, now);
    if topology.Some? && host.fits(topology.value) then topology else None
  }

  /** A wake can be sent: granted, not muted, and expressible without a session name. */
  predicate CanWake(s: State, request: Request) {
    s.granted && !s.muted && (request.AliveWake? || s.config.sessionName.Some?)
  }

  function WakeEffect(s: State, request: Request, now: nat, host: Host): Effect {
    var topology := FittingTopology(s, now, host);
    RunCommand(Wake(s.config.rimzBin, request, topology), if topology.Some? then Some(now) else None)
  }

  function WakeRun(o: Outcome, request: Request, now: nat, host: Host): Outcome {
    if CanWake(o.state, request) then Emit(o, WakeEffect(o.state, request, now, host)) else o
  }

  function PokeRequest(s: State, poke: Poke, now: nat): Request {
    match poke
    case Changed => ChangedWake
    case Alive => AliveWake(SatSub(now, s.loadedAt))
  }

  function Poked(o: Outcome, poke: Poke, now: nat, host: Host): Outcome {
    WakeRun(o, PokeRequest(o.state, poke, now), now, host)
  }

  function Reconfigured(o: Outcome): Outcome {
    if o.state.config.runtimeKdl.Some? then Emit(o, Reconfigure(o.state.config.runtimeKdl.value)) else o
  }

  // ----- Change signals and the grant -----

  function ChangeSignalled(s: State, now: nat): State {
    if s.granted then s.(policy := Signalled(s.policy, now)) else s.(pendingPregrantChange := true)
  }

  function PregrantFlushed(s: State, now: nat): State {
    if s.pendingPregrantChange then s.(pendingPregrantChange := false, policy := Signalled(s.policy, now)) else s
  }

  function MarkedGranted(o: Outcome, now: nat, host: Host): Outcome {
    if o.state.granted then o.(state := PregrantFlushed(o.state, now))
    else
      var first := Reconfigured(o.(state := o.state.(granted := true, focus := Observed(o.state.focus))));
      if first.state.pendingPregrantChange then first.(state := PregrantFlushed(first.state, now))
      else Poked(first, Alive, now, host)
  }

  // ----- The end of every handler: due pokes, the focus query, the timer -----

  /** The pokes of one consultation carried out in order; at most one of each kind is due. */
  function Dispatched(o: Outcome, pokes: seq<Poke>, now: nat, host: Host): Outcome {
    var changed := if Changed in pokes then Poked(o, Changed, now, host) else o;
    if Alive in pokes
    then Poked(changed.(state := changed.state.(focus := Observed(changed.state.focus))), Alive, now, host)
    else changed
  }

  /** Dispatching one poke more. */
  lemma DispatchNext(o: Outcome, pokes: seq<Poke>, i: nat, now: nat, host: Host)
    requires i < |pokes| && (pokes == [Changed] || pokes == [Alive] || pokes == [Changed, Alive])
    ensures Dispatched(o, pokes[..i + 1], now, host) == Dispatched(Dispatched(o, pokes[..i], now, host), [pokes[i]], now, host)
  {
    if i == 1 {
      assert pokes[..1] == [Changed];
    }
  }

  function DueDispatched(o: Outcome, now: nat, host: Host): Outcome {
    Dispatched(o.(state := o.state.(policy := Consulted(o.state.policy, now))),
               DuePokes(o.state.policy, now), now, host)
  }

  function QueryDriven(o: Outcome, now: nat): Outcome {
    var s := o.state;
    var driven := o.(state := s.(focus := Driven(s.focus, now, !s.muted)));
    if Asks(s.focus, now, !s.muted) then Emit(driven, ListClients) else driven
  }

  function InputDeadline(s: State): Option<nat> {
    if s.pendingInput.None? || s.lastInputPublishedAt.None? then s.pendingInput
    else Some(SatAdd(s.lastInputPublishedAt.value, INPUT_PUBLISH_FLOOR_MS))
  }

  /** The earliest instant the engine must be woken. */
  function Deadline(s: State): nat {
    Earlier(Earlier(NextWake(s.policy), NextDeadline(s.focus)), InputDeadline(s))
  }

  function Rearmed(o: Outcome, now: nat): Outcome {
    var at := Deadline(o.state);
    if ShouldArm(o.state.armedFor, at)
    then Emit(o.(state := o.state.(armedFor := Some(at))), SetTimeout(SatSub(at, now)))
    else o
  }

  function Finished(o: Outcome, now: nat, host: Host): Outcome {
    Rearmed(QueryDriven(DueDispatched(o, now, host), now), now)
  }

  // ----- Handlers that end in `finish_update`: what they do before it -----

  function LoadSeen(s: State): Outcome {
    Outcome(s, [])
  }

  function GrantSeen(s: State, now: nat, host: Host): Outcome {
    Reconfigured(MarkedGranted(Outcome(s, [HideSelf]), now, host))
  }

  function DenialSeen(s: State): Outcome {
    Outcome(s.(granted := false), [])
  }

  /** A manifest run through the reducer. */
  function Merged(s: State, reports: seq<TabReport>, now: nat, host: Host): State {
    var baseline := !s.manifestApplied;
    var room := ManifestApplied(s.room, reports, host.pids);
    var moved := TabRoster(s.room) != TabRoster(room) && (!baseline || s.focus.sample.Some?);
    var merged := s.(room := room, manifestApplied := true,
                     focus := if moved then Invalidated(s.focus, now) else s.focus);
    if room != s.room && !baseline then ChangeSignalled(merged, now) else merged
  }

  predicate OwnPaneVisible(s: State) {
    && s.config.pluginId.Some?
    && var key := PaneKey(true, s.config.pluginId.value);
    key in s.room && s.room[key].manifest.Some? && !s.room[key].manifest.value.isSuppressed
  }

  predicate SkipsManifest(s: State, digest: RoomHash.Digest) {
    s.lastHash == Some(digest) && s.manifestApplied
  }

  function ManifestSeen(
    s: State, digest: RoomHash.Digest, reports: seq<TabReport>, now: nat, host: Host
  ): Outcome {
    var o := MarkedGranted(Outcome(s, []), now, host);
    var observed := o.state.(focus := Observed(o.state.focus), lastHash := Some(digest));
    var merged := if SkipsManifest(o.state, digest) then observed else Merged(observed, reports, now, host);
    var seen := o.(state := merged);
    if OwnPaneVisible(merged) then Emit(seen, HideSelf) else seen
  }

  function TabsViewed(
    viewedTabs: set<nat>, active: Option<nat>, tabIds: map<nat, nat>, otherViewed: set<nat>
  ): set<nat> {
    (viewedTabs * tabIds.Values) + otherViewed
    + if active.Some? && active.value in tabIds then {tabIds[active.value]} else {}
  }

  /** Names, stable ids and viewed tabs of a tab update; a change of identity or view is signalled. */
  function TabsStamped(
    s: State, active: Option<nat>, tabNames: map<nat, string>, tabIds: map<nat, nat>, otherViewed: set<nat>, now: nat
  ): State {
    var room := TabIdsSet(s.room, tabIds);
    var viewedTabs := TabsViewed(s.viewedTabs, active, tabIds, otherViewed);
    var stamped := s.(tabNames := tabNames, room := room, viewedTabs := viewedTabs);
    if room != s.room || viewedTabs != s.viewedTabs then ChangeSignalled(stamped, now) else stamped
  }

  function TabsSeen(
    s: State, active: Option<nat>, tabNames: map<nat, string>, tabIds: map<nat, nat>, otherViewed: set<nat>,
    now: nat, host: Host
  ): Outcome {
    var o := MarkedGranted(Outcome(s, []), now, host);
    var stamped := TabsStamped(o.state, active, tabNames, tabIds, otherViewed, now);
    o.(state := stamped.(focus := TabUpdated(stamped.focus, active, now)))
  }

  datatype CommandUpdate = Remember(command: string) | ShellOnly(command: string) | Forget

  /** The non-empty arguments joined by single spaces. */
  function Joined(args: seq<string>): string {
    if args == [] then ""
    else
      var rest := Joined(args[1..]);
      if args[0] == "" then rest else if rest == "" then args[0] else args[0] + " " + rest
  }

  function ForegroundUpdate(command: seq<string>, isForeground: bool): CommandUpdate {
    var joined := Joined(command);
    if joined == "" then Forget else if isForeground then Remember(joined) else ShellOnly(joined)
  }

  function CommandRoom(room: Roster, pane: PaneId, update: CommandUpdate): Roster {
    match update
    case Remember(command) => ForegroundSet(room, pane, Some(command))
    case ShellOnly(command) => ShellSet(room, pane, command)
    case Forget => ForegroundSet(room, pane, None)
  }

  predicate CommandChanges(room: Roster, pane: PaneId, update: CommandUpdate) {
    && pane.Terminal?
    && var state := StateOf(room, KeyOf(pane));
    match update
    case Remember(command) => state.foreground != Some(command)
    case ShellOnly(command) => state.foreground.Some? || state.shell != Some(command)
    case Forget => state.foreground.Some?
  }

  function CommandNoted(s: State, pane: PaneId, update: CommandUpdate, now: nat): State {
    var noted := s.(room := CommandRoom(s.room, pane, update));
    if CommandChanges(s.room, pane, update) then ChangeSignalled(noted, now) else noted
  }

  function CommandSeen(s: State, pane: PaneId, command: seq<string>, isForeground: bool, now: nat): Outcome {
    Outcome(CommandNoted(s, pane, ForegroundUpdate(command, isForeground), now), [])
  }

  function CwdSeen(s: State, pane: PaneId, cwd: Option<string>, now: nat): Outcome {
    var changed := pane.Terminal? && StateOf(s.room, KeyOf(pane)).cwd != cwd;
    var updated := s.(room := CwdSet(s.room, pane, cwd));
    Outcome(if changed then ChangeSignalled(updated, now) else updated, [])
  }

  function PaneForgotten(s: State, pane: PaneId, now: nat): State {
    if KeyOf(pane) !in s.room then s
    else
      ChangeSignalled(s.(room := Closed(s.room, pane), lastHash := None, focus := Invalidated(s.focus, now)), now)
  }

  function CloseSeen(s: State, pane: PaneId, now: nat, host: Host): Outcome {
    var o := MarkedGranted(Outcome(s, []), now, host);
    o.(state := PaneForgotten(o.state, pane, now))
  }

  function InputPublished(o: Outcome, now: nat): Outcome {
    var s := o.state;
    if !s.granted || !Reached(InputDeadline(s), now) then o
    else
      var taken := o.(state := s.(pendingInput := None));
      if s.config.clientId.None? || s.config.sessionName.None? then taken
      else
        Emit(taken.(state := taken.state.(lastInputPublishedAt := Some(now))),
             RunCommand(Wake(s.config.rimzBin, InputWake(s.config.clientId.value, s.pendingInput.value), None), None))
  }

  function TimerSeen(s: State, now: nat): Outcome {
    InputPublished(Outcome(s.(armedFor := Fired(s.armedFor, now)), []), now)
  }

  function ClientsNoted(s: State, connected: Option<nat>, now: nat): State {
    var counted := s.(focus := ClientsCounted(s.focus, connected));
    if connected == Some(0) && s.viewedTabs != {} then ChangeSignalled(counted.(viewedTabs := {}), now) else counted
  }

  predicate Attaches(s: State, connected: Option<nat>) {
    var known := if s.focus.connectedClients.Some? then s.focus.connectedClients.value else 0;
    s.granted && connected.Some? && connected.value > known
  }

  function SessionSeen(s: State, connected: Option<nat>, now: nat, host: Host): Outcome {
    var start := Outcome(s, []);
    var o := MarkedGranted(if Attaches(s, connected) then Reconfigured(start) else start, now, host);
    o.(state := ClientsNoted(o.state, connected, now))
  }

  function ClientsSeen(s: State, clients: seq<ClientView>, now: nat, host: Host): Outcome {
    var (focus, update) := Replied(s.focus, clients, now);
    var replied := Outcome(s.(focus := focus), []);
    var woken := if update.settled.Some?
                 then WakeRun(replied, SettledWake(update.settled.value.tab, update.settled.value.generation,
                                                   update.settled.value.clients), now, host)
                 else replied;
    if update.sampleChanged then woken.(state := ChangeSignalled(woken.state, now)) else woken
  }

  // ----- Handlers that end on their own -----

  function AfterUserAction(
    s: State, clientId: nat, cliClientId: Option<nat>, buttonlessMotion: bool, now: nat
  ): Outcome {
    if !s.granted || s.config.clientId != Some(clientId) || cliClientId.Some? || buttonlessMotion
    then Outcome(s, [])
    else Rearmed(InputPublished(Outcome(s.(pendingInput := Some(now)), []), now), now)
  }

  function AfterFocusSidebarPipe(s: State): Outcome {
    Outcome(s, if s.muted || !s.granted then [] else [RunCommand(FocusSidebar, None)])
  }

  function AfterZoomPanePipe(s: State): Outcome {
    Outcome(s, if s.muted || !s.granted then [] else [RunCommand(ZoomPane, None)])
  }

  function AfterPalettePipe(s: State, payload: Option<string>, focus: Option<PaneId>): Outcome {
    var mode := if payload == Some("commands") || payload == Some("new") then payload.value else "cards";
    Outcome(s, if s.muted || !s.granted then [] else [RunCommand(Palette(mode, focus), None)])
  }

  function AfterFullscreenPipe(s: State, pane: Option<PaneId>): Outcome {
    Outcome(s, if s.muted || !s.granted || pane.None? then [] else [TogglePaneFullscreen(pane.value)])
  }

  function Revived(s: State, now: nat): State {
    if s.muted
    then s.(muted := false, rejections := 0, armedFor := None, focus := Invalidated(s.focus, now))
    else s
  }

  function AfterDumpTopologyPipe(s: State, now: nat, host: Host): Outcome {
    var revived := Revived(s, now);
    if !revived.granted then Outcome(revived.(pendingPregrantChange := true), [])
    else
      var probed := revived.(room := Probed(revived.room, host.pids));
      Rearmed(QueryDriven(Poked(Outcome(probed, []), Alive, now, host), now), now)
  }

  /** `generation` is the writer named by the payload, when the payload parses. */
  function AfterRetirePipe(s: State, generation: Option<Writer>): Outcome {
    if generation.None? then Outcome(s, [])
    else
      var own, newest := WriterOf(s), generation.value;
      if newest.build.Some? && newest.config.Some? && (own.build != newest.build || own.config != newest.config)
      then Outcome(s, [CloseSelf])
      else if || own.loadedAt > newest.loadedAt
              || (own.loadedAt == newest.loadedAt && own.pluginId >= newest.pluginId)
      then Outcome(s, [])
      else if own.pluginId == newest.pluginId then Outcome(s.(muted := true), [])
      else Outcome(s, [CloseSelf])
  }

  function Rejected(s: State, issuedAt: nat): State {
    if s.latestAccepted.Some? && issuedAt <= s.latestAccepted.value then s
    else
      var rejections := Min(s.rejections + 1, U32_MAX);
      s.(rejections := rejections, muted := s.muted || rejections >= STALE_WRITER_MUTE_THRESHOLD)
  }

  function Accepted(s: State, issuedAt: nat, now: nat): State {
    var latest := if s.latestAccepted.Some? then Max(s.latestAccepted.value, issuedAt) else issuedAt;
    var accepted := s.(wakeForkFailures := 0, latestAccepted := Some(latest), rejections := 0, muted := false);
    if s.muted then ChangeSignalled(accepted, now) else accepted
  }

  /** A failed command: repeated failures fall back to `rimz` on the path. */
  function Failed(s: State, now: nat, host: Host): Outcome {
    var failures := Min(s.wakeForkFailures + 1, U32_MAX);
    if failures < WAKE_FORK_FALLBACK_THRESHOLD || s.config.rimzBin.None?
    then Outcome(s.(wakeForkFailures := failures), [])
    else Poked(Outcome(s.(config := s.config.(rimzBin := None), wakeForkFailures := 0), []), Alive, now, host)
  }

  function AfterCommandResult(s: State, exitCode: Option<int>, issuedAt: Option<nat>, now: nat, host: Host): Outcome {
    if issuedAt.Some? && exitCode == Some(STALE_WRITER_EXIT_CODE) then Outcome(Rejected(s, issuedAt.value), [])
    else if exitCode != Some(0) then Failed(s, now, host)
    else if issuedAt.None? then Outcome(s.(wakeForkFailures := 0), [])
    else Finished(Outcome(Accepted(s, issuedAt.value, now), []), now, host)
  }
}
