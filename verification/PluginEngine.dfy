/** The engine as the plugin runs it: one object whose handlers update its machines in place. */
module PluginEngine {
  import opened Prelude
  import opened PokePolicy
  import opened ClientFocus
  import opened Room
  import opened Handlers
  import RoomHash
  import R = EngineRuns

  class Engine {
    var config: Config
    const policy: Policy
    const room: RoomState
    var lastHash: Option<RoomHash.Digest>
    var tabNames: map<nat, string>
    var viewedTabs: set<nat>
    const focus: FocusSync
    var granted: bool
    var pendingPregrantChange: bool
    const gate: TimerGate
    var loadedAt: nat
    var muted: bool
    var wakeForkFailures: nat
    var rejections: nat
    var latestAccepted: Option<nat>
    var lastInputPublishedAt: Option<nat>
    var pendingInput: Option<nat>

    function View(): State
      reads this, policy, room, focus, gate
    {
      State(config, policy.View(), room.panes, room.manifestApplied, lastHash, tabNames, viewedTabs, focus.View(),
            granted, pendingPregrantChange, gate.armedFor, loadedAt, muted, wakeForkFailures, rejections,
            latestAccepted, lastInputPublishedAt, pendingInput)
    }

    constructor (now: nat, config: Config)
      requires ClockFits(now)
      ensures View() == Initial(now, config)
      ensures fresh(policy) && fresh(room) && fresh(focus) && fresh(gate)
    {
      this.config := config;
      policy := new Policy(now);
      room := new RoomState();
      focus := new FocusSync();
      gate := new TimerGate();
      lastHash, tabNames, viewedTabs := None, map[], {};
      granted, pendingPregrantChange, loadedAt, muted := false, false, now, false;
      wakeForkFailures, rejections := 0, 0;
      latestAccepted, lastInputPublishedAt, pendingInput := None, None, None;
    }

    // ----- Steps shared by the handlers; each appends to the effects it is given -----

    method RunWake(request: Request, now: nat, host: Host, effects: seq<Effect>) returns (out: seq<Effect>)
      ensures Outcome(View(), out) == WakeRun(Outcome(View(), effects), request, now, host)
    {
      out := effects;
      if !granted || muted || (config.sessionName.None? && !request.AliveWake?) {
        return;
      }
      var topology := TopologyOf(View(), now);
      if topology.Some? && !host.fits(topology.value) {
        topology := None;
      }
      out := out + [RunCommand(Wake(config.rimzBin, request, topology), if topology.Some? then Some(now) else None)];
    }

    method Poke(poke: Poke, now: nat, host: Host, effects: seq<Effect>) returns (out: seq<Effect>)
      ensures Outcome(View(), out) == Poked(Outcome(View(), effects), poke, now, host)
    {
      if !granted {
        return effects;
      }
      match poke {
        case Changed => out := RunWake(ChangedWake, now, host, effects);
        case Alive => out := RunWake(AliveWake(SatSub(now, loadedAt)), now, host, effects);
      }
    }

    method ApplyRuntimeReconfigure(effects: seq<Effect>) returns (out: seq<Effect>)
      ensures Outcome(View(), out) == Reconfigured(Outcome(View(), effects))
    {
      out := effects;
      if config.runtimeKdl.Some? {
        out := out + [Reconfigure(config.runtimeKdl.value)];
      }
    }

    method SignalChange(now: nat)
      modifies this`pendingPregrantChange, policy
      ensures View() == ChangeSignalled(old(View()), now)
    {
      if !granted {
        pendingPregrantChange := true;
        return;
      }
      policy.OnSignal(now);
    }

    method FlushPregrantChange(now: nat)
      modifies this`pendingPregrantChange, policy
      ensures View() == PregrantFlushed(old(View()), now)
    {
      if pendingPregrantChange {
        pendingPregrantChange := false;
        policy.OnSignal(now);
      }
    }

    method MarkGranted(now: nat, host: Host, effects: seq<Effect>) returns (out: seq<Effect>)
      modifies this, policy, focus
      ensures Outcome(View(), out) == MarkedGranted(Outcome(old(View()), effects), now, host)
    {
      if granted {
        FlushPregrantChange(now);
        return effects;
      }
      granted := true;
      focus.RequestGeneralObservation();
      out := ApplyRuntimeReconfigure(effects);
      if pendingPregrantChange {
        FlushPregrantChange(now);
      } else {
        out := Poke(Alive, now, host, out);
      }
    }

    method DispatchPoke(poke: Poke, now: nat, host: Host, effects: seq<Effect>) returns (out: seq<Effect>)
      modifies focus
      ensures Outcome(View(), out) == Dispatched(Outcome(old(View()), effects), [poke], now, host)
    {
      if poke == Alive {
        focus.RequestGeneralObservation();
      }
      out := Poke(poke, now, host, effects);
    }

    method DispatchDue(now: nat, host: Host, effects: seq<Effect>) returns (out: seq<Effect>)
      requires ClockFits(now)
      modifies policy, focus
      ensures Outcome(View(), out) == DueDispatched(Outcome(old(View()), effects), now, host)
    {
      var pokes := policy.Due(now);
      ghost var start := Outcome(View(), effects);
      out := effects;
      for i := 0 to |pokes|
        invariant Outcome(View(), out) == Dispatched(start, pokes[..i], now, host)
      {
        DispatchNext(start, pokes, i, now, host);
        out := DispatchPoke(pokes[i], now, host, out);
      }
      assert pokes[..|pokes|] == pokes;
    }

    method DriveQuery(now: nat, effects: seq<Effect>) returns (out: seq<Effect>)
      modifies focus
      ensures Outcome(View(), out) == QueryDriven(Outcome(old(View()), effects), now)
    {
      out := effects;
      var ask := focus.DriveDueQuery(now, !muted);
      if ask {
        out := out + [ListClients];
      }
    }

    method Rearm(now: nat, effects: seq<Effect>) returns (out: seq<Effect>)
      modifies gate
      ensures Outcome(View(), out) == Rearmed(Outcome(old(View()), effects), now)
    {
      out := effects;
      var at := policy.NextWakeAt();
      at := Earlier(Earlier(at, NextDeadline(focus.View())), InputDeadline(View()));
      var arm := gate.TryArm(at);
      if arm {
        out := out + [SetTimeout(SatSub(at, now))];
      }
    }

    method FinishUpdate(now: nat, host: Host, effects: seq<Effect>) returns (out: seq<Effect>)
      requires ClockFits(now)
      modifies policy, focus, gate
      ensures Outcome(View(), out) == Finished(Outcome(old(View()), effects), now, host)
    {
      out := DispatchDue(now, host, effects);
      out := DriveQuery(now, out);
      out := Rearm(now, out);
    }

    method PublishDueInput(now: nat, effects: seq<Effect>) returns (out: seq<Effect>)
      modifies this`pendingInput, this`lastInputPublishedAt
      ensures Outcome(View(), out) == InputPublished(Outcome(old(View()), effects), now)
    {
      out := effects;
      var due := InputDeadline(View());
      if !granted || due.None? || due.value > now {
        return;
      }
      var lastInput := pendingInput.value;
      pendingInput := None;
      if config.clientId.None? || config.sessionName.None? {
        return;
      }
      out := out + [RunCommand(Wake(config.rimzBin, InputWake(config.clientId.value, lastInput), None), None)];
      lastInputPublishedAt := Some(now);
    }

    // ----- Handlers -----

    method OnLoad(now: nat, host: Host) returns (effects: seq<Effect>)
      requires ClockFits(now)
      modifies policy, focus, gate
      ensures Outcome(View(), effects) == Finished(LoadSeen(old(View())), now, host)
    {
      effects := FinishUpdate(now, host, []);
    }

    method OnPermissionGranted(now: nat, host: Host) returns (effects: seq<Effect>)
      requires ClockFits(now)
      modifies this, policy, focus, gate
      ensures Outcome(View(), effects) == Finished(GrantSeen(old(View()), now, host), now, host)
    {
      effects := MarkGranted(now, host, [HideSelf]);
      effects := ApplyRuntimeReconfigure(effects);
      effects := FinishUpdate(now, host, effects);
    }

    method OnPermissionDenied(now: nat, host: Host) returns (effects: seq<Effect>)
      requires ClockFits(now)
      modifies this`granted, policy, focus, gate
      ensures Outcome(View(), effects) == Finished(DenialSeen(old(View())), now, host)
    {
      granted := false;
      effects := FinishUpdate(now, host, []);
    }

    method MergeManifest(reports: seq<TabReport>, now: nat, host: Host)
      modifies this`pendingPregrantChange, policy, room, focus
      ensures View() == Merged(old(View()), reports, now, host)
    {
      var baseline := !room.manifestApplied;
      var roster := TabRoster(room.panes);
      var changed := room.ApplyManifest(reports, host.pids);
      if roster != TabRoster(room.panes) && (!baseline || focus.sample.Some?) {
        focus.InvalidateClientSample(now);
      }
      if changed && !baseline {
        SignalChange(now);
      }
    }

    method OnPaneManifest(digest: RoomHash.Digest, reports: seq<TabReport>, now: nat, host: Host)
      returns (effects: seq<Effect>)
      requires ClockFits(now)
      modifies this, policy, room, focus, gate
      ensures Outcome(View(), effects) ==
              Finished(ManifestSeen(old(View()), digest, reports, now, host), now, host)
    {
      effects := MarkGranted(now, host, []);
      focus.RequestGeneralObservation();
      var stableUnchanged := lastHash == Some(digest) && room.manifestApplied;
      lastHash := Some(digest);
      if !stableUnchanged {
        MergeManifest(reports, now, host);
      }
      if OwnPaneVisible(View()) {
        effects := effects + [HideSelf];
      }
      effects := FinishUpdate(now, host, effects);
    }

    method StampTabs(
      active: Option<nat>, tabNames: map<nat, string>, tabIds: map<nat, nat>, otherViewed: set<nat>, now: nat
    )
      modifies this, policy, room
      ensures View() == TabsStamped(old(View()), active, tabNames, tabIds, otherViewed, now)
    {
      this.tabNames := tabNames;
      var priorViewed := viewedTabs;
      viewedTabs := (viewedTabs * tabIds.Values) + otherViewed;
      if active.Some? && active.value in tabIds {
        viewedTabs := viewedTabs + {tabIds[active.value]};
      }
      assert viewedTabs == TabsViewed(priorViewed, active, tabIds, otherViewed);
      var identityChanged := room.SetTabIds(tabIds);
      if identityChanged || viewedTabs != priorViewed {
        SignalChange(now);
      }
    }

    method OnTabUpdate(
      active: Option<nat>, tabNames: map<nat, string>, tabIds: map<nat, nat>, otherViewed: set<nat>,
      now: nat, host: Host
    ) returns (effects: seq<Effect>)
      requires ClockFits(now)
      modifies this, policy, room, focus, gate
      ensures Outcome(View(), effects) ==
              Finished(TabsSeen(old(View()), active, tabNames, tabIds, otherViewed, now, host), now, host)
    {
      effects := MarkGranted(now, host, []);
      StampTabs(active, tabNames, tabIds, otherViewed, now);
      focus.AcceptTabUpdate(active, now);
      effects := FinishUpdate(now, host, effects);
    }

    method NoteCommand(pane: PaneId, update: CommandUpdate, now: nat)
      modifies this`pendingPregrantChange, policy, room
      ensures View() == CommandNoted(old(View()), pane, update, now)
    {
      var changed: bool;
      match update {
        case Remember(text) => changed := room.UpdateForeground(pane, Some(text));
        case ShellOnly(text) => changed := room.UpdateShell(pane, text);
        case Forget => changed := room.UpdateForeground(pane, None);
      }
      if changed {
        SignalChange(now);
      }
    }

    method OnCommandChanged(pane: PaneId, command: seq<string>, isForeground: bool, now: nat, host: Host)
      returns (effects: seq<Effect>)
      requires ClockFits(now)
      modifies this`pendingPregrantChange, policy, room, focus, gate
      ensures Outcome(View(), effects) ==
              Finished(CommandSeen(old(View()), pane, command, isForeground, now), now, host)
    {
      NoteCommand(pane, ForegroundUpdate(command, isForeground), now);
      effects := FinishUpdate(now, host, []);
    }

    method OnCwdChanged(pane: PaneId, cwd: Option<string>, now: nat, host: Host) returns (effects: seq<Effect>)
      requires ClockFits(now)
      modifies this`pendingPregrantChange, policy, room, focus, gate
      ensures Outcome(View(), effects) == Finished(CwdSeen(old(View()), pane, cwd, now), now, host)
    {
      if pane.Plugin? {
        effects := FinishUpdate(now, host, []);
        return;
      }
      var changed := room.UpdateCwd(pane, cwd);
      if changed {
        SignalChange(now);
      }
      effects := FinishUpdate(now, host, []);
    }

    method ForgetPane(pane: PaneId, now: nat)
      modifies this, policy, room, focus
      ensures View() == PaneForgotten(old(View()), pane, now)
    {
      var changed := room.ClosePane(pane);
      if changed {
        lastHash := None;
        focus.InvalidateClientSample(now);
        SignalChange(now);
      } else {
        assert room.panes == old(room.panes);
      }
    }

    method OnPaneClosed(pane: PaneId, now: nat, host: Host) returns (effects: seq<Effect>)
      requires ClockFits(now)
      modifies this, policy, room, focus, gate
      ensures Outcome(View(), effects) == Finished(CloseSeen(old(View()), pane, now, host), now, host)
    {
      effects := MarkGranted(now, host, []);
      ForgetPane(pane, now);
      effects := FinishUpdate(now, host, effects);
    }

    method OnTimer(now: nat, host: Host) returns (effects: seq<Effect>)
      requires ClockFits(now)
      modifies this`pendingInput, this`lastInputPublishedAt, policy, focus, gate
      ensures Outcome(View(), effects) == Finished(TimerSeen(old(View()), now), now, host)
    {
      gate.OnFire(now);
      effects := PublishDueInput(now, []);
      effects := FinishUpdate(now, host, effects);
    }

    method OnUserAction(clientId: nat, cliClientId: Option<nat>, buttonlessMotion: bool, now: nat)
      returns (effects: seq<Effect>)
      modifies this`pendingInput, this`lastInputPublishedAt, gate
      ensures Outcome(View(), effects) == AfterUserAction(old(View()), clientId, cliClientId, buttonlessMotion, now)
    {
      if !granted || config.clientId != Some(clientId) || cliClientId.Some? || buttonlessMotion {
        return [];
      }
      pendingInput := Some(now);
      effects := PublishDueInput(now, []);
      effects := Rearm(now, effects);
    }

    method NoteClients(connected: Option<nat>, now: nat)
      modifies this, policy, focus
      ensures View() == ClientsNoted(old(View()), connected, now)
    {
      focus.AcceptConnectedClients(connected);
      if connected == Some(0) && viewedTabs != {} {
        viewedTabs := {};
        SignalChange(now);
      }
    }

    method OnSessionUpdate(connected: Option<nat>, now: nat, host: Host) returns (effects: seq<Effect>)
      requires ClockFits(now)
      modifies this, policy, focus, gate
      ensures Outcome(View(), effects) == Finished(SessionSeen(old(View()), connected, now, host), now, host)
    {
      effects := [];
      if Attaches(View(), connected) {
        effects := ApplyRuntimeReconfigure(effects);
      }
      effects := MarkGranted(now, host, effects);
      NoteClients(connected, now);
      effects := FinishUpdate(now, host, effects);
    }

    method OnListClients(clients: seq<ClientView>, now: nat, host: Host) returns (effects: seq<Effect>)
      requires ClockFits(now)
      modifies this`pendingPregrantChange, policy, focus, gate
      ensures Outcome(View(), effects) == Finished(ClientsSeen(old(View()), clients, now, host), now, host)
    {
      effects := [];
      var update := focus.AcceptClientSample(clients, now);
      if update.settled.Some? {
        var settled := update.settled.value;
        effects := RunWake(SettledWake(settled.tab, settled.generation, settled.clients), now, host, effects);
      }
      if update.sampleChanged {
        SignalChange(now);
      }
      effects := FinishUpdate(now, host, effects);
    }

    method OnFocusSidebarPipe() returns (effects: seq<Effect>)
      ensures Outcome(View(), effects) == AfterFocusSidebarPipe(View())
    {
      effects := [];
      if !muted && granted {
        effects := effects + [RunCommand(FocusSidebar, None)];
      }
    }

    method OnZoomPanePipe() returns (effects: seq<Effect>)
      ensures Outcome(View(), effects) == AfterZoomPanePipe(View())
    {
      effects := [];
      if !muted && granted {
        effects := effects + [RunCommand(ZoomPane, None)];
      }
    }

    method OnPalettePipe(payload: Option<string>, focused: Option<PaneId>) returns (effects: seq<Effect>)
      ensures Outcome(View(), effects) == AfterPalettePipe(View(), payload, focused)
    {
      if muted || !granted {
        return [];
      }
      var mode := "cards";
      if payload == Some("commands") || payload == Some("new") {
        mode := payload.value;
      }
      effects := [RunCommand(Palette(mode, focused), None)];
    }

    method OnToggleFullscreenPipe(pane: Option<PaneId>) returns (effects: seq<Effect>)
      ensures Outcome(View(), effects) == AfterFullscreenPipe(View(), pane)
    {
      effects := if muted || !granted || pane.None? then [] else [TogglePaneFullscreen(pane.value)];
    }

    method OnDumpTopologyPipe(now: nat, host: Host) returns (effects: seq<Effect>)
      modifies this, room, focus, gate
      ensures Outcome(View(), effects) == AfterDumpTopologyPipe(old(View()), now, host)
    {
      effects := [];
      if muted {
        muted := false;
        rejections := 0;
        gate.Reset();
        focus.InvalidateClientSample(now);
      }
      if !granted {
        pendingPregrantChange := true;
        return;
      }
      room.ProbeMissingPids(host.pids);
      effects := Poke(Alive, now, host, effects);
      effects := DriveQuery(now, effects);
      effects := Rearm(now, effects);
    }

    method OnRetirePipe(generation: Option<Writer>) returns (effects: seq<Effect>)
      modifies this`muted
      ensures Outcome(View(), effects) == AfterRetirePipe(old(View()), generation)
    {
      effects := [];
      if generation.None? {
        return;
      }
      var own, newest := WriterOf(View()), generation.value;
      if newest.build.Some? && newest.config.Some? && (own.build != newest.build || own.config != newest.config) {
        return [CloseSelf];
      }
      if own.loadedAt > newest.loadedAt || (own.loadedAt == newest.loadedAt && own.pluginId >= newest.pluginId) {
        return;
      }
      if own.pluginId == newest.pluginId {
        muted := true;
      } else {
        effects := [CloseSelf];
      }
    }

    method Reject(issuedAt: nat)
      modifies this`rejections, this`muted
      ensures View() == Rejected(old(View()), issuedAt)
    {
      if latestAccepted.Some? && issuedAt <= latestAccepted.value {
        return;
      }
      rejections := Min(rejections + 1, U32_MAX);
      if rejections >= STALE_WRITER_MUTE_THRESHOLD {
        muted := true;
      }
    }

    method Accept(issuedAt: nat, now: nat)
      modifies this, policy
      ensures View() == Accepted(old(View()), issuedAt, now)
    {
      wakeForkFailures := 0;
      latestAccepted := Some(if latestAccepted.Some? then Max(latestAccepted.value, issuedAt) else issuedAt);
      rejections := 0;
      if muted {
        muted := false;
        SignalChange(now);
      }
    }

    method OnRunCommandResult(exitCode: Option<int>, issuedAt: Option<nat>, now: nat, host: Host)
      returns (effects: seq<Effect>)
      requires ClockFits(now)
      modifies this, policy, focus, gate
      ensures Outcome(View(), effects) == AfterCommandResult(old(View()), exitCode, issuedAt, now, host)
    {
      effects := [];
      if issuedAt.Some? && exitCode == Some(STALE_WRITER_EXIT_CODE) {
        Reject(issuedAt.value);
        return;
      }
      if exitCode == Some(0) {
        if issuedAt.None? {
          wakeForkFailures := 0;
          return;
        }
        Accept(issuedAt.value, now);
        effects := FinishUpdate(now, host, effects);
        return;
      }
      wakeForkFailures := Min(wakeForkFailures + 1, U32_MAX);
      if wakeForkFailures < WAKE_FORK_FALLBACK_THRESHOLD || config.rimzBin.None? {
        return;
      }
      config := config.(rimzBin := None);
      wakeForkFailures := 0;
      effects := Poke(Alive, now, host, effects);
    }

    // ----- One host event -----

    method HandleFinishing(step: R.Step) returns (effects: seq<Effect>)
      requires ClockFits(step.at) && R.Finishes(step.event) && !step.event.CommandResult?
      modifies this, policy, room, focus, gate
      ensures Outcome(View(), effects) == R.Handle(old(View()), step)
    {
      var at, host := step.at, step.host;
      match step.event {
        case Load => effects := OnLoad(at, host);
        case PermissionGranted => effects := OnPermissionGranted(at, host);
        case PermissionDenied => effects := OnPermissionDenied(at, host);
        case PaneManifest(digest, reports) => effects := OnPaneManifest(digest, reports, at, host);
        case TabUpdate(active, names, tabIds, otherViewed) =>
          effects := OnTabUpdate(active, names, tabIds, otherViewed, at, host);
        case CommandChanged(pane, command, isForeground) => effects := OnCommandChanged(pane, command, isForeground, at, host);
        case CwdChanged(pane, cwd) => effects := OnCwdChanged(pane, cwd, at, host);
        case PaneClosed(pane) => effects := OnPaneClosed(pane, at, host);
        case Timer(_) => effects := OnTimer(at, host);
        case SessionUpdate(connected) => effects := OnSessionUpdate(connected, at, host);
        case ClientsListed(clients) => effects := OnListClients(clients, at, host);
      }
    }

    method HandleOther(step: R.Step) returns (effects: seq<Effect>)
      requires ClockFits(step.at) && (!R.Finishes(step.event) || step.event.CommandResult?)
      modifies this, policy, room, focus, gate
      ensures Outcome(View(), effects) == R.Handle(old(View()), step)
    {
      var at, host := step.at, step.host;
      match step.event {
        case UserAction(clientId, cliClientId, motion) => effects := OnUserAction(clientId, cliClientId, motion, at);
        case FocusSidebarPipe => effects := OnFocusSidebarPipe();
        case ZoomPanePipe => effects := OnZoomPanePipe();
        case PalettePipe(payload, focused) => effects := OnPalettePipe(payload, focused);
        case FullscreenPipe(pane) => effects := OnToggleFullscreenPipe(pane);
        case DumpTopologyPipe => effects := OnDumpTopologyPipe(at, host);
        case RetirePipe(generation) => effects := OnRetirePipe(generation);
        case CommandResult(exitCode, issuedAt) => effects := OnRunCommandResult(exitCode, issuedAt, at, host);
      }
    }

    /** Any event is one step of a run. */
    method Handle(step: R.Step) returns (effects: seq<Effect>)
      requires ClockFits(step.at)
      modifies this, policy, room, focus, gate
      ensures Outcome(View(), effects) == R.Handle(old(View()), step)
    {
      if R.Finishes(step.event) && !step.event.CommandResult? {
        effects := HandleFinishing(step);
      } else {
        effects := HandleOther(step);
      }
    }
  }
}
