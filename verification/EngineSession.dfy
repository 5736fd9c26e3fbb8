/** The session an engine was loaded in never changes. */
module EngineSession {
  import opened Prelude
  import opened PokePolicy
  import opened ClientFocus
  import opened Room
  import opened Handlers
  import opened EngineRuns
  import opened EngineEffects
  import RoomHash

  lemma GrantConfig(o: Outcome, now: nat, host: Host)
    ensures MarkedGranted(o, now, host).state.config == o.state.config
  {
  }

  lemma ManifestConfig(s: State, digest: RoomHash.Digest, reports: seq<TabReport>, now: nat, host: Host)
    ensures ManifestSeen(s, digest, reports, now, host).state.config == s.config
  {
    GrantConfig(Outcome(s, []), now, host);
    var g := MarkedGranted(Outcome(s, []), now, host).state;
    MergedConfig(g.(focus := Observed(g.focus), lastHash := Some(digest)), reports, now, host);
  }

  lemma MergedConfig(s: State, reports: seq<TabReport>, now: nat, host: Host)
    ensures Merged(s, reports, now, host).config == s.config
  {
  }

  lemma TabsConfig(s: State, event: Event, now: nat, host: Host)
    requires event.TabUpdate?
    ensures TabsSeen(s, event.active, event.tabNames, event.tabIds, event.otherViewed, now, host).state.config == s.config
  {
    GrantConfig(Outcome(s, []), now, host);
  }

  lemma CloseConfig(s: State, pane: PaneId, now: nat, host: Host)
    ensures CloseSeen(s, pane, now, host).state.config == s.config
  {
    GrantConfig(Outcome(s, []), now, host);
  }

  lemma SessionConfig(s: State, connected: Option<nat>, now: nat, host: Host)
    ensures SessionSeen(s, connected, now, host).state.config == s.config
  {
    if Attaches(s, connected) {
      GrantConfig(Reconfigured(Outcome(s, [])), now, host);
    } else {
      GrantConfig(Outcome(s, []), now, host);
    }
  }

  lemma GrantingConfig(s: State, step: Step)
    requires ProvesGrant(step.event)
    ensures Seen(s, step).state.config == s.config
  {
    match step.event {
      case PermissionGranted => GrantConfig(Outcome(s, [HideSelf]), step.at, step.host);
      case PaneManifest(digest, reports) => ManifestConfig(s, digest, reports, step.at, step.host);
      case TabUpdate(_, _, _, _) => TabsConfig(s, step.event, step.at, step.host);
      case PaneClosed(pane) => CloseConfig(s, pane, step.at, step.host);
      case SessionUpdate(connected) => SessionConfig(s, connected, step.at, step.host);
    }
  }

  lemma SignalConfig(s: State, now: nat)
    ensures ChangeSignalled(s, now).config == s.config
  {
  }

  lemma ReplyConfig(s: State, clients: seq<ClientView>, now: nat, host: Host)
    ensures ClientsSeen(s, clients, now, host).state.config == s.config
  {
  }

  lemma InputConfig(o: Outcome, now: nat)
    ensures InputPublished(o, now).state.config == o.state.config
  {
  }

  lemma AcceptedConfig(s: State, issuedAt: nat, now: nat)
    ensures Accepted(s, issuedAt, now).config == s.config
  {
  }

  lemma LocalConfig(s: State, step: Step)
    requires Finishes(step.event) && !ProvesGrant(step.event)
    ensures Seen(s, step).state.config == s.config
  {
    match step.event {
      case CommandChanged(pane, command, isForeground) =>
        SignalConfig(s.(room := CommandRoom(s.room, pane, ForegroundUpdate(command, isForeground))), step.at);
      case CwdChanged(pane, cwd) => SignalConfig(s.(room := CwdSet(s.room, pane, cwd)), step.at);
      case ClientsListed(clients) => ReplyConfig(s, clients, step.at, step.host);
      case Timer(_) => InputConfig(Outcome(s.(armedFor := Fired(s.armedFor, step.at)), []), step.at);
      case CommandResult(_, issuedAt) => AcceptedConfig(s, issuedAt.value, step.at);
      case _ =>
    }
  }

  lemma SeenConfig(s: State, step: Step)
    requires Finishes(step.event)
    ensures Seen(s, step).state.config == s.config
  {
    if ProvesGrant(step.event) {
      GrantingConfig(s, step);
    } else {
      LocalConfig(s, step);
    }
  }

  lemma UserConfig(s: State, step: Step)
    requires step.event.UserAction?
    ensures Handle(s, step).state.config == s.config
  {
    var o := Outcome(s.(pendingInput := Some(step.at)), []);
    InputConfig(o, step.at);
    RearmExtends(InputPublished(o, step.at), step.at);
  }

  lemma DumpConfig(s: State, step: Step)
    requires step.event.DumpTopologyPipe?
    ensures Handle(s, step).state.config == s.config
  {
  }

  lemma FailedConfig(s: State, now: nat, host: Host)
    ensures Failed(s, now, host).state.config.sessionName == s.config.sessionName
  {
  }

  lemma ResultConfig(s: State, step: Step)
    requires step.event.CommandResult? && !Accepts(step.event)
    ensures Handle(s, step).state.config.sessionName == s.config.sessionName
  {
    var exitCode, issuedAt := step.event.exitCode, step.event.issuedAt;
    if issuedAt.Some? && exitCode == Some(STALE_WRITER_EXIT_CODE) {
      assert Handle(s, step) == Outcome(Rejected(s, issuedAt.value), []);
    } else if exitCode != Some(0) {
      assert Handle(s, step) == Failed(s, step.at, step.host);
      FailedConfig(s, step.at, step.host);
    } else {
      assert Handle(s, step) == Outcome(s.(wakeForkFailures := 0), []);
    }
  }

  lemma OtherConfig(s: State, step: Step)
    requires !Finishes(step.event)
    ensures Handle(s, step).state.config.sessionName == s.config.sessionName
  {
    if step.event.UserAction? {
      UserConfig(s, step);
    } else if step.event.DumpTopologyPipe? {
      DumpConfig(s, step);
    } else if step.event.CommandResult? {
      ResultConfig(s, step);
    }
  }

  lemma SessionStep(s: State, step: Step)
    ensures Handle(s, step).state.config.sessionName == s.config.sessionName
  {
    if Finishes(step.event) {
      FinishingHandler(s, step);
      SeenConfig(s, step);
      FinishExtends(Seen(s, step), step.at, step.host);
    } else {
      OtherConfig(s, step);
    }
  }

  lemma {:induction false} Unchanged(names: seq<Option<string>>, n: nat)
    requires n < |names| && forall i | 0 <= i < n :: names[i + 1] == names[i]
    ensures names[n] == names[0]
  {
    if n > 0 {
      Unchanged(names, n - 1);
    }
  }

  function Sessions(run: Run): seq<Option<string>> {
    seq(|run.steps| + 1, i requires 0 <= i <= |run.steps| => At(run, i).config.sessionName)
  }

  lemma SessionNext(run: Run, i: nat)
    requires i < |run.steps|
    ensures Sessions(run)[i + 1] == Sessions(run)[i]
  {
    SessionStep(At(run, i), run.steps[i]);
    assert At(run, i + 1).config.sessionName == At(run, i).config.sessionName;
  }

  lemma FirstSession(run: Run)
    ensures Sessions(run)[0] == run.config.sessionName
  {
  }

  /** No event changes the session the engine was loaded in. */
  lemma SessionKept(run: Run, n: nat)
    requires n <= |run.steps|
    ensures At(run, n).config.sessionName == run.config.sessionName
  {
    forall i | 0 <= i < n ensures Sessions(run)[i + 1] == Sessions(run)[i] {
      SessionNext(run, i);
    }
    Unchanged(Sessions(run), n);
    FirstSession(run);
  }
}
