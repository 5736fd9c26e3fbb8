/** Runs of the engine: any sequence of host events, with the host's outstanding timers beside it. */
module EngineRuns {
  import opened Prelude
  import opened PokePolicy
  import opened ClientFocus
  import opened Room
  import opened Handlers
  import RoomHash

  datatype Event =
    | Load
    | PermissionGranted
    | PermissionDenied
    | PaneManifest(digest: RoomHash.Digest, reports: seq<TabReport>)
    | TabUpdate(active: Option<nat>, tabNames: map<nat, string>, tabIds: map<nat, nat>, otherViewed: set<nat>)
    | CommandChanged(pane: PaneId, command: seq<string>, isForeground: bool)
    | CwdChanged(pane: PaneId, cwd: Option<string>)
    | PaneClosed(pane: PaneId)
    | Timer(due: nat)
    | SessionUpdate(connected: Option<nat>)
    | ClientsListed(clients: seq<ClientView>)
    | UserAction(clientId: nat, cliClientId: Option<nat>, buttonlessMotion: bool)
    | FocusSidebarPipe
    | ZoomPanePipe
    | PalettePipe(payload: Option<string>, focused: Option<PaneId>)
    | FullscreenPipe(target: Option<PaneId>)
    | DumpTopologyPipe
    | RetirePipe(generation: Option<Writer>)
    | CommandResult(exitCode: Option<int>, issuedAt: Option<nat>)

  /** An event, the clock reading it is handled at and what the host answers meanwhile. */
  datatype Step = Step(at: nat, event: Event, host: Host)

  /** The handlers that run `finish_update`. */
  predicate Finishes(event: Event) {
    match event
    case UserAction(_, _, _) => false
    case FocusSidebarPipe => false
    case ZoomPanePipe => false
    case PalettePipe(_, _) => false
    case FullscreenPipe(_) => false
    case DumpTopologyPipe => false
    case RetirePipe(_) => false
    case CommandResult(exitCode, issuedAt) => Accepts(event)
    case _ => true
  }

  /** The result of a publication the host accepted. */
  predicate Accepts(event: Event) {
    event.CommandResult? && event.exitCode == Some(0) && event.issuedAt.Some?
  }

  /** What a finishing handler does before `finish_update`. */
  function Seen(s: State, step: Step): Outcome
    requires Finishes(step.event)
  {
    match step.event
    case Load => LoadSeen(s)
    case PermissionGranted => GrantSeen(s, step.at, step.host)
    case PermissionDenied => DenialSeen(s)
    case PaneManifest(digest, reports) => ManifestSeen(s, digest, reports, step.at, step.host)
    case TabUpdate(active, tabNames, tabIds, otherViewed) =>
      TabsSeen(s, active, tabNames, tabIds, otherViewed, step.at, step.host)
    case CommandChanged(pane, command, isForeground) => CommandSeen(s, pane, command, isForeground, step.at)
    case CwdChanged(pane, cwd) => CwdSeen(s, pane, cwd, step.at)
    case PaneClosed(pane) => CloseSeen(s, pane, step.at, step.host)
    case Timer(_) => TimerSeen(s, step.at)
    case SessionUpdate(connected) => SessionSeen(s, connected, step.at, step.host)
    case ClientsListed(clients) => ClientsSeen(s, clients, step.at, step.host)
    case CommandResult(_, issuedAt) => Outcome(Accepted(s, issuedAt.value, step.at), [])
  }

  function Handle(s: State, step: Step): Outcome {
    match step.event
    case UserAction(clientId, cliClientId, buttonlessMotion) =>
      AfterUserAction(s, clientId, cliClientId, buttonlessMotion, step.at)
    case FocusSidebarPipe => AfterFocusSidebarPipe(s)
    case ZoomPanePipe => AfterZoomPanePipe(s)
    case PalettePipe(payload, focused) => AfterPalettePipe(s, payload, focused)
    case FullscreenPipe(pane) => AfterFullscreenPipe(s, pane)
    case DumpTopologyPipe => AfterDumpTopologyPipe(s, step.at, step.host)
    case RetirePipe(generation) => AfterRetirePipe(s, generation)
    case CommandResult(exitCode, issuedAt) => AfterCommandResult(s, exitCode, issuedAt, step.at, step.host)
    case _ => Finished(Seen(s, step), step.at, step.host)
  }

  lemma FinishingHandler(s: State, step: Step)
    requires Finishes(step.event)
    ensures Handle(s, step) == Finished(Seen(s, step), step.at, step.host)
  {
  }

  datatype Run = Run(loadedAt: nat, config: Config, steps: seq<Step>)

  /** The engine after the first `n` steps. */
  function At(run: Run, n: nat): State
    requires n <= |run.steps|
  {
    if n == 0 then Initial(run.loadedAt, run.config) else Handle(At(run, n - 1), run.steps[n - 1]).state
  }

  /** The effects of step `i`. */
  function EffectsAt(run: Run, i: nat): seq<Effect>
    requires i < |run.steps|
  {
    Handle(At(run, i), run.steps[i]).effects
  }

  function Events(run: Run): seq<Event> {
    seq(|run.steps|, i requires 0 <= i < |run.steps| => run.steps[i].event)
  }

  function Clock(run: Run, n: nat): nat
    requires n <= |run.steps|
  {
    if n == 0 then run.loadedAt else run.steps[n - 1].at
  }

  /** The clock never runs backwards and stays inside 64 bits. */
  predicate Timed(run: Run) {
    && ClockFits(run.loadedAt)
    && (forall i | 0 <= i < |run.steps| :: run.loadedAt <= run.steps[i].at && ClockFits(run.steps[i].at))
    && (forall i, j | 0 <= i <= j < |run.steps| :: run.steps[i].at <= run.steps[j].at)
  }

  // ----- The host's timers -----

  /** The instants at which the timers armed by these effects come due. */
  function Arms(effects: seq<Effect>, at: nat): multiset<nat> {
    if effects == [] then multiset{}
    else
      var rest := Arms(effects[..|effects| - 1], at);
      match effects[|effects| - 1]
      case SetTimeout(delay) => rest + multiset{at + delay}
      case _ => rest
  }

  /** The outstanding host timers: one-shot, anonymous, removed when they fire. */
  function Timers(run: Run, n: nat): multiset<nat>
    requires n <= |run.steps|
  {
    if n == 0 then multiset{}
    else
      var step := run.steps[n - 1];
      var waiting := if step.event.Timer? then Timers(run, n - 1) - multiset{step.event.due} else Timers(run, n - 1);
      waiting + Arms(EffectsAt(run, n - 1), step.at)
  }

  /** Step `i`, if a timer event, fires an outstanding timer and not early. */
  predicate FiresOutstanding(run: Run, i: nat)
    requires i < |run.steps|
  {
    var step := run.steps[i];
    step.event.Timer? ==> step.event.due in Timers(run, i) && step.event.due <= step.at
  }

  /** A run as the host drives it: loaded first, a forward clock, timers that were armed. */
  predicate Hosted(run: Run) {
    && Timed(run)
    && (run.steps != [] ==> run.steps[0].event.Load?)
    && (forall i | 0 <= i < |run.steps| :: FiresOutstanding(run, i))
  }
}
