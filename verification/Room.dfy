/**
  The plugin's pane roster: manifests are merged tab by tab, command, shell, cwd and pid
  overlays survive them. The functions over roster maps specify the class `RoomState`.
 */
module Room {
  import opened Prelude
  import opened ClientFocus

  datatype PaneKey = PaneKey(isPlugin: bool, id: nat)

  datatype PaneFields = PaneFields(
    id: nat,
    isPlugin: bool,
    isFullscreen: bool,
    isSuppressed: bool,
    isFloating: bool,
    exited: bool,
    isHeld: bool,
    tabPosition: nat,
    tabViewed: bool,
    stableTabId: Option<nat>,
    tabName: Option<string>,
    paneX: Option<nat>,
    paneColumns: Option<nat>,
    title: string,
    paneCommand: Option<string>,
    paneCwd: Option<string>,
    panePid: Option<nat>,
    terminalCommand: Option<string>)

  datatype Pid = Unprobed | Missing | Known(pid: nat)

  datatype PaneState = PaneState(
    manifest: Option<PaneFields>,
    foreground: Option<string>,
    shell: Option<string>,
    cwd: Option<string>,
    pid: Pid)

  type Roster = map<PaneKey, PaneState>

  /** The panes a manifest reports for one tab. */
  datatype TabReport = TabReport(tab: nat, panes: seq<PaneFields>)

  const PENDING := PaneState(None, None, None, None, Unprobed)

  function Key(pane: PaneFields): PaneKey {
    PaneKey(pane.isPlugin, pane.id)
  }

  function KeyOf(pane: PaneId): PaneKey {
    PaneKey(pane.Plugin?, pane.id)
  }

  function Tab(state: PaneState): Option<nat> {
    if state.manifest.Some? then Some(state.manifest.value.tabPosition) else None
  }

  function FromManifest(pane: PaneFields): PaneState {
    PaneState(
      Some(pane.(paneCommand := None, paneCwd := None, panePid := None)),
      pane.paneCommand, None, pane.paneCwd,
      if pane.panePid.Some? then Known(pane.panePid.value) else Unprobed)
  }

  predicate LiveTerminal(key: PaneKey, state: PaneState) {
    && !key.isPlugin && state.manifest.Some?
    && !state.manifest.value.isSuppressed && !state.manifest.value.isFloating
    && !state.manifest.value.exited && !state.manifest.value.isHeld
  }

  // ----- Merging a manifest -----

  function Keys(panes: seq<PaneFields>): set<PaneKey> {
    set pane | pane in panes :: Key(pane)
  }

  function Retained(room: Roster, tab: nat, reported: set<PaneKey>): Roster {
    map key | key in room && (Tab(room[key]) != Some(tab) || key in reported) :: room[key]
  }

  function WithPane(room: Roster, pane: PaneFields): Roster {
    room[Key(pane) := if Key(pane) in room then room[Key(pane)].(manifest := Some(pane)) else FromManifest(pane)]
  }

  function WithPanes(room: Roster, panes: seq<PaneFields>): Roster {
    if panes == [] then room
    else WithPane(WithPanes(room, panes[..|panes| - 1]), panes[|panes| - 1])
  }

  function WithTab(room: Roster, report: TabReport): Roster {
    if report.panes == [] then room
    else WithPanes(Retained(room, report.tab, Keys(report.panes)), report.panes)
  }

  /** The reports of a manifest merged in ascending tab order. */
  function WithTabs(room: Roster, reports: seq<TabReport>): Roster {
    if reports == [] then room
    else WithTab(WithTabs(room, reports[..|reports| - 1]), reports[|reports| - 1])
  }

  predicate NeedsProbe(key: PaneKey, state: PaneState) {
    LiveTerminal(key, state) && state.pid == Unprobed
  }

  function ProbedPane(key: PaneKey, state: PaneState, pids: map<nat, nat>): PaneState {
    if !NeedsProbe(key, state) then state
    else state.(pid := if key.id in pids then Known(pids[key.id]) else Missing)
  }

  /** Pids looked up for the live terminals that have none yet; `pids` is what the host knows. */
  function Probed(room: Roster, pids: map<nat, nat>): Roster {
    map key | key in room :: ProbedPane(key, room[key], pids)
  }

  function ManifestApplied(room: Roster, reports: seq<TabReport>, pids: map<nat, nat>): Roster {
    Probed(WithTabs(room, reports), pids)
  }

  // ----- Overlays -----

  function StateOf(room: Roster, key: PaneKey): PaneState {
    if key in room then room[key] else PENDING
  }

  function ForegroundSet(room: Roster, pane: PaneId, command: Option<string>): Roster {
    if pane.Plugin? then room
    else room[KeyOf(pane) := StateOf(room, KeyOf(pane)).(foreground := command)]
  }

  function ShellSet(room: Roster, pane: PaneId, command: string): Roster {
    if pane.Plugin? then room
    else room[KeyOf(pane) := StateOf(room, KeyOf(pane)).(foreground := None, shell := Some(command))]
  }

  function CwdSet(room: Roster, pane: PaneId, cwd: Option<string>): Roster {
    if pane.Plugin? then room
    else room[KeyOf(pane) := StateOf(room, KeyOf(pane)).(cwd := cwd)]
  }

  function Closed(room: Roster, pane: PaneId): Roster {
    room - {KeyOf(pane)}
  }

  function Retabbed(state: PaneState, tabIds: map<nat, nat>): PaneState {
    if state.manifest.None? then state
    else state.(manifest := Some(state.manifest.value.(
                  stableTabId := Lookup(tabIds, state.manifest.value.tabPosition))))
  }

  /** Every pane re-stamped with the stable id of the tab it stands in. */
  function TabIdsSet(room: Roster, tabIds: map<nat, nat>): Roster {
    map key | key in room :: Retabbed(room[key], tabIds)
  }

  function PublishedPane(state: PaneState): PaneFields
    requires state.manifest.Some?
  {
    state.manifest.value.(
    paneCommand := if state.foreground.Some? then state.foreground else state.shell,
    paneCwd := state.cwd,
    panePid := if state.pid.Known? then Some(state.pid.pid) else None)
  }

  /** The published panes by key; the wire lists them in (tab, key) order. */
  function PublishedPanes(room: Roster): map<PaneKey, PaneFields> {
    map key | key in room && room[key].manifest.Some? :: PublishedPane(room[key])
  }

  /** Each pane's tab, the part of the roster whose change outdates a client sample. */
  function TabRoster(room: Roster): map<PaneKey, Option<nat>> {
    map key | key in room :: Tab(room[key])
  }

  class RoomState {
    var panes: Roster
    var manifestApplied: bool

    constructor ()
      ensures panes == map[] && !manifestApplied
    {
      panes, manifestApplied := map[], false;
    }

    method ApplyManifest(reports: seq<TabReport>, pids: map<nat, nat>) returns (changed: bool)
      modifies this
      ensures panes == ManifestApplied(old(panes), reports, pids)
      ensures manifestApplied
      ensures changed <==> panes != old(panes)
    {
      var before := panes;
      manifestApplied := true;
      for i := 0 to |reports|
        invariant panes == WithTabs(before, reports[..i])
        invariant manifestApplied
      {
        assert reports[..i + 1][..i] == reports[..i];
        ApplyTab(reports[i]);
      }
      assert reports[..|reports|] == reports;
      ProbeMissingPids(pids);
      changed := panes != before;
    }

    method ApplyTab(report: TabReport)
      modifies this`panes
      ensures panes == WithTab(old(panes), report)
    {
      if report.panes == [] {
        return;
      }
      var reported := set pane | pane in report.panes :: Key(pane);
      panes := map key | key in panes && (Tab(panes[key]) != Some(report.tab) || key in reported) :: panes[key];
      ghost var retained := panes;
      for i := 0 to |report.panes|
        invariant panes == WithPanes(retained, report.panes[..i])
      {
        assert report.panes[..i + 1][..i] == report.panes[..i];
        var pane := report.panes[i];
        if Key(pane) in panes {
          panes := panes[Key(pane) := panes[Key(pane)].(manifest := Some(pane))];
        } else {
          panes := panes[Key(pane) := FromManifest(pane)];
        }
      }
      assert report.panes[..|report.panes|] == report.panes;
    }

    method ProbeMissingPids(pids: map<nat, nat>)
      modifies this`panes
      ensures panes == Probed(old(panes), pids)
    {
      var live := set key | key in panes && LiveTerminal(key, panes[key]);
      while live != {}
        invariant live <= panes.Keys == old(panes).Keys
        invariant forall key | key in live :: panes[key] == old(panes)[key] && LiveTerminal(key, panes[key])
        invariant forall key | key in panes && key !in live :: panes[key] == ProbedPane(key, old(panes)[key], pids)
        decreases live
      {
        var key :| key in live;
        live := live - {key};
        if panes[key].pid == Unprobed {
          panes := panes[key := panes[key].(pid := if key.id in pids then Known(pids[key.id]) else Missing)];
        }
      }
    }

    method UpdateForeground(pane: PaneId, command: Option<string>) returns (changed: bool)
      modifies this`panes
      ensures panes == ForegroundSet(old(panes), pane, command)
      ensures changed <==> pane.Terminal? && StateOf(old(panes), KeyOf(pane)).foreground != command
    {
      if pane.Plugin? {
        return false;
      }
      var state := StateOf(panes, KeyOf(pane));
      changed := state.foreground != command;
      panes := panes[KeyOf(pane) := state.(foreground := command)];
    }

    method UpdateShell(pane: PaneId, command: string) returns (changed: bool)
      modifies this`panes
      ensures panes == ShellSet(old(panes), pane, command)
      ensures changed <==>
              var state := StateOf(old(panes), KeyOf(pane));
              pane.Terminal? && (state.foreground.Some? || state.shell != Some(command))
    {
      if pane.Plugin? {
        return false;
      }
      var state := StateOf(panes, KeyOf(pane));
      changed := state.foreground.Some? || state.shell != Some(command);
      panes := panes[KeyOf(pane) := state.(foreground := None, shell := Some(command))];
    }

    method UpdateCwd(pane: PaneId, cwd: Option<string>) returns (changed: bool)
      modifies this`panes
      ensures panes == CwdSet(old(panes), pane, cwd)
      ensures changed <==> pane.Terminal? && StateOf(old(panes), KeyOf(pane)).cwd != cwd
    {
      if pane.Plugin? {
        return false;
      }
      var state := StateOf(panes, KeyOf(pane));
      changed := state.cwd != cwd;
      panes := panes[KeyOf(pane) := state.(cwd := cwd)];
    }

    method ClosePane(pane: PaneId) returns (changed: bool)
      modifies this`panes
      ensures panes == Closed(old(panes), pane)
      ensures changed <==> KeyOf(pane) in old(panes)
    {
      changed := KeyOf(pane) in panes;
      panes := panes - {KeyOf(pane)};
    }

    method SetTabIds(tabIds: map<nat, nat>) returns (changed: bool)
      modifies this`panes
      ensures panes == TabIdsSet(old(panes), tabIds)
      ensures changed <==> panes != old(panes)
    {
      var before := panes;
      var keys := panes.Keys;
      while keys != {}
        invariant keys <= panes.Keys == before.Keys
        invariant forall key | key in keys :: panes[key] == before[key]
        invariant forall key | key in panes && key !in keys :: panes[key] == Retabbed(before[key], tabIds)
        decreases keys
      {
        var key :| key in keys;
        keys := keys - {key};
        panes := panes[key := Retabbed(panes[key], tabIds)];
      }
      changed := panes != before;
    }
  }
}
