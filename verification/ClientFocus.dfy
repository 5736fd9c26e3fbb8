/**
  Tab-switch settling over untagged `ListClients` replies. The functions over
  `Focus` values specify the methods of the class `FocusSync`.
 */
module ClientFocus {
  import opened Prelude

  const FOCUS_SETTLE_MS: nat := 250
  const QUERY_TTL_MS: nat := 60_000
  const U32_MAX: nat := 0xFFFF_FFFF
  const GENERATIONS: nat := 0x1_0000_0000_0000_0000

  datatype PaneId = Terminal(id: nat) | Plugin(id: nat)
  datatype ClientView = ClientView(clientId: nat, pane: PaneId)

  datatype Purpose = General | SwitchSettled(generation: nat, tab: nat)
  datatype Query = Query(purpose: Purpose, issuedAt: nat, rosterInvalidated: bool, deadline: nat)
  datatype PendingSwitch = PendingSwitch(generation: nat, tab: nat, settleAt: nat)
  datatype Mode = Stable | Switching(pending: PendingSwitch)

  datatype Settled = Settled(tab: nat, generation: nat, clients: seq<ClientView>)
  datatype Update = Update(settled: Option<Settled>, sampleChanged: bool)

  /** A client sample is the set of views: sorted and deduplicated on the wire. */
  datatype Focus = Focus(
    activeTab: Option<nat>,
    generation: nat,
    mode: Mode,
    inFlight: Option<Query>,
    queued: Option<Purpose>,
    staleReplies: nat,
    connectedClients: Option<nat>,
    sample: Option<set<ClientView>>,
    rosterChangedAt: Option<nat>)

  const IDLE := Focus(None, 0, Stable, None, None, 0, None, None, None)

  function LatestQuery(current: Purpose, next: Purpose): Purpose {
    match (current, next)
    case (_, General) => current
    case (General, _) => next
    case (SwitchSettled(g, _), SwitchSettled(h, _)) => if g > h then current else next
  }

  function Enqueued(f: Focus, purpose: Purpose): Focus {
    f.(queued := Some(if f.queued.None? then purpose else LatestQuery(f.queued.value, purpose)))
  }

  function Observed(f: Focus): Focus {
    Enqueued(f, General)
  }

  function Invalidated(f: Focus, now: nat): Focus {
    Observed(f.(
      rosterChangedAt := Some(now),
      inFlight := if f.inFlight.Some? then Some(f.inFlight.value.(rosterInvalidated := true)) else None))
  }

  /** A tab update that leaves one known tab for another. */
  predicate IsSwitch(f: Focus, active: Option<nat>) {
    f.activeTab.Some? && active.Some? && f.activeTab != active
  }

  function TabUpdated(f: Focus, active: Option<nat>, now: nat): Focus {
    var g := f.(activeTab := active);
    if IsSwitch(f, active) then
      var generation := (f.generation + 1) % GENERATIONS;
      g.(generation := generation,
         mode := Switching(PendingSwitch(generation, active.value, SatAdd(now, FOCUS_SETTLE_MS))))
    else if active.None? then Observed(g.(mode := Stable))
    else if f.activeTab.None? then Observed(g)
    else g
  }

  function ClientsCounted(f: Focus, connected: Option<nat>): Focus {
    if connected.Some? && f.connectedClients != connected
    then Observed(f.(connectedClients := connected))
    else f
  }

  function Expired(f: Focus, now: nat): Focus {
    if f.inFlight.Some? && now >= f.inFlight.value.deadline then
      Enqueued(f.(inFlight := None, staleReplies := Min(f.staleReplies + 1, U32_MAX)), f.inFlight.value.purpose)
    else f
  }

  /** The focus state after a reply is matched to a query, and the query it answered, if any. */
  function ReplyConsumed(f: Focus, now: nat): (Focus, Option<Query>) {
    var g := Expired(f, now);
    if g.staleReplies > 0 then
      var h := g.(staleReplies := g.staleReplies - 1, inFlight := None);
      (if g.inFlight.Some? then Enqueued(h, g.inFlight.value.purpose) else h, None)
    else (g.(inFlight := None), g.inFlight)
  }

  predicate Settles(f: Focus, purpose: Purpose) {
    && purpose.SwitchSettled? && f.mode.Switching?
    && f.mode.pending.generation == purpose.generation && f.mode.pending.tab == purpose.tab
    && f.activeTab == Some(purpose.tab)
  }

  function Views(clients: seq<ClientView>): set<ClientView> {
    set view | view in clients
  }

  function Replied(f: Focus, clients: seq<ClientView>, now: nat): (Focus, Update) {
    var (g, query) := ReplyConsumed(f, now);
    var purpose := if query.Some? then query.value.purpose else General;
    var settles := Settles(g, purpose);
    var h := g.(sample := Some(Views(clients)), mode := if settles then Stable else g.mode);
    var cleared := && h.mode.Stable? && h.rosterChangedAt.Some? && query.Some?
                   && !query.value.rosterInvalidated && query.value.issuedAt >= h.rosterChangedAt.value;
    (if cleared then h.(rosterChangedAt := None) else h,
     Update(if settles then Some(Settled(purpose.tab, purpose.generation, clients)) else None,
            g.sample != h.sample || cleared))
  }

  predicate HasQuery(f: Focus, purpose: Purpose) {
    f.queued == Some(purpose) || (f.inFlight.Some? && f.inFlight.value.purpose == purpose)
  }

  function SwitchPurpose(pending: PendingSwitch): Purpose {
    SwitchSettled(pending.generation, pending.tab)
  }

  /** Expire the query in flight, then queue the settled observation of a switch whose window has passed. */
  function SettleQueued(f: Focus, now: nat): Focus {
    var g := Expired(f, now);
    if && g.mode.Switching? && g.activeTab == Some(g.mode.pending.tab) && now >= g.mode.pending.settleAt
       && !HasQuery(g, SwitchPurpose(g.mode.pending))
    then Enqueued(g, SwitchPurpose(g.mode.pending))
    else g
  }

  /** Whether driving the machine sends `ListClients` to the host. */
  predicate Asks(f: Focus, now: nat, allowed: bool) {
    var g := SettleQueued(f, now);
    g.inFlight.None? && allowed && g.queued.Some?
  }

  function Driven(f: Focus, now: nat, allowed: bool): Focus {
    var g := SettleQueued(f, now);
    if Asks(f, now, allowed) then
      g.(queued := None, inFlight := Some(Query(g.queued.value, now, false, SatAdd(now, QUERY_TTL_MS))))
    else g
  }

  function SwitchDeadline(f: Focus): Option<nat> {
    if f.mode.Switching? && !HasQuery(f, SwitchPurpose(f.mode.pending)) then Some(f.mode.pending.settleAt) else None
  }

  function NextDeadline(f: Focus): Option<nat> {
    match f.inFlight
    case None => SwitchDeadline(f)
    case Some(query) => Some(Earlier(query.deadline, SwitchDeadline(f)))
  }

  /** The sample a publication may carry: withheld while the roster is newer than the sample. */
  function PublishedSample(f: Focus): Option<set<ClientView>> {
    if f.rosterChangedAt.Some? then None else f.sample
  }

  class FocusSync {
    var activeTab: Option<nat>
    var generation: nat
    var mode: Mode
    var inFlight: Option<Query>
    var queued: Option<Purpose>
    var staleReplies: nat
    var connectedClients: Option<nat>
    var sample: Option<set<ClientView>>
    var rosterChangedAt: Option<nat>

    function View(): Focus
      reads this
    {
      Focus(activeTab, generation, mode, inFlight, queued, staleReplies, connectedClients, sample, rosterChangedAt)
    }

    constructor ()
      ensures View() == IDLE
    {
      activeTab, generation, mode, inFlight, queued := None, 0, Stable, None, None;
      staleReplies, connectedClients, sample, rosterChangedAt := 0, None, None, None;
    }

    method Enqueue(purpose: Purpose)
      modifies this
      ensures View() == Enqueued(old(View()), purpose)
    {
      match queued {
        case None => queued := Some(purpose);
        case Some(existing) => queued := Some(LatestQuery(existing, purpose));
      }
    }

    method RequestGeneralObservation()
      modifies this
      ensures View() == Observed(old(View()))
    {
      Enqueue(General);
    }

    method InvalidateClientSample(now: nat)
      modifies this
      ensures View() == Invalidated(old(View()), now)
    {
      rosterChangedAt := Some(now);
      if inFlight.Some? {
        inFlight := Some(inFlight.value.(rosterInvalidated := true));
      }
      RequestGeneralObservation();
    }

    method AcceptTabUpdate(active: Option<nat>, now: nat)
      modifies this
      ensures View() == TabUpdated(old(View()), active, now)
    {
      var previousActive := activeTab;
      activeTab := active;
      if previousActive.Some? && active.Some? {
        if previousActive.value != active.value {
          generation := (generation + 1) % GENERATIONS;
          mode := Switching(PendingSwitch(generation, active.value, SatAdd(now, FOCUS_SETTLE_MS)));
        }
      } else if active.None? {
        mode := Stable;
        RequestGeneralObservation();
      } else {
        RequestGeneralObservation();
      }
    }

    method AcceptConnectedClients(connected: Option<nat>)
      modifies this
      ensures View() == ClientsCounted(old(View()), connected)
    {
      if connected.Some? && connectedClients != connected {
        connectedClients := connected;
        RequestGeneralObservation();
      }
    }

    method ExpireQuery(now: nat)
      modifies this
      ensures View() == Expired(old(View()), now)
    {
      if inFlight.Some? && now >= inFlight.value.deadline {
        var purpose := inFlight.value.purpose;
        inFlight := None;
        staleReplies := Min(staleReplies + 1, U32_MAX);
        Enqueue(purpose);
      }
    }

    method ConsumeReply(now: nat) returns (query: Option<Query>)
      modifies this
      ensures (View(), query) == ReplyConsumed(old(View()), now)
    {
      ExpireQuery(now);
      if staleReplies > 0 {
        staleReplies := staleReplies - 1;
        if inFlight.Some? {
          var purpose := inFlight.value.purpose;
          inFlight := None;
          Enqueue(purpose);
        }
        return None;
      }
      query := inFlight;
      inFlight := None;
    }

    method ApplyObservation(purpose: Purpose, clients: seq<ClientView>) returns (settled: Option<Settled>)
      modifies this`mode
      ensures settled == if old(Settles(View(), purpose)) then Some(Settled(purpose.tab, purpose.generation, clients)) else None
      ensures mode == if settled.Some? then Stable else old(mode)
    {
      match purpose {
        case General => return None;
        case SwitchSettled(generation, tab) =>
          if mode.Stable? {
            return None;
          }
          var pending := mode.pending;
          if pending.generation != generation || pending.tab != tab || activeTab != Some(tab) {
            return None;
          }
          mode := Stable;
          return Some(Settled(tab, generation, clients));
      }
    }

    method AcceptClientSample(clients: seq<ClientView>, now: nat) returns (update: Update)
      modifies this
      ensures (View(), update) == Replied(old(View()), clients, now)
    {
      var query := ConsumeReply(now);
      var taken := Some(Views(clients));
      var sampleChanged := sample != taken;
      sample := taken;
      var settled := ApplyObservation(if query.Some? then query.value.purpose else General, clients);
      var cleared := && mode == Stable && rosterChangedAt.Some? && query.Some?
                     && !query.value.rosterInvalidated && query.value.issuedAt >= rosterChangedAt.value;
      if cleared {
        rosterChangedAt := None;
      }
      update := Update(settled, sampleChanged || cleared);
    }

    method DriveDueQuery(now: nat, allowed: bool) returns (ask: bool)
      modifies this
      ensures ask == Asks(old(View()), now, allowed)
      ensures View() == Driven(old(View()), now, allowed)
    {
      ExpireQuery(now);
      if mode.Switching? && activeTab == Some(mode.pending.tab) && now >= mode.pending.settleAt {
        var purpose := SwitchPurpose(mode.pending);
        if !HasQuery(View(), purpose) {
          Enqueue(purpose);
        }
      }
      if inFlight.Some? || !allowed || queued.None? {
        return false;
      }
      inFlight := Some(Query(queued.value, now, false, SatAdd(now, QUERY_TTL_MS)));
      queued := None;
      return true;
    }
  }
}
