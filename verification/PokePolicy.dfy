/**
  The wake scheduler of the presence plugin: the poke policy decides when a
  `rimz sidebar wake` is due, the timer gate decides when to arm a host timer.
  The functions over `Schedule` and `armedFor` values specify the two classes.
 */
module PokePolicy {
  import opened Prelude

  const POKE_FLOOR_MS: nat := 100
  const SETTLE_POKE_MS: nat := 250
  const KEEPALIVE_MS: nat := 60_000

  datatype Poke = Changed | Alive

  /** The plain additions of the policy stay inside 64 bits. */
  predicate ClockFits(now: nat) {
    now + KEEPALIVE_MS <= U64_MAX
  }

  datatype Schedule = Schedule(
    pendingSince: Option<nat>,
    lastChangedPoke: Option<nat>,
    settleDueAt: Option<nat>,
    nextKeepalive: nat)

  function Fresh(now: nat): Schedule {
    Schedule(None, None, None, now + KEEPALIVE_MS)
  }

  function Signalled(p: Schedule, now: nat): Schedule {
    if p.pendingSince.None? then p.(pendingSince := Some(now)) else p
  }

  /** When the pending change may be poked: at once, or when the floor lifts. */
  function ChangeDueAt(p: Schedule): Option<nat> {
    match p.pendingSince
    case None => None
    case Some(since) =>
      match p.lastChangedPoke
      case None => Some(since)
      case Some(at) => Some(Max(since, SatAdd(at, POKE_FLOOR_MS)))
  }

  predicate ChangeFires(p: Schedule, now: nat) {
    Reached(ChangeDueAt(p), now)
  }

  predicate SettleFires(p: Schedule, now: nat) {
    !ChangeFires(p, now) && Reached(p.settleDueAt, now)
  }

  function Consulted(p: Schedule, now: nat): Schedule {
    var fires := ChangeFires(p, now);
    var settles := SettleFires(p, now);
    Schedule(
      if fires then None else p.pendingSince,
      if fires || settles then Some(now) else p.lastChangedPoke,
      if fires then Some(now + SETTLE_POKE_MS) else if settles then None else p.settleDueAt,
      if now >= p.nextKeepalive then now + KEEPALIVE_MS else p.nextKeepalive)
  }

  function DuePokes(p: Schedule, now: nat): seq<Poke> {
    (if ChangeFires(p, now) || SettleFires(p, now) then [Changed] else [])
    + (if now >= p.nextKeepalive then [Alive] else [])
  }

  function NextWake(p: Schedule): nat {
    Earlier(Earlier(p.nextKeepalive, p.settleDueAt), ChangeDueAt(p))
  }

  class Policy {
    var pendingSince: Option<nat>
    var lastChangedPoke: Option<nat>
    var settleDueAt: Option<nat>
    var nextKeepalive: nat

    function View(): Schedule
      reads this
    {
      Schedule(pendingSince, lastChangedPoke, settleDueAt, nextKeepalive)
    }

    constructor (now: nat)
      requires ClockFits(now)
      ensures View() == Fresh(now)
    {
      pendingSince, lastChangedPoke, settleDueAt := None, None, None;
      nextKeepalive := now + KEEPALIVE_MS;
    }

    method OnSignal(now: nat)
      modifies this
      ensures View() == Signalled(old(View()), now)
    {
      if pendingSince.None? {
        pendingSince := Some(now);
      }
    }

    method Due(now: nat) returns (pokes: seq<Poke>)
      requires ClockFits(now)
      modifies this
      ensures View() == Consulted(old(View()), now)
      ensures pokes == DuePokes(old(View()), now)
    {
      pokes := [];
      var firedPendingChange := false;
      if pendingSince.Some? {
        var since := pendingSince.value;
        var dueAt := if lastChangedPoke.Some? then Max(since, SatAdd(lastChangedPoke.value, POKE_FLOOR_MS)) else since;
        if now >= dueAt {
          pendingSince := None;
          lastChangedPoke := Some(now);
          settleDueAt := Some(now + SETTLE_POKE_MS);
          firedPendingChange := true;
          pokes := pokes + [Changed];
        }
      }
      if !firedPendingChange && settleDueAt.Some? && now >= settleDueAt.value {
        settleDueAt := None;
        lastChangedPoke := Some(now);
        pokes := pokes + [Changed];
      }
      if now >= nextKeepalive {
        nextKeepalive := now + KEEPALIVE_MS;
        pokes := pokes + [Alive];
      }
    }

    method NextWakeAt() returns (at: nat)
      ensures at == NextWake(View())
    {
      at := nextKeepalive;
      if settleDueAt.Some? && settleDueAt.value < at {
        at := settleDueAt.value;
      }
      if pendingSince.Some? {
        var changeAt := pendingSince.value;
        if lastChangedPoke.Some? {
          changeAt := Max(changeAt, SatAdd(lastChangedPoke.value, POKE_FLOOR_MS));
        }
        at := Min(at, changeAt);
      }
    }
  }

  /** The mark left after a host timer fires: only a reached deadline clears it. */
  function Fired(armedFor: Option<nat>, now: nat): Option<nat> {
    if Reached(armedFor, now) then None else armedFor
  }

  predicate ShouldArm(armedFor: Option<nat>, at: nat) {
    armedFor.None? || at < armedFor.value
  }

  function Armed(armedFor: Option<nat>, at: nat): Option<nat> {
    if ShouldArm(armedFor, at) then Some(at) else armedFor
  }

  class TimerGate {
    var armedFor: Option<nat>

    constructor ()
      ensures armedFor == None
    {
      armedFor := None;
    }

    method OnFire(now: nat)
      modifies this
      ensures armedFor == Fired(old(armedFor), now)
    {
      if armedFor.Some? && armedFor.value <= now {
        armedFor := None;
      }
    }

    method TryArm(at: nat) returns (arm: bool)
      modifies this
      ensures arm == ShouldArm(old(armedFor), at)
      ensures armedFor == Armed(old(armedFor), at)
    {
      arm := armedFor.None? || at < armedFor.value;
      if arm {
        armedFor := Some(at);
      }
    }

    method Reset()
      modifies this
      ensures armedFor == None
    {
      armedFor := None;
    }
  }

  // ----- What one consultation achieves -----

  /** Shape every reachable schedule has at clock reading `clock`. */
  predicate WellTimed(p: Schedule, clock: nat) {
    && ClockFits(clock)
    && (p.lastChangedPoke.Some? ==> p.lastChangedPoke.value <= clock)
    && (p.pendingSince.Some? ==> p.pendingSince.value <= clock)
    && (p.pendingSince.Some? && p.lastChangedPoke.Some? ==> p.lastChangedPoke.value <= p.pendingSince.value)
    && (p.settleDueAt.Some? ==>
          p.lastChangedPoke.Some? && p.settleDueAt.value == p.lastChangedPoke.value + SETTLE_POKE_MS)
    && p.nextKeepalive <= clock + KEEPALIVE_MS
  }

  lemma SignalKeepsTiming(p: Schedule, clock: nat, now: nat)
    requires WellTimed(p, clock) && clock <= now && ClockFits(now)
    ensures WellTimed(Signalled(p, now), now)
  {
  }

  /** Pokes come out exactly when the announced wake time is reached, and none is left due. */
  lemma ConsultMeetsWakeTime(p: Schedule, clock: nat, now: nat)
    requires WellTimed(p, clock) && clock <= now && ClockFits(now)
    ensures DuePokes(p, now) != [] <==> now >= NextWake(p)
    ensures NextWake(Consulted(p, now)) > now
    ensures DuePokes(Consulted(p, now), now) == []
    ensures now < NextWake(p) ==> Consulted(p, now) == p
    ensures WellTimed(Consulted(p, now), now)
  {
  }
}
