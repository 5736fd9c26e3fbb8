/**
  Which conversation row stands for a launch. The owner order among live rows is the pairwise
  comparison of co-resident conversations; kinds in `follow` prefer the latest session of a pane.
 */
module LaunchRows {
  import opened Prelude

  datatype Agent = Agent(
    kind: nat, id: nat, launchId: Option<nat>, priors: set<nat>, subagent: bool, ended: bool,
    lastActivity: int, registeredAt: Option<int>, onScreenAt: Option<int>, waiting: bool, openTurn: bool)

  // ----- The owner order -----

  predicate Asking(a: Agent) {
    a.waiting && a.openTurn
  }

  /** A later time first, no time last. */
  predicate Later(x: Option<int>, y: Option<int>) {
    x.Some? && (y.None? || x.value > y.value)
  }

  /** An earlier time first, no time last. */
  predicate Sooner(x: Option<int>, y: Option<int>) {
    x.Some? && (y.None? || x.value < y.value)
  }

  /** The order of two conversations neither of which is on screen. */
  predicate Rested(follows: bool, x: Agent, y: Agent) {
    if x.openTurn != y.openTurn then x.openTurn
    else if x.openTurn && follows then
      if x.registeredAt != y.registeredAt then Later(x.registeredAt, y.registeredAt)
      else if x.lastActivity != y.lastActivity then x.lastActivity > y.lastActivity
      else x.id > y.id
    else if x.openTurn then
      if x.registeredAt != y.registeredAt then Sooner(x.registeredAt, y.registeredAt) else x.id < y.id
    else if x.lastActivity != y.lastActivity then x.lastActivity > y.lastActivity
    else if x.registeredAt != y.registeredAt then Later(x.registeredAt, y.registeredAt)
    else if follows then x.id > y.id
    else x.id < y.id
  }

  /** `compare_same_pane_owner` says less. */
  predicate Owns(follow: set<nat>, x: Agent, y: Agent) {
    var follows := x.kind == y.kind && x.kind in follow;
    if follows && (x.onScreenAt.Some? || y.onScreenAt.Some?) && Asking(x) != Asking(y) then Asking(x)
    else if follows && x.onScreenAt != y.onScreenAt then Later(x.onScreenAt, y.onScreenAt)
    else Rested(follows, x, y)
  }

  /** Of two rows with different ids exactly one owns the pane. */
  lemma OwnerIsDecided(follow: set<nat>, x: Agent, y: Agent)
    requires x.id != y.id
    ensures Owns(follow, x, y) <==> !Owns(follow, y, x)
  {
  }

  // ----- Selection -----

  function MinBy(follow: set<nat>, rows: seq<Agent>): (m: Agent)
    requires rows != []
    ensures m in rows
  {
    if |rows| == 1 then rows[0]
    else
      var m, last := MinBy(follow, rows[..|rows| - 1]), rows[|rows| - 1];
      if Owns(follow, last, m) then last else m
  }

  /** The order ended rows are resumed by. */
  predicate Fresher(x: Agent, y: Agent) {
    x.lastActivity > y.lastActivity || (x.lastActivity == y.lastActivity && x.id > y.id)
  }

  function MaxByActivity(rows: seq<Agent>): (m: Agent)
    requires rows != []
    ensures m in rows
  {
    if |rows| == 1 then rows[0]
    else
      var m, last := MaxByActivity(rows[..|rows| - 1]), rows[|rows| - 1];
      if Fresher(m, last) then m else last
  }

  function Filter(rows: seq<Agent>, keep: Agent -> bool): (kept: seq<Agent>)
    ensures forall a :: a in kept <==> a in rows && keep(a)
  {
    if rows == [] then []
    else
      var rest, last := Filter(rows[..|rows| - 1], keep), rows[|rows| - 1];
      if keep(last) then rest + [last] else rest
  }

  function Live(): Agent -> bool {
    (a: Agent) => !a.ended
  }

  function Occupant(follow: set<nat>, group: seq<Agent>): Option<Agent> {
    var live := Filter(group, Live());
    if live != [] then Some(MinBy(follow, live))
    else if group != [] then Some(MaxByActivity(group))
    else None
  }

  predicate IsRow(a: Agent, kind: nat, id: nat) {
    a.kind == kind && a.id == id && !a.subagent
  }

  /** The launch id of the first row with this kind and id. */
  function Alias(agents: seq<Agent>, kind: nat, id: nat): Option<nat> {
    if agents == [] then None
    else if IsRow(agents[0], kind, id) then agents[0].launchId
    else Alias(agents[1..], kind, id)
  }

  predicate AnswersTo(a: Agent, id: nat) {
    a.id == id || a.launchId == Some(id) || id in a.priors
  }

  function Belongs(kind: nat, id: nat, alias: Option<nat>): Agent -> bool {
    (a: Agent) => a.kind == kind && !a.subagent && (AnswersTo(a, id) || (alias.Some? && a.launchId == alias))
  }

  function Members(agents: seq<Agent>, kind: nat, id: nat): seq<Agent> {
    Filter(agents, Belongs(kind, id, Alias(agents, kind, id)))
  }

  /** A live row that holds the id now. */
  function Holds(id: nat): Agent -> bool {
    (a: Agent) => !a.ended && (a.id == id || a.launchId == Some(id) || id !in a.priors)
  }

  function LaunchRow(follow: set<nat>, agents: seq<Agent>, kind: nat, id: nat): Option<Agent> {
    var members := Members(agents, kind, id);
    var holders := Filter(members, Holds(id));
    Occupant(follow, if holders == [] then members else holders)
  }

  // ----- Rows of several launches -----

  predicate KeyBefore(x: Agent, y: Agent) {
    x.kind < y.kind || (x.kind == y.kind && x.id < y.id)
  }

  predicate SameKey(x: Agent, y: Agent) {
    x.kind == y.kind && x.id == y.id
  }

  /** `entry(key).or_insert(row)` on a map kept in key order. */
  function OrInsert(rows: seq<Agent>, a: Agent): seq<Agent> {
    if rows == [] || KeyBefore(a, rows[0]) then [a] + rows
    else if SameKey(a, rows[0]) then rows
    else [rows[0]] + OrInsert(rows[1..], a)
  }

  predicate UniqueKeys(agents: seq<Agent>) {
    forall i, j | 0 <= i < j < |agents| :: !SameKey(agents[i], agents[j])
  }

  predicate InKeyOrder(rows: seq<Agent>) {
    forall i, j | 0 <= i < j < |rows| :: KeyBefore(rows[i], rows[j])
  }

  lemma {:induction false} OrInsertHolds(rows: seq<Agent>, a: Agent, x: Agent)
    ensures x in OrInsert(rows, a) ==> x == a || x in rows
    ensures x in rows ==> x in OrInsert(rows, a)
  {
    if rows != [] && !KeyBefore(a, rows[0]) && !SameKey(a, rows[0]) {
      OrInsertHolds(rows[1..], a, x);
      assert rows == [rows[0]] + rows[1..];
    }
  }

  lemma {:induction false} OrInsertFinds(rows: seq<Agent>, a: Agent) returns (x: Agent)
    ensures x in OrInsert(rows, a) && SameKey(x, a)
  {
    if rows == [] || KeyBefore(a, rows[0]) {
      x := a;
    } else if SameKey(a, rows[0]) {
      x := rows[0];
    } else {
      x := OrInsertFinds(rows[1..], a);
    }
  }

  lemma KeyOrderPrepend(first: Agent, rest: seq<Agent>)
    requires InKeyOrder(rest) && forall x | x in rest :: KeyBefore(first, x)
    ensures InKeyOrder([first] + rest)
  {
    assert forall i | 0 <= i < |rest| :: rest[i] in rest;
  }

  lemma {:induction false} OrInsertOrder(rows: seq<Agent>, a: Agent)
    requires InKeyOrder(rows)
    ensures InKeyOrder(OrInsert(rows, a))
  {
    if rows == [] || KeyBefore(a, rows[0]) {
      forall x | x in rows ensures KeyBefore(a, x) {
        var i :| 0 <= i < |rows| && rows[i] == x;
      }
      KeyOrderPrepend(a, rows);
    } else if !SameKey(a, rows[0]) {
      OrInsertOrder(rows[1..], a);
      forall x | x in OrInsert(rows[1..], a) ensures KeyBefore(rows[0], x) {
        OrInsertHolds(rows[1..], a, x);
      }
      KeyOrderPrepend(rows[0], OrInsert(rows[1..], a));
    }
  }

  lemma OrInsertLaws(rows: seq<Agent>, a: Agent)
    requires InKeyOrder(rows)
    ensures InKeyOrder(OrInsert(rows, a))
    ensures forall x :: x in OrInsert(rows, a) ==> x == a || x in rows
    ensures forall x | x in rows :: x in OrInsert(rows, a)
    ensures exists x | x in OrInsert(rows, a) :: SameKey(x, a)
  {
    OrInsertOrder(rows, a);
    forall x ensures x in OrInsert(rows, a) ==> x == a || x in rows
      ensures x in rows ==> x in OrInsert(rows, a)
    {
      OrInsertHolds(rows, a, x);
    }
    var x := OrInsertFinds(rows, a);
  }

  function Inserted(rows: seq<Agent>, members: seq<Agent>): seq<Agent> {
    if members == [] then rows else OrInsert(Inserted(rows, members[..|members| - 1]), members[|members| - 1])
  }

  /** The members of the first `n` requested launches, each once. */
  function RowsOf(agents: seq<Agent>, keys: seq<(nat, nat)>, n: nat): seq<Agent>
    requires n <= |keys|
  {
    if n == 0 then [] else Inserted(RowsOf(agents, keys, n - 1), Members(agents, keys[n - 1].0, keys[n - 1].1))
  }

  method LaunchRowsOf(agents: seq<Agent>, keys: seq<(nat, nat)>) returns (rows: seq<Agent>)
    ensures rows == RowsOf(agents, keys, |keys|)
  {
    rows := [];
    for i := 0 to |keys|
      invariant rows == RowsOf(agents, keys, i)
    {
      var members := Members(agents, keys[i].0, keys[i].1);
      ghost var before := rows;
      for j := 0 to |members|
        invariant rows == Inserted(before, members[..j])
      {
        rows := OrInsert(rows, members[j]);
        assert members[..j + 1][..j] == members[..j];
      }
      assert members[..|members|] == members;
    }
  }

  lemma {:induction false} InsertedLaws(rows: seq<Agent>, members: seq<Agent>)
    requires InKeyOrder(rows)
    ensures InKeyOrder(Inserted(rows, members))
    ensures forall x :: x in Inserted(rows, members) ==> x in rows || x in members
    ensures forall x | x in rows :: x in Inserted(rows, members)
    ensures forall m | m in members :: exists x | x in Inserted(rows, members) :: SameKey(x, m)
  {
    if members != [] {
      var init, last := members[..|members| - 1], members[|members| - 1];
      InsertedLaws(rows, init);
      OrInsertLaws(Inserted(rows, init), last);
      assert forall m | m in members :: m in init || m == last;
      forall m | m in members ensures exists x | x in Inserted(rows, members) :: SameKey(x, m) {
        if m in init {
          var x :| x in Inserted(rows, init) && SameKey(x, m);
          assert x in Inserted(rows, members);
        }
      }
    }
  }

  lemma SameKeySameRow(agents: seq<Agent>, x: Agent, y: Agent)
    requires UniqueKeys(agents) && x in agents && y in agents && SameKey(x, y)
    ensures x == y
  {
    var i :| 0 <= i < |agents| && agents[i] == x;
    var j :| 0 <= j < |agents| && agents[j] == y;
  }

  /** Some of the first `n` requested launches has this row. */
  predicate Requested(agents: seq<Agent>, keys: seq<(nat, nat)>, n: nat, a: Agent)
    requires n <= |keys|
  {
    exists i | 0 <= i < n :: a in Members(agents, keys[i].0, keys[i].1)
  }

  lemma {:induction false} RowsAre(agents: seq<Agent>, keys: seq<(nat, nat)>, n: nat)
    requires UniqueKeys(agents) && n <= |keys|
    ensures InKeyOrder(RowsOf(agents, keys, n))
    ensures forall a :: a in RowsOf(agents, keys, n) <==> Requested(agents, keys, n, a)
  {
    if n > 0 {
      RowsAre(agents, keys, n - 1);
      var before, members := RowsOf(agents, keys, n - 1), Members(agents, keys[n - 1].0, keys[n - 1].1);
      InsertedLaws(before, members);
      forall a ensures a in Inserted(before, members) <==> Requested(agents, keys, n - 1, a) || a in members {
        if a in members {
          var x :| x in Inserted(before, members) && SameKey(x, a);
          SameKeySameRow(agents, x, a);
        }
      }
    }
  }
}
