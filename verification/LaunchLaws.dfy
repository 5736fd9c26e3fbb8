/** When the row that stands for a launch depends on the order of the rows, and when selecting among a subset agrees. */
module LaunchLaws {
  import opened Prelude
  import opened LaunchRows

  // ----- Owners -----

  /** Rows of one kind with different ids. */
  predicate OneKind(rows: seq<Agent>) {
    && UniqueKeys(rows)
    && forall i, j | 0 <= i < |rows| && 0 <= j < |rows| :: rows[i].kind == rows[j].kind
  }

  predicate Dominates(follow: set<nat>, rows: seq<Agent>, d: Agent) {
    d in rows && forall a | a in rows && a != d :: Owns(follow, d, a)
  }

  lemma DistinctIds(rows: seq<Agent>, x: Agent, y: Agent)
    requires OneKind(rows) && x in rows && y in rows && x != y
    ensures x.id != y.id && x.kind == y.kind
  {
    var i :| 0 <= i < |rows| && rows[i] == x;
    var j :| 0 <= j < |rows| && rows[j] == y;
  }

  lemma OneKindInit(rows: seq<Agent>)
    requires OneKind(rows) && rows != []
    ensures OneKind(rows[..|rows| - 1]) && rows[|rows| - 1] !in rows[..|rows| - 1]
    ensures forall a :: a in rows <==> a in rows[..|rows| - 1] || a == rows[|rows| - 1]
  {
    assert rows == rows[..|rows| - 1] + [rows[|rows| - 1]];
  }

  /** A row that owns against every other is selected in any order. */
  lemma {:induction false} DominatorWins(follow: set<nat>, rows: seq<Agent>, d: Agent)
    requires OneKind(rows) && Dominates(follow, rows, d)
    ensures MinBy(follow, rows) == d
  {
    OneKindInit(rows);
    var init, last := rows[..|rows| - 1], rows[|rows| - 1];
    if d == last {
      if init != [] {
        assert MinBy(follow, init) in init;
      }
    } else {
      DominatorWins(follow, init, d);
      DistinctIds(rows, d, last);
      OwnerIsDecided(follow, d, last);
    }
  }

  lemma FocusedOrder(follow: set<nat>, x: Agent, y: Agent, z: Agent)
    requires x.kind == y.kind == z.kind && x.onScreenAt.Some? && y.onScreenAt.Some? && z.onScreenAt.Some?
    requires Owns(follow, x, y) && Owns(follow, y, z)
    ensures Owns(follow, x, z)
  {
  }

  lemma RestedOrder(follow: set<nat>, x: Agent, y: Agent, z: Agent)
    requires x.kind == y.kind == z.kind && x.onScreenAt.None? && y.onScreenAt.None? && z.onScreenAt.None?
    requires Owns(follow, x, y) && Owns(follow, y, z)
    ensures Owns(follow, x, z)
  {
  }

  lemma PlainOrder(follow: set<nat>, x: Agent, y: Agent, z: Agent)
    requires x.kind == y.kind == z.kind && x.kind !in follow
    requires Owns(follow, x, y) && Owns(follow, y, z)
    ensures Owns(follow, x, z)
  {
  }

  /** All on screen, all off screen, or of a kind that ignores the screen: the owner order is transitive. */
  predicate Uniform(follow: set<nat>, rows: seq<Agent>) {
    || (forall a | a in rows :: a.onScreenAt.Some?)
    || (forall a | a in rows :: a.onScreenAt.None?)
    || (forall a | a in rows :: a.kind !in follow)
  }

  lemma UniformOrder(follow: set<nat>, rows: seq<Agent>, x: Agent, y: Agent, z: Agent)
    requires Uniform(follow, rows) && x in rows && y in rows && z in rows && x.kind == y.kind == z.kind
    requires Owns(follow, x, y) && Owns(follow, y, z)
    ensures Owns(follow, x, z)
  {
    if x.kind !in follow {
      PlainOrder(follow, x, y, z);
    } else if x.onScreenAt.Some? {
      FocusedOrder(follow, x, y, z);
    } else {
      RestedOrder(follow, x, y, z);
    }
  }

  lemma {:induction false} UniformMin(follow: set<nat>, rows: seq<Agent>)
    requires OneKind(rows) && Uniform(follow, rows) && rows != []
    ensures Dominates(follow, rows, MinBy(follow, rows))
  {
    OneKindInit(rows);
    var init, last := rows[..|rows| - 1], rows[|rows| - 1];
    if init == [] {
      assert rows == [last];
    } else {
      UniformMin(follow, init);
      var m := MinBy(follow, init);
      DistinctIds(rows, m, last);
      OwnerIsDecided(follow, m, last);
      forall a | a in rows && a != MinBy(follow, rows) ensures Owns(follow, MinBy(follow, rows), a) {
        if Owns(follow, last, m) && a != m {
          UniformOrder(follow, rows, last, m, a);
        }
      }
    }
  }

  // ----- Contested ownership -----

  predicate OnScreen(a: Agent) {
    a.onScreenAt.Some?
  }

  /** A conversation off screen that waits for an answer. */
  predicate AsksUnseen(a: Agent) {
    !OnScreen(a) && Asking(a)
  }

  /**
    Nobody owns the pane against all others: an unseen ask yields to an unseen open turn, which
    yields to the row on screen, which yields to the ask.
   */
  predicate Contested(follow: set<nat>, rows: seq<Agent>) {
    && (exists c | c in rows :: OnScreen(c) && c.kind in follow)
    && (forall c | c in rows && OnScreen(c) :: !Asking(c))
    && (exists a | a in rows :: AsksUnseen(a))
    && (exists b | b in rows && !OnScreen(b) && !Asking(b) :: forall a | a in rows && AsksUnseen(a) :: Rested(true, b, a))
  }

  lemma ContestedHasNoOwner(follow: set<nat>, rows: seq<Agent>, d: Agent)
    requires OneKind(rows) && Contested(follow, rows) && d in rows
    ensures !Dominates(follow, rows, d)
  {
    var c :| c in rows && OnScreen(c) && c.kind in follow;
    var a :| a in rows && AsksUnseen(a);
    var b :| b in rows && !OnScreen(b) && !Asking(b) && forall x | x in rows && AsksUnseen(x) :: Rested(true, b, x);
    var rival := if OnScreen(d) then a else if Asking(d) then b else c;
    DistinctIds(rows, d, rival);
    OwnerIsDecided(follow, d, rival);
  }

  function Seen(): Agent -> bool {
    (a: Agent) => OnScreen(a)
  }

  function Unseen(): Agent -> bool {
    (a: Agent) => !OnScreen(a)
  }

  lemma {:induction false} FilterOneKind(rows: seq<Agent>, keep: Agent -> bool)
    requires OneKind(rows)
    ensures OneKind(Filter(rows, keep))
  {
    if rows != [] {
      OneKindInit(rows);
      var init, last := rows[..|rows| - 1], rows[|rows| - 1];
      FilterOneKind(init, keep);
      var kept := Filter(init, keep);
      forall i | 0 <= i < |kept| ensures !SameKey(kept[i], last) && kept[i].kind == last.kind {
        assert kept[i] in init;
        DistinctIds(rows, kept[i], last);
      }
    }
  }

  lemma {:induction false} FilterUnique(rows: seq<Agent>, keep: Agent -> bool)
    requires UniqueKeys(rows)
    ensures UniqueKeys(Filter(rows, keep))
  {
    if rows != [] {
      var init, last := rows[..|rows| - 1], rows[|rows| - 1];
      FilterUnique(init, keep);
      var kept := Filter(init, keep);
      forall i | 0 <= i < |kept| ensures !SameKey(kept[i], last) {
        assert kept[i] in init;
      }
    }
  }

  /** Unless ownership is contested some row owns against all others. */
  lemma OwnerUnlessContested(follow: set<nat>, rows: seq<Agent>) returns (d: Agent)
    requires OneKind(rows) && rows != [] && !Contested(follow, rows)
    ensures Dominates(follow, rows, d)
  {
    var seen, unseen := Filter(rows, Seen()), Filter(rows, Unseen());
    FilterOneKind(rows, Seen());
    FilterOneKind(rows, Unseen());
    if seen == [] || unseen == [] || rows[0].kind !in follow {
      UniformRows(follow, rows);
      UniformMin(follow, rows);
      d := MinBy(follow, rows);
    } else {
      UniformMin(follow, seen);
      UniformMin(follow, unseen);
      d := MixedOwner(follow, rows, seen, unseen, MinBy(follow, seen), MinBy(follow, unseen));
    }
  }

  lemma UniformRows(follow: set<nat>, rows: seq<Agent>)
    requires OneKind(rows) && rows != []
    requires Filter(rows, Seen()) == [] || Filter(rows, Unseen()) == [] || rows[0].kind !in follow
    ensures Uniform(follow, rows)
  {
    forall a | a in rows ensures a.kind == rows[0].kind {
      assert rows[0] in rows;
    }
    forall a | a in rows ensures a in Filter(rows, Seen()) || a in Filter(rows, Unseen()) {
    }
  }

  /** The owner among rows on and off screen, given the owners of each side. */
  lemma MixedOwner(
    follow: set<nat>, rows: seq<Agent>, seen: seq<Agent>, unseen: seq<Agent>, top: Agent, rest: Agent
  ) returns (d: Agent)
    requires OneKind(rows) && !Contested(follow, rows) && top.kind in follow && top.kind == rest.kind
    requires forall a | a in rows :: a.kind == top.kind
    requires forall a :: a in seen <==> a in rows && OnScreen(a)
    requires forall a :: a in unseen <==> a in rows && !OnScreen(a)
    requires Dominates(follow, seen, top) && Dominates(follow, unseen, rest)
    ensures Dominates(follow, rows, d)
  {
    if Asking(top) || !(exists a | a in rows :: AsksUnseen(a)) {
      d := top;
    } else {
      d := rest;
      forall c | c in rows && OnScreen(c) ensures !Asking(c) {
        if c != top {
          assert Owns(follow, top, c);
        }
      }
      if !Asking(rest) {
        forall a | a in rows && AsksUnseen(a) ensures Rested(true, rest, a) {
          assert Owns(follow, rest, a);
        }
        assert false;
      }
    }
  }

  // ----- What a selection depends on -----

  /** The live rows a selection chooses among. */
  function Pool(agents: seq<Agent>, kind: nat, id: nat): seq<Agent> {
    var members := Members(agents, kind, id);
    var holders := Filter(members, Holds(id));
    Filter(if holders == [] then members else holders, Live())
  }

  lemma RowFromPool(follow: set<nat>, agents: seq<Agent>, kind: nat, id: nat)
    ensures var pool, members := Pool(agents, kind, id), Members(agents, kind, id);
            LaunchRow(follow, agents, kind, id) ==
            if pool != [] then Some(MinBy(follow, pool))
            else if members != [] then Some(MaxByActivity(members))
            else None
  {
    var members := Members(agents, kind, id);
    var holders := Filter(members, Holds(id));
    if holders != [] {
      assert holders[0] in holders;
      assert holders[0] in Pool(agents, kind, id);
    }
  }

  lemma MembersOneKind(agents: seq<Agent>, kind: nat, id: nat)
    requires UniqueKeys(agents)
    ensures OneKind(Members(agents, kind, id)) && OneKind(Pool(agents, kind, id))
  {
    var members := Members(agents, kind, id);
    FilterUnique(agents, Belongs(kind, id, Alias(agents, kind, id)));
    assert forall i | 0 <= i < |members| :: members[i] in members;
    FilterOneKind(members, Holds(id));
    var holders := Filter(members, Holds(id));
    FilterOneKind(if holders == [] then members else holders, Live());
  }

  ghost predicate SameRows(a: seq<Agent>, b: seq<Agent>) {
    forall x :: x in a <==> x in b
  }

  lemma {:induction false} FreshestWins(rows: seq<Agent>, a: Agent)
    requires OneKind(rows) && a in rows && a != MaxByActivity(rows)
    ensures Fresher(MaxByActivity(rows), a)
  {
    OneKindInit(rows);
    var init, last := rows[..|rows| - 1], rows[|rows| - 1];
    if |rows| > 1 {
      var m := MaxByActivity(init);
      DistinctIds(rows, m, last);
      if a in init && a != m {
        FreshestWins(init, a);
      }
    }
  }

  lemma EmptyAgree(a: seq<Agent>, b: seq<Agent>)
    requires SameRows(a, b)
    ensures a == [] <==> b == []
  {
    if a != [] {
      assert a[0] in a;
    }
    if b != [] {
      assert b[0] in b;
    }
  }

  lemma PoolsAgree(a: seq<Agent>, b: seq<Agent>, kind: nat, id: nat)
    requires SameRows(Members(a, kind, id), Members(b, kind, id))
    ensures SameRows(Pool(a, kind, id), Pool(b, kind, id))
  {
    EmptyAgree(Filter(Members(a, kind, id), Holds(id)), Filter(Members(b, kind, id), Holds(id)));
  }

  /** Snapshots with the same members of a launch select the same row, if ownership is not contested. */
  lemma SelectionsAgree(follow: set<nat>, a: seq<Agent>, b: seq<Agent>, kind: nat, id: nat)
    requires UniqueKeys(a) && UniqueKeys(b) && SameRows(Members(a, kind, id), Members(b, kind, id))
    requires !Contested(follow, Pool(a, kind, id))
    ensures LaunchRow(follow, a, kind, id) == LaunchRow(follow, b, kind, id)
  {
    RowFromPool(follow, a, kind, id);
    RowFromPool(follow, b, kind, id);
    MembersOneKind(a, kind, id);
    MembersOneKind(b, kind, id);
    PoolsAgree(a, b, kind, id);
    EmptyAgree(Members(a, kind, id), Members(b, kind, id));
    EmptyAgree(Pool(a, kind, id), Pool(b, kind, id));
    if Pool(a, kind, id) != [] {
      var d := OwnerUnlessContested(follow, Pool(a, kind, id));
      DominatorWins(follow, Pool(a, kind, id), d);
      DominatorWins(follow, Pool(b, kind, id), d);
    } else if Members(a, kind, id) != [] {
      var x, y := MaxByActivity(Members(a, kind, id)), MaxByActivity(Members(b, kind, id));
      if x != y {
        FreshestWins(Members(a, kind, id), y);
        FreshestWins(Members(b, kind, id), x);
        assert false;
      }
    }
  }

  // ----- Rows of several launches -----

  lemma {:induction false} AliasIs(agents: seq<Agent>, kind: nat, id: nat)
    requires UniqueKeys(agents)
    ensures forall a | a in agents && IsRow(a, kind, id) :: Alias(agents, kind, id) == a.launchId
    ensures (forall a | a in agents :: !IsRow(a, kind, id)) ==> Alias(agents, kind, id).None?
  {
    if agents != [] {
      AliasIs(agents[1..], kind, id);
      assert agents == [agents[0]] + agents[1..];
      forall a | a in agents && IsRow(a, kind, id) && IsRow(agents[0], kind, id) ensures a == agents[0] {
        SameKeySameRow(agents, a, agents[0]);
      }
    }
  }

  lemma AliasAgrees(a: seq<Agent>, b: seq<Agent>, kind: nat, id: nat)
    requires UniqueKeys(a) && UniqueKeys(b)
    requires forall x | IsRow(x, kind, id) :: x in a <==> x in b
    ensures Alias(a, kind, id) == Alias(b, kind, id)
  {
    AliasIs(a, kind, id);
    AliasIs(b, kind, id);
    if x :| x in a && IsRow(x, kind, id) {
      assert x in b;
    }
  }

  lemma KeyOrderIsUnique(rows: seq<Agent>)
    requires InKeyOrder(rows)
    ensures UniqueKeys(rows)
  {
    forall i, j | 0 <= i < j < |rows| ensures !SameKey(rows[i], rows[j]) {
      assert KeyBefore(rows[i], rows[j]);
    }
  }

  /** The requested rows hold every member of each requested launch, and nothing else of it. */
  lemma RequestedMembers(agents: seq<Agent>, keys: seq<(nat, nat)>, i: nat)
    requires UniqueKeys(agents) && i < |keys|
    ensures UniqueKeys(RowsOf(agents, keys, |keys|))
    ensures SameRows(Members(RowsOf(agents, keys, |keys|), keys[i].0, keys[i].1), Members(agents, keys[i].0, keys[i].1))
  {
    var (kind, id) := keys[i];
    var rows := RowsOf(agents, keys, |keys|);
    RowsAre(agents, keys, |keys|);
    KeyOrderIsUnique(rows);
    forall x | IsRow(x, kind, id) ensures x in rows <==> x in agents {
      AliasIs(agents, kind, id);
      assert x in agents ==> x in Members(agents, kind, id);
    }
    AliasAgrees(rows, agents, kind, id);
  }

  /** Unless ownership is contested, selecting among the requested rows agrees with the whole snapshot. */
  lemma SubsetSelects(follow: set<nat>, agents: seq<Agent>, keys: seq<(nat, nat)>, i: nat)
    requires UniqueKeys(agents) && i < |keys| && !Contested(follow, Pool(agents, keys[i].0, keys[i].1))
    ensures LaunchRow(follow, RowsOf(agents, keys, |keys|), keys[i].0, keys[i].1) ==
            LaunchRow(follow, agents, keys[i].0, keys[i].1)
  {
    RequestedMembers(agents, keys, i);
    SelectionsAgree(follow, agents, RowsOf(agents, keys, |keys|), keys[i].0, keys[i].1);
  }

  // ----- Contested selections depend on the order of the snapshot -----

  function Without(rows: seq<Agent>, y: Agent): seq<Agent> {
    if rows == [] then []
    else
      var rest, last := Without(rows[..|rows| - 1], y), rows[|rows| - 1];
      if last == y then rest else rest + [last]
  }

  /** The rows with one of them moved to the end. */
  function MovedLast(rows: seq<Agent>, y: Agent): seq<Agent> {
    Without(rows, y) + [y]
  }

  lemma {:induction false} WithoutLaws(rows: seq<Agent>, y: Agent)
    ensures forall a :: a in Without(rows, y) <==> a in rows && a != y
    ensures UniqueKeys(rows) ==> UniqueKeys(Without(rows, y))
  {
    if rows != [] {
      var init, last := rows[..|rows| - 1], rows[|rows| - 1];
      WithoutLaws(init, y);
      var rest := Without(init, y);
      assert rows == init + [last];
      if UniqueKeys(rows) {
        forall i | 0 <= i < |rest| ensures !SameKey(rest[i], last) {
          assert rest[i] in rest;
        }
      }
    }
  }

  lemma MovedLastLaws(rows: seq<Agent>, y: Agent)
    requires UniqueKeys(rows) && y in rows
    ensures SameRows(MovedLast(rows, y), rows) && UniqueKeys(MovedLast(rows, y))
  {
    WithoutLaws(rows, y);
    var rest := Without(rows, y);
    forall i | 0 <= i < |rest| ensures !SameKey(rest[i], y) {
      assert rest[i] in rest;
      if SameKey(rest[i], y) {
        SameKeySameRow(rows, rest[i], y);
      }
    }
  }

  lemma {:induction false} FilterWithout(rows: seq<Agent>, y: Agent, keep: Agent -> bool)
    ensures Filter(Without(rows, y), keep) == Without(Filter(rows, keep), y)
  {
    if rows != [] {
      var init, last := rows[..|rows| - 1], rows[|rows| - 1];
      FilterWithout(init, y, keep);
      assert (Without(init, y) + [last])[..|Without(init, y)|] == Without(init, y);
      assert (Filter(init, keep) + [last])[..|Filter(init, keep)|] == Filter(init, keep);
    }
  }

  lemma FilterMovedLast(rows: seq<Agent>, y: Agent, keep: Agent -> bool)
    requires keep(y)
    ensures Filter(MovedLast(rows, y), keep) == MovedLast(Filter(rows, keep), y)
  {
    FilterWithout(rows, y, keep);
    assert MovedLast(rows, y)[..|Without(rows, y)|] == Without(rows, y);
  }

  lemma PoolMovedLast(agents: seq<Agent>, kind: nat, id: nat, y: Agent)
    requires UniqueKeys(agents) && y in Pool(agents, kind, id)
    ensures Pool(MovedLast(agents, y), kind, id) == MovedLast(Pool(agents, kind, id), y)
  {
    MovedLastLaws(agents, y);
    AliasAgrees(MovedLast(agents, y), agents, kind, id);
    FilterMovedLast(agents, y, Belongs(kind, id, Alias(agents, kind, id)));
    var members := Members(agents, kind, id);
    var holders := Filter(members, Holds(id));
    if holders == [] {
      WithoutLaws(members, y);
      forall x | x in MovedLast(members, y) ensures !Holds(id)(x) {
        assert x in members && x !in holders;
      }
      NoneKept(MovedLast(members, y), Holds(id));
      FilterMovedLast(members, y, Live());
    } else {
      FilterMovedLast(members, y, Holds(id));
      FilterMovedLast(holders, y, Live());
    }
  }

  lemma {:induction false} NoneKept(rows: seq<Agent>, keep: Agent -> bool)
    requires forall x | x in rows :: !keep(x)
    ensures Filter(rows, keep) == []
  {
    if rows != [] {
      NoneKept(rows[..|rows| - 1], keep);
    }
  }

  /** Moving a row that owns against the selected one to the end changes the selection. */
  lemma MovingChanges(follow: set<nat>, rows: seq<Agent>, y: Agent)
    requires OneKind(rows) && y in rows && rows != [] && y != MinBy(follow, rows) && Owns(follow, y, MinBy(follow, rows))
    ensures MinBy(follow, MovedLast(rows, y)) != MinBy(follow, rows)
  {
    WithoutLaws(rows, y);
    var rest := Without(rows, y);
    assert MinBy(follow, rows) in rest;
    assert MovedLast(rows, y)[..|rest|] == rest;
    assert MinBy(follow, rest) in rest;
  }

  /** A contested selection changes with the order of the snapshot. */
  lemma ContestedIsUnstable(follow: set<nat>, agents: seq<Agent>, kind: nat, id: nat) returns (y: Agent)
    requires UniqueKeys(agents) && Contested(follow, Pool(agents, kind, id))
    ensures y in agents
    ensures LaunchRow(follow, MovedLast(agents, y), kind, id) != LaunchRow(follow, agents, kind, id)
  {
    var pool := Pool(agents, kind, id);
    MembersOneKind(agents, kind, id);
    var w := MinBy(follow, pool);
    ContestedHasNoOwner(follow, pool, w);
    y :| y in pool && y != w && !Owns(follow, w, y);
    DistinctIds(pool, w, y);
    OwnerIsDecided(follow, w, y);
    MovingChanges(follow, pool, y);
    PoolMovedLast(agents, kind, id, y);
    RowFromPool(follow, agents, kind, id);
    RowFromPool(follow, MovedLast(agents, y), kind, id);
  }

  /** The same rows in another order. */
  ghost predicate Shuffles(agents: seq<Agent>, shuffled: seq<Agent>) {
    UniqueKeys(shuffled) && SameRows(agents, shuffled)
  }

  /** Selecting the requested launches from this snapshot agrees with selecting from all of it. */
  ghost predicate Agrees(follow: set<nat>, agents: seq<Agent>, keys: seq<(nat, nat)>, i: nat)
    requires i < |keys|
  {
    LaunchRow(follow, RowsOf(agents, keys, |keys|), keys[i].0, keys[i].1) ==
    LaunchRow(follow, agents, keys[i].0, keys[i].1)
  }

  lemma ShuffledMembers(agents: seq<Agent>, shuffled: seq<Agent>, kind: nat, id: nat)
    requires UniqueKeys(agents) && Shuffles(agents, shuffled)
    ensures SameRows(Members(agents, kind, id), Members(shuffled, kind, id))
  {
    AliasAgrees(agents, shuffled, kind, id);
  }

  /** Rows in key order are determined by what they hold. */
  lemma {:induction false} KeyOrderDetermined(a: seq<Agent>, b: seq<Agent>)
    requires InKeyOrder(a) && InKeyOrder(b) && SameRows(a, b)
    ensures a == b
  {
    EmptyAgree(a, b);
    if a != [] {
      var x, y := a[|a| - 1], b[|b| - 1];
      assert x in a && y in b;
      var i :| 0 <= i < |b| && b[i] == x;
      var j :| 0 <= j < |a| && a[j] == y;
      assert i < |b| - 1 ==> KeyBefore(x, y);
      assert j < |a| - 1 ==> KeyBefore(y, x);
      assert x == y;
      LastApart(a);
      LastApart(b);
      var left, right := a[..|a| - 1], b[..|b| - 1];
      forall r ensures r in left <==> r in right {
        assert r in a <==> r in b;
      }
      KeyOrderDetermined(left, right);
    }
  }

  lemma LastApart(rows: seq<Agent>)
    requires InKeyOrder(rows) && rows != []
    ensures forall a :: a in rows[..|rows| - 1] <==> a in rows && a != rows[|rows| - 1]
    ensures InKeyOrder(rows[..|rows| - 1])
  {
    assert rows == rows[..|rows| - 1] + [rows[|rows| - 1]];
    forall k | 0 <= k < |rows| - 1 ensures rows[k] != rows[|rows| - 1] {
      assert KeyBefore(rows[k], rows[|rows| - 1]);
    }
  }

  lemma ShuffledRows(agents: seq<Agent>, shuffled: seq<Agent>, keys: seq<(nat, nat)>)
    requires UniqueKeys(agents) && Shuffles(agents, shuffled)
    ensures RowsOf(shuffled, keys, |keys|) == RowsOf(agents, keys, |keys|)
  {
    RowsAre(agents, keys, |keys|);
    RowsAre(shuffled, keys, |keys|);
    forall k | 0 <= k < |keys|
      ensures SameRows(Members(agents, keys[k].0, keys[k].1), Members(shuffled, keys[k].0, keys[k].1))
    {
      ShuffledMembers(agents, shuffled, keys[k].0, keys[k].1);
    }
    forall a ensures a in RowsOf(shuffled, keys, |keys|) <==> a in RowsOf(agents, keys, |keys|) {
      assert Requested(agents, keys, |keys|, a) <==> Requested(shuffled, keys, |keys|, a);
    }
    KeyOrderDetermined(RowsOf(shuffled, keys, |keys|), RowsOf(agents, keys, |keys|));
  }

  /**
    Selecting among the requested rows agrees with the whole snapshot, in whatever order the
    snapshot lists its rows, if and only if ownership of the launch is not contested.
   */
  lemma AgreesIffUncontested(follow: set<nat>, agents: seq<Agent>, keys: seq<(nat, nat)>, i: nat)
    requires UniqueKeys(agents) && i < |keys|
    ensures !Contested(follow, Pool(agents, keys[i].0, keys[i].1)) <==>
            forall shuffled | Shuffles(agents, shuffled) :: Agrees(follow, shuffled, keys, i)
  {
    var (kind, id) := keys[i];
    if !Contested(follow, Pool(agents, kind, id)) {
      forall shuffled | Shuffles(agents, shuffled) ensures Agrees(follow, shuffled, keys, i) {
        ShuffledMembers(agents, shuffled, kind, id);
        PoolsAgree(agents, shuffled, kind, id);
        SubsetSelects(follow, shuffled, keys, i);
      }
    } else {
      var y := ContestedIsUnstable(follow, agents, kind, id);
      MovedLastLaws(agents, y);
      assert Shuffles(agents, agents) && Shuffles(agents, MovedLast(agents, y));
      ShuffledRows(agents, MovedLast(agents, y), keys);
      assert !Agrees(follow, agents, keys, i) || !Agrees(follow, MovedLast(agents, y), keys, i);
    }
  }

  // ----- A contested launch -----

  const ASKING := Agent(0, 1, Some(9), {}, false, false, 0, Some(0), None, true, true)
  const RUNNING := ASKING.(id := 2, registeredAt := Some(1), waiting := false)
  const SHOWN := ASKING.(id := 3, onScreenAt := Some(0), waiting := false, openTurn := false)
  const SNAPSHOT := [RUNNING, SHOWN, ASKING]

  lemma {:induction false} AllKept(rows: seq<Agent>, keep: Agent -> bool)
    requires forall x | x in rows :: keep(x)
    ensures Filter(rows, keep) == rows
  {
    if rows != [] {
      AllKept(rows[..|rows| - 1], keep);
      assert rows[|rows| - 1] in rows;
    }
  }

  /** One of the two orders the three rows are met in. */
  predicate Trio(rows: seq<Agent>) {
    rows == SNAPSHOT || rows == [ASKING, RUNNING, SHOWN]
  }

  lemma TrioMembers(rows: seq<Agent>)
    requires Trio(rows)
    ensures UniqueKeys(rows) && Members(rows, 0, 1) == rows && Pool(rows, 0, 1) == rows
  {
    assert ASKING in rows by {
      assert rows[0] == ASKING || rows[2] == ASKING;
    }
    AliasIs(rows, 0, 1);
    AllKept(rows, Belongs(0, 1, Some(9)));
    AllKept(rows, Holds(1));
    AllKept(rows, Live());
  }

  lemma TrioSelected(rows: seq<Agent>)
    requires Trio(rows)
    ensures LaunchRow({0}, rows, 0, 1) == Some(if rows == SNAPSHOT then ASKING else SHOWN)
  {
    TrioMembers(rows);
    RowFromPool({0}, rows, 0, 1);
    MinOfThree({0}, rows[0], rows[1], rows[2]);
    assert rows == [rows[0], rows[1], rows[2]];
  }

  lemma MinOfThree(follow: set<nat>, x: Agent, y: Agent, z: Agent)
    ensures MinBy(follow, [x, y, z]) ==
            var m := if Owns(follow, y, x) then y else x;
            if Owns(follow, z, m) then z else m
  {
    assert [x, y, z][..2] == [x, y] && [x, y][..1] == [x];
    assert MinBy(follow, [x, y]) == if Owns(follow, y, x) then y else x;
  }

  lemma TrioRows()
    ensures RowsOf(SNAPSHOT, [(0, 1)], 1) == [ASKING, RUNNING, SHOWN]
  {
    TrioMembers(SNAPSHOT);
    assert SNAPSHOT[..2][..1] == [RUNNING] && [RUNNING][..0] == [];
    assert Inserted([], [RUNNING]) == [RUNNING];
    assert SNAPSHOT[..2] == [RUNNING, SHOWN] && [RUNNING][1..] == [];
    assert OrInsert([RUNNING], SHOWN) == [RUNNING, SHOWN];
    assert Inserted([], SNAPSHOT[..2]) == [RUNNING, SHOWN];
    assert RowsOf(SNAPSHOT, [(0, 1)], 0) == [];
  }

  /** Selecting among the requested rows need not agree with the whole snapshot. */
  lemma ContestedLaunchDisagrees()
    ensures UniqueKeys(SNAPSHOT)
    ensures LaunchRow({0}, SNAPSHOT, 0, 1) == Some(ASKING)
    ensures LaunchRow({0}, RowsOf(SNAPSHOT, [(0, 1)], 1), 0, 1) == Some(SHOWN)
  {
    TrioMembers(SNAPSHOT);
    TrioRows();
    TrioSelected(SNAPSHOT);
    TrioSelected([ASKING, RUNNING, SHOWN]);
  }
}
