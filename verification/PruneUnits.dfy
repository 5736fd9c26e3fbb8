/** The prune of a unit directory step by step: group the entries, sort each stem's units, walk them once. */
module PruneUnits {
  import opened Prelude
  import opened Prune

  datatype Report = Report(files: nat, bytes: nat)

  /** The entries of one hash. */
  datatype Unit = Unit(hash: nat, newest: Option<int>, entries: seq<Entry>)

  // ----- Grouping -----

  function Group(dir: Dir, stem: string, hash: nat): seq<Entry> {
    if dir == [] then []
    else
      var rest, e := Group(dir[..|dir| - 1], stem, hash), dir[|dir| - 1];
      if InUnit(e, stem, hash) then rest + [e] else rest
  }

  function NewestIn(entries: seq<Entry>): Option<int> {
    if entries == [] then None else Later(NewestIn(entries[..|entries| - 1]), entries[|entries| - 1].newest)
  }

  predicate AnyExecutable(entries: seq<Entry>) {
    exists i | 0 <= i < |entries| :: entries[i].executable
  }

  lemma {:induction false} GroupNewest(dir: Dir, stem: string, hash: nat)
    ensures NewestIn(Group(dir, stem, hash)) == UnitNewest(dir, stem, hash)
  {
    if dir != [] {
      var rest, e := Group(dir[..|dir| - 1], stem, hash), dir[|dir| - 1];
      GroupNewest(dir[..|dir| - 1], stem, hash);
      assert (rest + [e])[..|rest|] == rest;
    }
  }

  lemma {:induction false} GroupMembers(dir: Dir, stem: string, hash: nat, e: Entry)
    ensures e in Group(dir, stem, hash) <==> e in dir && InUnit(e, stem, hash)
  {
    if dir != [] {
      GroupMembers(dir[..|dir| - 1], stem, hash, e);
      assert dir == dir[..|dir| - 1] + [dir[|dir| - 1]];
    }
  }

  lemma GroupLinks(dir: Dir, stem: string, hash: nat)
    ensures AnyExecutable(Group(dir, stem, hash)) == LinksExecutable(dir, stem, hash)
    ensures Group(dir, stem, hash) != [] <==> hash in Hashes(dir, stem)
  {
    var group := Group(dir, stem, hash);
    forall e ensures e in group <==> e in dir && InUnit(e, stem, hash) {
      GroupMembers(dir, stem, hash, e);
    }
    assert forall i | 0 <= i < |group| :: group[i] in group;
    if e :| e in dir && InUnit(e, stem, hash) && e.executable {
      assert e in group;
    }
  }

  lemma GroupLaws(dir: Dir, stem: string, hash: nat)
    ensures NewestIn(Group(dir, stem, hash)) == UnitNewest(dir, stem, hash)
    ensures AnyExecutable(Group(dir, stem, hash)) == LinksExecutable(dir, stem, hash)
    ensures Group(dir, stem, hash) != [] <==> hash in Hashes(dir, stem)
  {
    GroupNewest(dir, stem, hash);
    GroupLinks(dir, stem, hash);
  }

  type Stems = map<string, map<nat, seq<Entry>>>

  /** The map holds every unit of the directory and nothing else. */
  predicate Grouped(stems: Stems, dir: Dir) {
    && (forall stem | stem in stems :: forall hash | hash in stems[stem] ::
          stems[stem][hash] == Group(dir, stem, hash) && stems[stem][hash] != [])
    && (forall e | e in dir :: e.stem in stems && e.hash in stems[e.stem])
  }

  method GroupEntries(dir: Dir) returns (stems: Stems)
    ensures Grouped(stems, dir)
  {
    stems := map[];
    for i := 0 to |dir|
      invariant Grouped(stems, dir[..i])
    {
      var e := dir[i];
      var hashes := if e.stem in stems then stems[e.stem] else map[];
      var entries := if e.hash in hashes then hashes[e.hash] else [];
      GroupNext(stems, dir, i);
      stems := stems[e.stem := hashes[e.hash := entries + [e]]];
    }
    assert dir[..|dir|] == dir;
  }

  lemma GroupNext(stems: Stems, dir: Dir, i: nat)
    requires i < |dir| && Grouped(stems, dir[..i])
    ensures var e := dir[i];
            var hashes := if e.stem in stems then stems[e.stem] else map[];
            var entries := if e.hash in hashes then hashes[e.hash] else [];
            Grouped(stems[e.stem := hashes[e.hash := entries + [e]]], dir[..i + 1])
  {
    var e := dir[i];
    assert dir[..i + 1][..i] == dir[..i];
    assert forall stem, hash ::
        Group(dir[..i + 1], stem, hash) == Group(dir[..i], stem, hash) + (if InUnit(e, stem, hash) then [e] else []);
    if !(e.stem in stems && e.hash in stems[e.stem]) {
      GroupLaws(dir[..i], e.stem, e.hash);
      assert e.hash !in Hashes(dir[..i], e.stem);
    }
  }

  // ----- Order -----

  /** `a` sorts no later than `b` under a descending sort; no time sorts last. */
  predicate NoLater(a: Option<int>, b: Option<int>) {
    b.None? || (a.Some? && a.value >= b.value)
  }

  /** A stable descending insertion. */
  function Place(sorted: seq<Unit>, u: Unit): seq<Unit> {
    if sorted == [] || !NoLater(sorted[0].newest, u.newest) then [u] + sorted
    else [sorted[0]] + Place(sorted[1..], u)
  }

  function SortByNewest(units: seq<Unit>): seq<Unit> {
    if units == [] then [] else Place(SortByNewest(units[..|units| - 1]), units[|units| - 1])
  }

  predicate InOrder(u: Unit, v: Unit) {
    NoLater(u.newest, v.newest) && (u.newest == v.newest ==> u.hash < v.hash)
  }

  predicate Ordered(units: seq<Unit>) {
    forall i, j | 0 <= i < j < |units| :: InOrder(units[i], units[j])
  }

  predicate HashesAscend(units: seq<Unit>) {
    forall i, j | 0 <= i < j < |units| :: units[i].hash < units[j].hash
  }

  lemma {:induction false} PlaceHolds(sorted: seq<Unit>, u: Unit, v: Unit)
    ensures v in Place(sorted, u) <==> v == u || v in sorted
  {
    if sorted != [] && NoLater(sorted[0].newest, u.newest) {
      PlaceHolds(sorted[1..], u, v);
      assert sorted == [sorted[0]] + sorted[1..];
    }
  }

  lemma OrderedPrepend(first: Unit, rest: seq<Unit>)
    requires Ordered(rest) && forall v | v in rest :: InOrder(first, v)
    ensures Ordered([first] + rest)
  {
    assert forall i | 0 <= i < |rest| :: rest[i] in rest;
  }

  lemma {:induction false} PlaceOrders(sorted: seq<Unit>, u: Unit)
    requires Ordered(sorted) && forall v | v in sorted :: v.hash < u.hash
    ensures Ordered(Place(sorted, u))
  {
    if sorted == [] || !NoLater(sorted[0].newest, u.newest) {
      forall v | v in sorted ensures InOrder(u, v) {
        var i :| 0 <= i < |sorted| && sorted[i] == v;
      }
      OrderedPrepend(u, sorted);
    } else {
      var rest := sorted[1..];
      PlaceOrders(rest, u);
      forall v | v in Place(rest, u) ensures InOrder(sorted[0], v) {
        PlaceHolds(rest, u, v);
        if v != u {
          var i :| 0 <= i < |rest| && rest[i] == v;
          assert sorted[i + 1] == v;
        } else {
          assert sorted[0] in sorted;
        }
      }
      OrderedPrepend(sorted[0], Place(rest, u));
    }
  }

  lemma {:induction false} SortHolds(units: seq<Unit>, v: Unit)
    ensures v in SortByNewest(units) <==> v in units
  {
    if units != [] {
      SortHolds(units[..|units| - 1], v);
      PlaceHolds(SortByNewest(units[..|units| - 1]), units[|units| - 1], v);
      assert units == units[..|units| - 1] + [units[|units| - 1]];
    }
  }

  /** Sorting units listed by hash orders them newest first, ties by hash. */
  lemma {:induction false} SortOrders(units: seq<Unit>)
    requires HashesAscend(units)
    ensures Ordered(SortByNewest(units))
  {
    if units != [] {
      var init, u := units[..|units| - 1], units[|units| - 1];
      SortOrders(init);
      forall v | v in SortByNewest(init) ensures v.hash < u.hash {
        SortHolds(init, v);
      }
      PlaceOrders(SortByNewest(init), u);
    }
  }

  lemma {:induction false} LeastExists(keys: set<nat>) returns (least: nat)
    requires keys != {}
    ensures least in keys && forall k | k in keys :: least <= k
  {
    var k :| k in keys;
    var rest := keys - {k};
    assert keys == rest + {k};
    if rest == {} {
      least := k;
    } else {
      least := LeastExists(rest);
      if k < least {
        least := k;
      }
    }
  }

  /** The keys of an ordered map, as iteration visits them. */
  method KeysInOrder(keys: set<nat>) returns (list: seq<nat>)
    ensures forall k :: k in list <==> k in keys
    ensures forall i, j | 0 <= i < j < |list| :: list[i] < list[j]
  {
    list := [];
    var left := keys;
    while left != {}
      invariant forall k :: k in list <==> k in keys && k !in left
      invariant forall i, j | 0 <= i < j < |list| :: list[i] < list[j]
      invariant left <= keys && forall i, k | 0 <= i < |list| && k in left :: list[i] < k
      decreases |left|
    {
      ghost var least := LeastExists(left);
      var k :| k in left && forall other | other in left :: k <= other;
      list := list + [k];
      left := left - {k};
    }
  }

  function UnitOf(hashes: map<nat, seq<Entry>>, hash: nat): Unit
    requires hash in hashes
  {
    Unit(hash, NewestIn(hashes[hash]), hashes[hash])
  }

  /** The units are those of the map, one for each hash. */
  predicate Lists(units: seq<Unit>, hashes: map<nat, seq<Entry>>) {
    && (forall u | u in units :: u.hash in hashes && u == UnitOf(hashes, u.hash))
    && (forall hash | hash in hashes :: UnitOf(hashes, hash) in units)
  }

  method ListUnits(hashes: map<nat, seq<Entry>>) returns (units: seq<Unit>)
    ensures HashesAscend(units) && Lists(units, hashes)
  {
    var list := KeysInOrder(hashes.Keys);
    assert forall i | 0 <= i < |list| :: list[i] in list;
    units := seq(|list|, i requires 0 <= i < |list| => UnitOf(hashes, list[i]));
    forall hash | hash in hashes ensures UnitOf(hashes, hash) in units {
      var i :| 0 <= i < |list| && list[i] == hash;
      assert units[i] == UnitOf(hashes, hash);
    }
  }

  // ----- Ranks -----

  /** The units are those of a stem of the directory, in the order they are visited. */
  predicate StemUnits(units: seq<Unit>, dir: Dir, stem: string) {
    && Ordered(units)
    && (forall u | u in units ::
          && u.hash in Hashes(dir, stem) && u.entries == Group(dir, stem, u.hash)
          && u.newest == UnitNewest(dir, stem, u.hash) && AnyExecutable(u.entries) == LinksExecutable(dir, stem, u.hash))
    && (forall hash | hash in Hashes(dir, stem) :: exists u | u in units :: u.hash == hash)
  }

  /** The hashes among the first `n` units that link an executable. */
  function Executables(units: seq<Unit>, n: nat): set<nat>
    requires n <= |units|
  {
    if n == 0 then {}
    else Executables(units, n - 1) + if AnyExecutable(units[n - 1].entries) then {units[n - 1].hash} else {}
  }

  lemma {:induction false} ExecutablesHold(units: seq<Unit>, n: nat, hash: nat)
    requires n <= |units|
    ensures hash in Executables(units, n) <==> exists k | 0 <= k < n :: AnyExecutable(units[k].entries) && units[k].hash == hash
  {
    if n > 0 {
      ExecutablesHold(units, n - 1, hash);
    }
  }

  function ExecutableRank(units: seq<Unit>, n: nat): nat
    requires n <= |units|
  {
    if n == 0 then 0 else ExecutableRank(units, n - 1) + if AnyExecutable(units[n - 1].entries) then 1 else 0
  }

  lemma DistinctHashes(units: seq<Unit>, dir: Dir, stem: string, i: nat, j: nat)
    requires StemUnits(units, dir, stem) && i < j < |units|
    ensures units[i].hash != units[j].hash
  {
    assert InOrder(units[i], units[j]);
  }

  lemma FreshHash(units: seq<Unit>, dir: Dir, stem: string, n: nat)
    requires StemUnits(units, dir, stem) && n < |units|
    ensures units[n].hash !in Executables(units, n)
  {
    forall k | 0 <= k < n ensures units[k].hash != units[n].hash {
      DistinctHashes(units, dir, stem, k, n);
    }
    ExecutablesHold(units, n, units[n].hash);
  }

  predicate FreshAt(units: seq<Unit>, n: nat)
    requires n < |units|
  {
    units[n].hash !in Executables(units, n)
  }

  lemma {:induction false} CountIsSize(units: seq<Unit>, n: nat)
    requires n <= |units| && forall k | 0 <= k < n :: FreshAt(units, k)
    ensures |Executables(units, n)| == ExecutableRank(units, n)
  {
    if n > 0 {
      CountIsSize(units, n - 1);
      assert FreshAt(units, n - 1);
      SizeNext(Executables(units, n - 1), units[n - 1].hash);
    }
  }

  lemma RankIsSize(units: seq<Unit>, dir: Dir, stem: string, n: nat)
    requires StemUnits(units, dir, stem) && n <= |units|
    ensures |Executables(units, n)| == ExecutableRank(units, n)
  {
    forall k | 0 <= k < n ensures FreshAt(units, k) {
      FreshHash(units, dir, stem, k);
    }
    CountIsSize(units, n);
  }

  lemma SizeNext(a: set<nat>, x: nat)
    requires x !in a
    ensures |a + {x}| == |a| + 1 && |a + {}| == |a|
  {
    assert a + {} == a;
  }

  lemma UnitAt(units: seq<Unit>, dir: Dir, stem: string, hash: nat) returns (k: nat)
    requires StemUnits(units, dir, stem) && hash in Hashes(dir, stem)
    ensures k < |units| && units[k].hash == hash
  {
    var u :| u in units && u.hash == hash;
    k :| 0 <= k < |units| && units[k] == u;
  }

  lemma LaterIsNotBefore(units: seq<Unit>, dir: Dir, stem: string, i: nat, k: nat)
    requires StemUnits(units, dir, stem) && i <= k < |units|
    ensures !Before(dir, stem, units[k].hash, units[i].hash)
  {
    assert units[i] in units && units[k] in units;
    if i < k {
      assert InOrder(units[i], units[k]);
    }
  }

  lemma AheadIsWalked(units: seq<Unit>, dir: Dir, stem: string, i: nat, h: nat)
    requires StemUnits(units, dir, stem) && i < |units| && h in Ahead(dir, stem, units[i].hash)
    ensures h in Executables(units, i)
  {
    var k := UnitAt(units, dir, stem, h);
    assert units[k] in units;
    if i <= k {
      LaterIsNotBefore(units, dir, stem, i, k);
    }
    ExecutablesHold(units, i, h);
  }

  lemma WalkedIsAhead(units: seq<Unit>, dir: Dir, stem: string, i: nat, h: nat)
    requires StemUnits(units, dir, stem) && i < |units| && units[i].newest.Some? && h in Executables(units, i)
    ensures h in Ahead(dir, stem, units[i].hash)
  {
    ExecutablesHold(units, i, h);
    var k :| 0 <= k < i && AnyExecutable(units[k].entries) && units[k].hash == h;
    assert InOrder(units[k], units[i]) && units[k] in units && units[i] in units;
  }

  /** The counter of the walk counts the executables ahead. */
  lemma WalkedAreAhead(units: seq<Unit>, dir: Dir, stem: string, i: nat)
    requires StemUnits(units, dir, stem) && i < |units| && units[i].newest.Some?
    ensures Ahead(dir, stem, units[i].hash) == Executables(units, i)
  {
    forall h | h in Ahead(dir, stem, units[i].hash) ensures h in Executables(units, i) {
      AheadIsWalked(units, dir, stem, i, h);
    }
    forall h | h in Executables(units, i) ensures h in Ahead(dir, stem, units[i].hash) {
      WalkedIsAhead(units, dir, stem, i, h);
    }
  }

  lemma FirstIsNewest(units: seq<Unit>, dir: Dir, stem: string)
    requires StemUnits(units, dir, stem) && units != []
    ensures units[0].newest == StemNewest(dir, stem)
  {
    assert units[0] in units;
    if units[0].newest.Some? {
      UnitInStem(dir, stem, units[0].hash);
    }
    if StemNewest(dir, stem).Some? {
      var hash := StemHasNewest(dir, stem);
      UnitInStem(dir, stem, hash);
      var k := UnitAt(units, dir, stem, hash);
      if 0 < k {
        assert InOrder(units[0], units[k]);
      }
    }
  }

  // ----- Removal -----

  function Minus(dir: Dir, gone: set<Entry>): Dir {
    if dir == [] then []
    else Minus(dir[..|dir| - 1], gone) + if dir[|dir| - 1] in gone then [] else [dir[|dir| - 1]]
  }

  function Total(dir: Dir, measure: Entry -> nat): nat {
    if dir == [] then 0 else Total(dir[..|dir| - 1], measure) + measure(dir[|dir| - 1])
  }

  function FileCount(): Entry -> nat {
    (e: Entry) => e.files
  }

  function ByteCount(): Entry -> nat {
    (e: Entry) => e.bytes
  }

  predicate DistinctPaths(dir: Dir) {
    forall i, j | 0 <= i < j < |dir| :: dir[i].path != dir[j].path
  }

  lemma Push(dir: Dir, e: Entry, measure: Entry -> nat)
    ensures Total(dir + [e], measure) == Total(dir, measure) + measure(e)
    ensures dir + [] == dir
  {
    assert (dir + [e])[..|dir|] == dir;
  }

  lemma {:induction false} MinusOther(dir: Dir, gone: set<Entry>, e: Entry)
    requires e !in dir
    ensures Minus(dir, gone + {e}) == Minus(dir, gone)
  {
    if dir != [] {
      MinusOther(dir[..|dir| - 1], gone, e);
    }
  }

  /** Removing one entry takes exactly its share of a total away. */
  lemma {:induction false} MinusOne(dir: Dir, gone: set<Entry>, e: Entry, measure: Entry -> nat)
    requires DistinctPaths(dir) && e in dir && e !in gone
    ensures Total(Minus(dir, gone), measure) == Total(Minus(dir, gone + {e}), measure) + measure(e)
  {
    var init, last := dir[..|dir| - 1], dir[|dir| - 1];
    LastOnce(dir);
    Push(Minus(init, gone), last, measure);
    Push(Minus(init, gone + {e}), last, measure);
    if last == e {
      MinusOther(init, gone, e);
    } else {
      MinusOne(init, gone, e, measure);
    }
  }

  lemma LastOnce(dir: Dir)
    requires DistinctPaths(dir) && dir != []
    ensures DistinctPaths(dir[..|dir| - 1]) && dir[|dir| - 1] !in dir[..|dir| - 1]
    ensures forall e | e in dir && e != dir[|dir| - 1] :: e in dir[..|dir| - 1]
  {
    assert dir == dir[..|dir| - 1] + [dir[|dir| - 1]];
  }

  /** The directory and the report once `gone` is removed; a dry run only reports. */
  predicate Reflects(dir: Dir, gone: set<Entry>, dryRun: bool, start: Report, left: Dir, report: Report) {
    && left == (if dryRun then dir else Minus(dir, gone))
    && report.files + Total(Minus(dir, gone), FileCount()) == start.files + Total(dir, FileCount())
    && report.bytes + Total(Minus(dir, gone), ByteCount()) == start.bytes + Total(dir, ByteCount())
  }

  function Without(dir: Dir, e: Entry): Dir {
    if dir == [] then [] else Without(dir[..|dir| - 1], e) + if dir[|dir| - 1] == e then [] else [dir[|dir| - 1]]
  }

  lemma {:induction false} MinusThenWithout(dir: Dir, gone: set<Entry>, e: Entry)
    ensures Without(Minus(dir, gone), e) == Minus(dir, gone + {e})
  {
    if dir != [] {
      MinusThenWithout(dir[..|dir| - 1], gone, e);
      var rest, last := Minus(dir[..|dir| - 1], gone), dir[|dir| - 1];
      assert (rest + [last])[..|rest|] == rest && rest + [] == rest;
      assert Without(rest, e) + [] == Without(rest, e);
    }
  }

  method Remove(
    ghost dir: Dir, ghost gone: set<Entry>, ghost start: Report, e: Entry, dryRun: bool, left: Dir, report: Report
  ) returns (left': Dir, report': Report)
    requires DistinctPaths(dir) && e in dir && e !in gone && Reflects(dir, gone, dryRun, start, left, report)
    ensures Reflects(dir, gone + {e}, dryRun, start, left', report')
  {
    MinusThenWithout(dir, gone, e);
    MinusOne(dir, gone, e, FileCount());
    MinusOne(dir, gone, e, ByteCount());
    left' := if dryRun then left else Without(left, e);
    report' := Report(report.files + e.files, report.bytes + e.bytes);
  }

  lemma {:induction false} GroupDistinct(dir: Dir, stem: string, hash: nat)
    requires DistinctPaths(dir)
    ensures DistinctPaths(Group(dir, stem, hash))
  {
    if dir != [] {
      var init := dir[..|dir| - 1];
      GroupDistinct(init, stem, hash);
      var rest := Group(init, stem, hash);
      forall i | 0 <= i < |rest| ensures rest[i].path != dir[|dir| - 1].path {
        GroupMembers(init, stem, hash, rest[i]);
      }
    }
  }

  function Members(entries: seq<Entry>): set<Entry> {
    set e | e in entries
  }

  method RemoveUnit(
    ghost dir: Dir, ghost gone: set<Entry>, ghost start: Report, entries: seq<Entry>, dryRun: bool,
    left: Dir, report: Report
  ) returns (left': Dir, report': Report)
    requires DistinctPaths(dir) && DistinctPaths(entries) && Reflects(dir, gone, dryRun, start, left, report)
    requires forall e | e in entries :: e in dir && e !in gone
    ensures Reflects(dir, gone + Members(entries), dryRun, start, left', report')
  {
    left', report' := left, report;
    assert gone + Members(entries[..0]) == gone;
    for i := 0 to |entries|
      invariant Reflects(dir, gone + Members(entries[..i]), dryRun, start, left', report')
    {
      left', report' := Remove(dir, gone + Members(entries[..i]), start, entries[i], dryRun, left', report');
      assert gone + Members(entries[..i + 1]) == gone + Members(entries[..i]) + {entries[i]};
    }
    assert entries[..|entries|] == entries;
  }

  // ----- One stem -----

  /** The entries of a stem that expire. */
  function Expiring(dir: Dir, stem: string, now: int): set<Entry> {
    set e | e in dir && e.stem == stem && Expired(dir, stem, e.hash, now)
  }

  /** Those among them that belong to the first `n` units. */
  function InFirst(dir: Dir, stem: string, units: seq<Unit>, n: nat, now: int): set<Entry>
    requires n <= |units|
  {
    set e | e in Expiring(dir, stem, now) && exists k | 0 <= k < n :: units[k].hash == e.hash
  }

  /** The test the walk makes at a unit decides whether it expires. */
  lemma ExpiryTest(units: seq<Unit>, dir: Dir, stem: string, i: nat, now: int)
    requires StemUnits(units, dir, stem) && i < |units| && units[i].newest.Some?
    ensures StemNewest(dir, stem).Some?
    ensures Expired(dir, stem, units[i].hash, now) <==>
            var newest := units[i].newest.value;
            || (OlderThan(newest, StemNewest(dir, stem).value, DAY) && OlderThan(newest, now, 14 * DAY))
            || (AnyExecutable(units[i].entries) && ExecutableRank(units, i) >= 3 && OlderThan(newest, now, DAY))
  {
    assert units[i] in units;
    UnitInStem(dir, stem, units[i].hash);
    WalkedAreAhead(units, dir, stem, i);
    RankIsSize(units, dir, stem, i);
  }

  lemma FirstNext(dir: Dir, stem: string, units: seq<Unit>, i: nat, now: int)
    requires StemUnits(units, dir, stem) && i < |units|
    ensures InFirst(dir, stem, units, i + 1, now) ==
            InFirst(dir, stem, units, i, now)
            + if Expired(dir, stem, units[i].hash, now) then Members(units[i].entries) else {}
    ensures forall e | e in units[i].entries :: e in dir && e.stem == stem && e !in InFirst(dir, stem, units, i, now)
  {
    assert units[i] in units;
    forall e ensures e in units[i].entries <==> e in dir && InUnit(e, stem, units[i].hash) {
      GroupMembers(dir, stem, units[i].hash, e);
    }
    forall k | 0 <= k < i ensures units[k].hash != units[i].hash {
      DistinctHashes(units, dir, stem, k, i);
    }
  }

  lemma AllVisited(dir: Dir, stem: string, units: seq<Unit>, now: int)
    requires StemUnits(units, dir, stem)
    ensures InFirst(dir, stem, units, |units|, now) == Expiring(dir, stem, now)
  {
    forall e | e in Expiring(dir, stem, now) ensures e in InFirst(dir, stem, units, |units|, now) {
      var k := UnitAt(units, dir, stem, e.hash);
    }
  }

  lemma TimelessStem(dir: Dir, stem: string, now: int)
    requires StemNewest(dir, stem).None?
    ensures Expiring(dir, stem, now) == {}
  {
    forall e | e in Expiring(dir, stem, now) ensures false {
      UnitInStem(dir, stem, e.hash);
    }
  }

  lemma TimesRunOut(units: seq<Unit>, i: nat)
    requires Ordered(units) && i + 1 < |units| && units[i + 1].newest.Some?
    ensures units[i].newest.Some?
  {
    assert InOrder(units[i], units[i + 1]);
  }

  /** The verdict on one unit. */
  method UnitExpires(
    ghost dir: Dir, ghost stem: string, ghost i: nat, ghost units: seq<Unit>,
    unit: Unit, stemNewest: int, rank: nat, now: int
  ) returns (expired: bool, rank': nat)
    requires StemUnits(units, dir, stem) && i < |units| && units[i] == unit
    requires StemNewest(dir, stem) == Some(stemNewest) && (unit.newest.Some? ==> rank == ExecutableRank(units, i))
    ensures expired == Expired(dir, stem, unit.hash, now)
    ensures unit.newest.Some? ==> rank' == ExecutableRank(units, i + 1)
  {
    assert unit in units;
    if unit.newest.None? {
      return false, rank;
    }
    ExpiryTest(units, dir, stem, i, now);
    var newest := unit.newest.value;
    expired, rank' := OlderThan(newest, stemNewest, DAY) && OlderThan(newest, now, 14 * DAY), rank;
    if AnyExecutable(unit.entries) {
      expired := expired || (rank >= 3 && OlderThan(newest, now, DAY));
      rank' := rank + 1;
    }
  }

  lemma RemovableUnit(dir: Dir, stem: string, units: seq<Unit>, i: nat, now: int, gone: set<Entry>)
    requires DistinctPaths(dir) && StemUnits(units, dir, stem) && i < |units| && forall e | e in gone :: e.stem != stem
    ensures DistinctPaths(units[i].entries)
    ensures forall e | e in units[i].entries :: e in dir && e !in GoneBy(gone, dir, stem, units, i, now)
    ensures if Expired(dir, stem, units[i].hash, now)
            then GoneBy(gone, dir, stem, units, i + 1, now) ==
                 GoneBy(gone, dir, stem, units, i, now) + Members(units[i].entries)
            else GoneBy(gone, dir, stem, units, i + 1, now) == GoneBy(gone, dir, stem, units, i, now)
  {
    assert units[i] in units;
    GroupDistinct(dir, stem, units[i].hash);
    FirstNext(dir, stem, units, i, now);
  }

  /** What is gone once the first `n` units of a stem are visited. */
  function GoneBy(gone: set<Entry>, dir: Dir, stem: string, units: seq<Unit>, n: nat, now: int): set<Entry>
    requires n <= |units|
  {
    gone + InFirst(dir, stem, units, n, now)
  }

  lemma GoneAtEnds(gone: set<Entry>, dir: Dir, stem: string, units: seq<Unit>, now: int)
    requires StemUnits(units, dir, stem)
    ensures GoneBy(gone, dir, stem, units, 0, now) == gone
    ensures GoneBy(gone, dir, stem, units, |units|, now) == gone + Expiring(dir, stem, now)
    ensures StemNewest(dir, stem).None? ==> gone + Expiring(dir, stem, now) == gone
  {
    AllVisited(dir, stem, units, now);
    if StemNewest(dir, stem).None? {
      TimelessStem(dir, stem, now);
    }
  }

  /** The walk over one stem's units removes exactly those that expire. */
  method PruneStem(
    ghost dir: Dir, ghost gone: set<Entry>, ghost start: Report, ghost stem: string,
    units: seq<Unit>, dryRun: bool, now: int, left: Dir, report: Report
  ) returns (left': Dir, report': Report)
    requires DistinctPaths(dir) && StemUnits(units, dir, stem)
    requires Reflects(dir, gone, dryRun, start, left, report) && forall e | e in gone :: e.stem != stem
    ensures Reflects(dir, gone + Expiring(dir, stem, now), dryRun, start, left', report')
  {
    left', report' := left, report;
    GoneAtEnds(gone, dir, stem, units, now);
    if units == [] {
      return;
    }
    FirstIsNewest(units, dir, stem);
    if units[0].newest.None? {
      return;
    }
    var rank := 0;
    for i := 0 to |units|
      invariant i < |units| && units[i].newest.Some? ==> rank == ExecutableRank(units, i)
      invariant Reflects(dir, GoneBy(gone, dir, stem, units, i, now), dryRun, start, left', report')
    {
      RemovableUnit(dir, stem, units, i, now, gone);
      if i + 1 < |units| && units[i + 1].newest.Some? {
        TimesRunOut(units, i);
      }
      var expired;
      expired, rank := UnitExpires(dir, stem, i, units, units[i], units[0].newest.value, rank, now);
      if expired {
        left', report' := RemoveUnit(dir, GoneBy(gone, dir, stem, units, i, now), start, units[i].entries, dryRun, left', report');
      }
    }
  }

  // ----- The directory -----

  lemma StemListed(stems: Stems, dir: Dir, stem: string, units: seq<Unit>)
    requires Grouped(stems, dir) && stem in stems && HashesAscend(units) && Lists(units, stems[stem])
    ensures StemUnits(SortByNewest(units), dir, stem)
  {
    SortOrders(units);
    var sorted := SortByNewest(units);
    forall u ensures u in sorted <==> u in units {
      SortHolds(units, u);
    }
    forall u | u in sorted
      ensures u.hash in Hashes(dir, stem) && u.entries == Group(dir, stem, u.hash)
      ensures u.newest == UnitNewest(dir, stem, u.hash) && AnyExecutable(u.entries) == LinksExecutable(dir, stem, u.hash)
    {
      GroupLaws(dir, stem, u.hash);
    }
    forall hash | hash in Hashes(dir, stem) ensures exists u | u in sorted :: u.hash == hash {
      assert UnitOf(stems[stem], hash) in sorted;
    }
  }

  /** The expiring entries of the stems in a set. */
  function ExpiringIn(dir: Dir, stems: set<string>, now: int): set<Entry> {
    set e | e in dir && e.stem in stems && Expired(dir, e.stem, e.hash, now)
  }

  lemma {:induction false} MinusExpired(dir: Dir, whole: Dir, gone: set<Entry>, now: int)
    requires forall e | e in dir :: e in gone <==> Expired(whole, e.stem, e.hash, now)
    ensures Minus(dir, gone) == Survivors(dir, whole, now)
  {
    if dir != [] {
      MinusExpired(dir[..|dir| - 1], whole, gone, now);
      assert dir[|dir| - 1] in dir;
      assert Minus(dir[..|dir| - 1], gone) + [] == Minus(dir[..|dir| - 1], gone);
    }
  }

  lemma {:induction false} MinusNothing(dir: Dir)
    ensures Minus(dir, {}) == dir
  {
    if dir != [] {
      MinusNothing(dir[..|dir| - 1]);
    }
  }

  lemma OneStemMore(dir: Dir, all: set<string>, waiting: set<string>, stem: string, now: int)
    requires stem in waiting && waiting <= all
    ensures ExpiringIn(dir, all - (waiting - {stem}), now) == ExpiringIn(dir, all - waiting, now) + Expiring(dir, stem, now)
    ensures forall e | e in ExpiringIn(dir, all - waiting, now) :: e.stem != stem
  {
  }

  lemma AllStemsDone(dir: Dir, stems: Stems, now: int)
    requires Grouped(stems, dir)
    ensures Minus(dir, ExpiringIn(dir, stems.Keys - {}, now)) == Pruned(dir, now)
  {
    MinusExpired(dir, dir, ExpiringIn(dir, stems.Keys - {}, now), now);
  }

  /**
    A prune leaves exactly the survivors, and its report grows by what they lack; a dry run leaves
    everything and reports the same.
   */
  method PruneDirectory(dir: Dir, dryRun: bool, now: int, report: Report) returns (left: Dir, report': Report)
    requires DistinctPaths(dir)
    ensures left == if dryRun then dir else Pruned(dir, now)
    ensures report'.files + Total(Pruned(dir, now), FileCount()) == report.files + Total(dir, FileCount())
    ensures report'.bytes + Total(Pruned(dir, now), ByteCount()) == report.bytes + Total(dir, ByteCount())
  {
    var stems := GroupEntries(dir);
    left, report' := dir, report;
    MinusNothing(dir);
    var waiting := stems.Keys;
    assert ExpiringIn(dir, stems.Keys - waiting, now) == {};
    while waiting != {}
      invariant waiting <= stems.Keys
      invariant Reflects(dir, ExpiringIn(dir, stems.Keys - waiting, now), dryRun, report, left, report')
      decreases |waiting|
    {
      var stem :| stem in waiting;
      var units := ListUnits(stems[stem]);
      StemListed(stems, dir, stem, units);
      OneStemMore(dir, stems.Keys, waiting, stem, now);
      left, report' := PruneStem(dir, ExpiringIn(dir, stems.Keys - waiting, now), report, stem,
                                 SortByNewest(units), dryRun, now, left, report');
      waiting := waiting - {stem};
    }
    AllStemsDone(dir, stems, now);
  }
}
