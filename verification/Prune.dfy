/**
  Which build artifacts a prune removes from a unit directory. An entry belongs to a stem and a
  hash; the entries of one hash form a unit and go together. Hashes are the numbers their sixteen
  hexadecimal digits spell, times are milliseconds.
 */
module Prune {
  import opened Prelude

  const DAY: int := 86_400_000

  datatype Entry = Entry(
    path: nat, stem: string, hash: nat, newest: Option<int>, executable: bool, files: nat, bytes: nat)

  type Dir = seq<Entry>

  /** `older_than`: false when `modified` lies after `now`. */
  predicate OlderThan(modified: int, now: int, age: int) {
    now >= modified && now - modified >= age
  }

  // ----- Units -----

  function Later(a: Option<int>, b: Option<int>): Option<int> {
    if a.None? then b else if b.None? || a.value >= b.value then a else b
  }

  predicate InUnit(e: Entry, stem: string, hash: nat) {
    e.stem == stem && e.hash == hash
  }

  /** The newest time in a unit. */
  function UnitNewest(dir: Dir, stem: string, hash: nat): Option<int> {
    if dir == [] then None
    else
      var rest, e := UnitNewest(dir[..|dir| - 1], stem, hash), dir[|dir| - 1];
      if InUnit(e, stem, hash) then Later(rest, e.newest) else rest
  }

  predicate LinksExecutable(dir: Dir, stem: string, hash: nat) {
    exists e | e in dir :: InUnit(e, stem, hash) && e.executable
  }

  /** The newest time under a stem. */
  function StemNewest(dir: Dir, stem: string): Option<int> {
    if dir == [] then None
    else
      var rest, e := StemNewest(dir[..|dir| - 1], stem), dir[|dir| - 1];
      if e.stem == stem then Later(rest, e.newest) else rest
  }

  function Hashes(dir: Dir, stem: string): set<nat> {
    set e | e in dir && e.stem == stem :: e.hash
  }

  /** The order units of a stem are visited in: newest first, ties by hash. */
  predicate Before(dir: Dir, stem: string, a: nat, b: nat) {
    var x, y := UnitNewest(dir, stem, a), UnitNewest(dir, stem, b);
    x.Some? && (y.None? || x.value > y.value || (x.value == y.value && a < b))
  }

  /** The hashes that link an executable and are visited before this one. */
  function Ahead(dir: Dir, stem: string, hash: nat): set<nat> {
    set h | h in Hashes(dir, stem) && LinksExecutable(dir, stem, h) && Before(dir, stem, h, hash)
  }

  predicate Superseded(dir: Dir, stem: string, newest: int) {
    StemNewest(dir, stem).Some? && OlderThan(newest, StemNewest(dir, stem).value, DAY)
  }

  /** A unit is removed: superseded for two weeks, or an executable past the third and older than a day. */
  predicate Expired(dir: Dir, stem: string, hash: nat, now: int) {
    var newest := UnitNewest(dir, stem, hash);
    && newest.Some?
    && (|| (Superseded(dir, stem, newest.value) && OlderThan(newest.value, now, 14 * DAY))
        || (&& LinksExecutable(dir, stem, hash) && |Ahead(dir, stem, hash)| >= 3
            && OlderThan(newest.value, now, DAY)))
  }

  /** What a prune leaves. */
  function Survivors(dir: Dir, whole: Dir, now: int): Dir {
    if dir == [] then []
    else
      var rest, e := Survivors(dir[..|dir| - 1], whole, now), dir[|dir| - 1];
      if Expired(whole, e.stem, e.hash, now) then rest else rest + [e]
  }

  function Pruned(dir: Dir, now: int): Dir {
    Survivors(dir, dir, now)
  }

  // ----- What survives -----

  lemma {:induction false} SurvivorIff(dir: Dir, whole: Dir, now: int, e: Entry)
    ensures e in Survivors(dir, whole, now) <==> e in dir && !Expired(whole, e.stem, e.hash, now)
  {
    if dir != [] {
      SurvivorIff(dir[..|dir| - 1], whole, now, e);
      assert dir == dir[..|dir| - 1] + [dir[|dir| - 1]];
    }
  }

  /** Hashes go whole or not at all. */
  lemma HashesGoWhole(dir: Dir, now: int, a: Entry, b: Entry)
    requires a in dir && b in dir && InUnit(a, b.stem, b.hash)
    ensures a in Pruned(dir, now) <==> b in Pruned(dir, now)
  {
    SurvivorIff(dir, dir, now, a);
    SurvivorIff(dir, dir, now, b);
  }

  lemma {:induction false} UnitTimeBound(dir: Dir, e: Entry)
    requires e in dir && e.newest.Some?
    ensures UnitNewest(dir, e.stem, e.hash).Some? && e.newest.value <= UnitNewest(dir, e.stem, e.hash).value
  {
    if e != dir[|dir| - 1] {
      UnitTimeBound(dir[..|dir| - 1], e);
    }
  }

  /** Nothing younger than a day is removed. */
  lemma YoungStay(dir: Dir, now: int, e: Entry)
    requires e in dir && e.newest.Some? && !OlderThan(e.newest.value, now, DAY)
    ensures e in Pruned(dir, now)
  {
    UnitTimeBound(dir, e);
    SurvivorIff(dir, dir, now, e);
  }

  lemma {:induction false} UnitInStem(dir: Dir, stem: string, hash: nat)
    requires UnitNewest(dir, stem, hash).Some?
    ensures StemNewest(dir, stem).Some? && UnitNewest(dir, stem, hash).value <= StemNewest(dir, stem).value
    ensures exists e | e in dir :: InUnit(e, stem, hash) && e.newest == UnitNewest(dir, stem, hash)
  {
    var init, last := dir[..|dir| - 1], dir[|dir| - 1];
    if UnitNewest(init, stem, hash).Some? {
      UnitInStem(init, stem, hash);
      var e :| e in init && InUnit(e, stem, hash) && e.newest == UnitNewest(init, stem, hash);
      assert e in dir;
    }
    assert last in dir;
  }

  lemma {:induction false} StemHasNewest(dir: Dir, stem: string) returns (hash: nat)
    requires StemNewest(dir, stem).Some?
    ensures UnitNewest(dir, stem, hash) == StemNewest(dir, stem)
  {
    var init, last := dir[..|dir| - 1], dir[|dir| - 1];
    if last.stem == stem && StemNewest(dir, stem) == last.newest {
      hash := last.hash;
      if UnitNewest(init, stem, hash).Some? {
        UnitInStem(init, stem, hash);
      }
    } else {
      hash := StemHasNewest(init, stem);
    }
  }

  lemma NewestTied(dir: Dir, stem: string, hash: nat, h: nat)
    requires UnitNewest(dir, stem, hash) == StemNewest(dir, stem) && h in Ahead(dir, stem, hash)
    ensures UnitNewest(dir, stem, h) == StemNewest(dir, stem) && h < hash
  {
    UnitInStem(dir, stem, h);
  }

  /** Among the hashes carrying the newest time some has nothing ahead of it. */
  lemma {:induction false} FirstUnit(dir: Dir, stem: string, hash: nat) returns (first: nat)
    requires UnitNewest(dir, stem, hash).Some? && UnitNewest(dir, stem, hash) == StemNewest(dir, stem)
    ensures UnitNewest(dir, stem, first) == StemNewest(dir, stem) && Ahead(dir, stem, first) == {}
    decreases hash
  {
    first := hash;
    if Ahead(dir, stem, hash) != {} {
      var h :| h in Ahead(dir, stem, hash);
      NewestTied(dir, stem, hash, h);
      first := FirstUnit(dir, stem, h);
    }
  }

  /** Each stem keeps a hash carrying its newest time. */
  lemma NewestStays(dir: Dir, stem: string, now: int) returns (hash: nat)
    requires StemNewest(dir, stem).Some?
    ensures UnitNewest(dir, stem, hash) == StemNewest(dir, stem) && !Expired(dir, stem, hash, now)
  {
    hash := StemHasNewest(dir, stem);
    hash := FirstUnit(dir, stem, hash);
  }

  // ----- A second prune -----

  lemma {:induction false} SurvivingUnit(dir: Dir, whole: Dir, now: int, stem: string, hash: nat)
    ensures UnitNewest(Survivors(dir, whole, now), stem, hash) ==
            if Expired(whole, stem, hash, now) then None else UnitNewest(dir, stem, hash)
  {
    if dir != [] {
      SurvivingUnit(dir[..|dir| - 1], whole, now, stem, hash);
      var rest, e := Survivors(dir[..|dir| - 1], whole, now), dir[|dir| - 1];
      if !Expired(whole, e.stem, e.hash, now) {
        assert (rest + [e])[..|rest|] == rest;
      }
    }
  }

  lemma SurvivingLinks(dir: Dir, now: int, stem: string, hash: nat)
    requires !Expired(dir, stem, hash, now)
    ensures LinksExecutable(Pruned(dir, now), stem, hash) == LinksExecutable(dir, stem, hash)
    ensures hash in Hashes(Pruned(dir, now), stem) <==> hash in Hashes(dir, stem)
  {
    forall e ensures e in Pruned(dir, now) <==> e in dir && !Expired(dir, e.stem, e.hash, now) {
      SurvivorIff(dir, dir, now, e);
    }
    if hash in Hashes(dir, stem) {
      var e :| e in dir && e.stem == stem && e.hash == hash;
      assert e in Pruned(dir, now);
    }
  }

  lemma {:induction false} StemTimeBound(dir: Dir, whole: Dir, now: int, stem: string)
    requires StemNewest(Survivors(dir, whole, now), stem).Some?
    ensures StemNewest(dir, stem).Some?
    ensures StemNewest(Survivors(dir, whole, now), stem).value <= StemNewest(dir, stem).value
  {
    var init, e := dir[..|dir| - 1], dir[|dir| - 1];
    var rest := Survivors(init, whole, now);
    if !Expired(whole, e.stem, e.hash, now) {
      assert (rest + [e])[..|rest|] == rest;
    }
    if StemNewest(rest, stem).Some? {
      StemTimeBound(init, whole, now, stem);
    }
  }

  lemma StemKeepsNewest(dir: Dir, now: int, stem: string)
    ensures StemNewest(Pruned(dir, now), stem) == StemNewest(dir, stem)
  {
    var left := Pruned(dir, now);
    if StemNewest(dir, stem).Some? {
      var hash := NewestStays(dir, stem, now);
      SurvivingUnit(dir, dir, now, stem, hash);
      UnitInStem(left, stem, hash);
    }
    if StemNewest(left, stem).Some? {
      StemTimeBound(dir, dir, now, stem);
    }
  }

  lemma SubsetSize(a: set<nat>, b: set<nat>)
    requires a <= b
    ensures |a| <= |b|
  {
    assert b == a + (b - a);
  }

  /** If a unit expires, so does every unit with an executable visited after it. */
  lemma ExpiryIsDownward(dir: Dir, stem: string, now: int, h: nat, hash: nat)
    requires Before(dir, stem, h, hash) && Expired(dir, stem, h, now)
    requires UnitNewest(dir, stem, hash).Some? && LinksExecutable(dir, stem, hash)
    ensures Expired(dir, stem, hash, now)
  {
    assert Ahead(dir, stem, h) <= Ahead(dir, stem, hash);
    SubsetSize(Ahead(dir, stem, h), Ahead(dir, stem, hash));
  }

  /** Surviving executables keep their rank. */
  lemma RankKept(dir: Dir, stem: string, now: int, hash: nat)
    requires !Expired(dir, stem, hash, now) && UnitNewest(dir, stem, hash).Some? && LinksExecutable(dir, stem, hash)
    ensures Ahead(Pruned(dir, now), stem, hash) == Ahead(dir, stem, hash)
  {
    var left := Pruned(dir, now);
    forall h ensures h in Ahead(left, stem, hash) <==> h in Ahead(dir, stem, hash) {
      SurvivingUnit(dir, dir, now, stem, h);
      SurvivingUnit(dir, dir, now, stem, hash);
      if Expired(dir, stem, h, now) {
        if Before(dir, stem, h, hash) {
          ExpiryIsDownward(dir, stem, now, h, hash);
        }
      } else {
        SurvivingLinks(dir, now, stem, h);
      }
    }
  }

  lemma SurvivorIsSafe(dir: Dir, now: int, stem: string, hash: nat)
    requires !Expired(dir, stem, hash, now)
    ensures !Expired(Pruned(dir, now), stem, hash, now)
  {
    SurvivingUnit(dir, dir, now, stem, hash);
    SurvivingLinks(dir, now, stem, hash);
    StemKeepsNewest(dir, now, stem);
    if UnitNewest(dir, stem, hash).Some? && LinksExecutable(dir, stem, hash) {
      RankKept(dir, stem, now, hash);
    }
  }

  lemma {:induction false} NothingExpires(dir: Dir, whole: Dir, now: int)
    requires forall e | e in dir :: !Expired(whole, e.stem, e.hash, now)
    ensures Survivors(dir, whole, now) == dir
  {
    if dir != [] {
      NothingExpires(dir[..|dir| - 1], whole, now);
      assert dir[|dir| - 1] in dir;
    }
  }

  /** A second prune at the same time removes nothing. */
  lemma PruneIsIdempotent(dir: Dir, now: int)
    ensures Pruned(Pruned(dir, now), now) == Pruned(dir, now)
  {
    var left := Pruned(dir, now);
    forall e | e in left ensures !Expired(left, e.stem, e.hash, now) {
      SurvivorIff(dir, dir, now, e);
      SurvivorIsSafe(dir, now, e.stem, e.hash);
    }
    NothingExpires(left, left, now);
  }
}
