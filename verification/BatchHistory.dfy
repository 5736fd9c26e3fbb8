/** Over any history of pull requests, selections and interrupted batches no source is claimed twice. */
module BatchHistory {
  import opened Prelude
  import opened BatchNames
  import opened BatchSelect
  import opened BatchLaws

  // ----- The numbers of a new batch -----

  predicate Ascending(numbers: seq<nat>) {
    forall i, j | 0 <= i < j < |numbers| :: numbers[i] <= numbers[j]
  }

  lemma {:induction false} InsertMembers(sorted: seq<nat>, n: nat)
    ensures multiset(Insert(sorted, n)) == multiset(sorted) + multiset{n}
  {
    if sorted != [] && n > sorted[0] {
      InsertMembers(sorted[1..], n);
      assert sorted == [sorted[0]] + sorted[1..];
    }
  }

  lemma InsertHolds(sorted: seq<nat>, n: nat, k: nat)
    ensures k in Insert(sorted, n) <==> k == n || k in sorted
  {
    InsertMembers(sorted, n);
    assert k in Insert(sorted, n) <==> k in multiset(Insert(sorted, n));
  }

  /** A number put before an ascending list keeps it ascending when it is no larger than any of its members. */
  lemma Prepend(first: nat, rest: seq<nat>)
    requires Ascending(rest) && forall k | k in rest :: first <= k
    ensures Ascending([first] + rest)
    ensures Increasing(rest) && first !in rest ==> Increasing([first] + rest)
  {
    assert forall i | 0 <= i < |rest| :: rest[i] in rest;
  }

  lemma {:induction false} InsertLaws(sorted: seq<nat>, n: nat)
    requires Ascending(sorted)
    ensures Ascending(Insert(sorted, n))
    ensures n !in sorted && Increasing(sorted) ==> Increasing(Insert(sorted, n))
  {
    if sorted == [] || n <= sorted[0] {
      Prepend(n, sorted);
    } else {
      var rest := Insert(sorted[1..], n);
      InsertLaws(sorted[1..], n);
      forall k | k in rest ensures sorted[0] <= k {
        InsertHolds(sorted[1..], n, k);
      }
      InsertHolds(sorted[1..], n, sorted[0]);
      Prepend(sorted[0], rest);
    }
  }

  predicate UniqueNumbers(prs: seq<Pr>) {
    && (forall i | 0 <= i < |prs| :: prs[i].number > 0)
    && (forall i, j | 0 <= i < j < |prs| :: prs[i].number != prs[j].number)
  }

  predicate WantedAt(repo: Repo, ledger: Ledger, checks: map<nat, Check>, prs: seq<Pr>, i: nat, k: nat)
    requires i < |prs|
  {
    Wanted(repo, ledger, checks, prs[i]) && prs[i].number == k
  }

  /** A new batch lists exactly the open, failing, uncovered pull requests of Dependabot. */
  lemma {:induction false} WantedMembers(repo: Repo, ledger: Ledger, checks: map<nat, Check>, prs: seq<Pr>, n: nat, k: nat)
    requires n <= |prs|
    ensures k in WantedNumbers(repo, ledger, checks, prs, n) <==>
            exists i | 0 <= i < n :: WantedAt(repo, ledger, checks, prs, i, k)
  {
    if n > 0 {
      WantedMembers(repo, ledger, checks, prs, n - 1, k);
      InsertHolds(WantedNumbers(repo, ledger, checks, prs, n - 1), prs[n - 1].number, k);
      assert WantedAt(repo, ledger, checks, prs, n - 1, k) <==>
             Wanted(repo, ledger, checks, prs[n - 1]) && prs[n - 1].number == k;
    }
  }

  lemma {:induction false} WantedAscend(repo: Repo, ledger: Ledger, checks: map<nat, Check>, prs: seq<Pr>, n: nat)
    requires n <= |prs|
    ensures Ascending(WantedNumbers(repo, ledger, checks, prs, n))
    ensures UniqueNumbers(prs) ==> Increasing(WantedNumbers(repo, ledger, checks, prs, n))
  {
    if n > 0 {
      WantedAscend(repo, ledger, checks, prs, n - 1);
      InsertLaws(WantedNumbers(repo, ledger, checks, prs, n - 1), prs[n - 1].number);
      WantedMembers(repo, ledger, checks, prs, n - 1, prs[n - 1].number);
    }
  }

  // ----- Histories -----

  datatype World = World(prs: seq<Pr>, branches: seq<string>)

  datatype Event =
    | Listed(pr: Pr)
    | Updated(i: nat, pr: Pr)
    | Planned(checks: map<nat, Check>, now: int, quiet: int)
    | Replaced(j: nat, pr: Pr)
    | Dropped(j: nat)

  predicate NewNumber(prs: seq<Pr>, number: nat) {
    number > 0 && forall i | 0 <= i < |prs| :: prs[i].number != number
  }

  /** What may happen: pull requests come and change, but only a planned branch gets a replacement. */
  predicate Possible(w: World, e: Event) {
    match e
    case Listed(pr) => NewNumber(w.prs, pr.number) && !ClaimOf(pr).Claims?
    case Updated(i, pr) =>
      i < |w.prs| && pr.number == w.prs[i].number && pr.headRef == w.prs[i].headRef && ClaimOf(pr) == ClaimOf(w.prs[i])
    case Planned(_, _, _) => true
    case Replaced(j, pr) =>
      && j < |w.branches| && Orphan(w.prs, w.branches[j]) && NewNumber(w.prs, pr.number)
      && pr.headRef == w.branches[j] && ClaimOf(pr).Claims?
    case Dropped(j) => j < |w.branches|
  }

  /** The branch a selection pushes for a new batch. */
  function NewBranch(repo: Repo, w: World, checks: map<nat, Check>, now: int, quiet: int): Option<string> {
    var plan :- Select(repo, w.prs, w.branches, checks, now, quiet);
    if plan.branch.Some? && plan.branch.value !in w.branches && plan.existing.None? then plan.branch else None
  }

  function Next(repo: Repo, w: World, e: Event): World
    requires Possible(w, e)
  {
    match e
    case Listed(pr) => w.(prs := w.prs + [pr])
    case Updated(i, pr) => w.(prs := w.prs[i := pr])
    case Planned(checks, now, quiet) =>
      var branch := NewBranch(repo, w, checks, now, quiet);
      if branch.Some? then w.(branches := w.branches + [branch.value]) else w
    case Replaced(j, pr) => w.(prs := w.prs + [pr])
    case Dropped(j) => w.(branches := w.branches[..j] + w.branches[j + 1..])
  }

  predicate DisjointClaims(prs: seq<Pr>) {
    forall i, j | 0 <= i < j < |prs| && Claiming(prs, i) && Claiming(prs, j) ::
      Disjoint(NumbersOf(prs, i), NumbersOf(prs, j))
  }

  predicate Free(prs: seq<Pr>, numbers: seq<nat>) {
    forall i | 0 <= i < |prs| && Claiming(prs, i) :: Disjoint(NumbersOf(prs, i), numbers)
  }

  /** An interrupted batch shares no source with a claimed one, and there is at most one. */
  predicate LoneOrphan(w: World) {
    && (forall j | 0 <= j < |w.branches| && Orphan(w.prs, w.branches[j]) ::
          BranchSources(w.branches[j]).Some? && Free(w.prs, BranchSources(w.branches[j]).value))
    && (forall j, k | 0 <= j < k < |w.branches| ::
          Orphan(w.prs, w.branches[j]) ==> !Orphan(w.prs, w.branches[k]))
  }

  predicate Sound(w: World) {
    UniqueNumbers(w.prs) && DisjointClaims(w.prs) && LoneOrphan(w)
  }

  lemma SameClaims(before: seq<Pr>, after: seq<Pr>, branch: string)
    requires |before| <= |after|
    requires forall i | 0 <= i < |before| :: ClaimOf(after[i]) == ClaimOf(before[i]) && after[i].headRef == before[i].headRef
    requires forall i | |before| <= i < |after| :: !Claiming(after, i)
    ensures Orphan(after, branch) == Orphan(before, branch)
    ensures DisjointClaims(after) == DisjointClaims(before)
    ensures BranchSources(branch).Some? ==>
              Free(after, BranchSources(branch).value) == Free(before, BranchSources(branch).value)
  {
    assert forall i | 0 <= i < |before| :: Claiming(after, i) == Claiming(before, i);
    assert forall i | 0 <= i < |before| && Claiming(before, i) :: NumbersOf(after, i) == NumbersOf(before, i);
  }

  lemma QuietKeepsSound(repo: Repo, w: World, e: Event)
    requires Sound(w) && Possible(w, e) && (e.Listed? || e.Updated?)
    ensures Sound(Next(repo, w, e))
  {
    var after := Next(repo, w, e).prs;
    SameClaims(w.prs, after, "");
    forall j | 0 <= j < |w.branches| ensures Orphan(after, w.branches[j]) == Orphan(w.prs, w.branches[j])
      ensures BranchSources(w.branches[j]).Some? ==>
                Free(after, BranchSources(w.branches[j]).value) == Free(w.prs, BranchSources(w.branches[j]).value)
    {
      SameClaims(w.prs, after, w.branches[j]);
    }
  }

  /** The sources of a new batch are free. */
  lemma NewBatchIsFree(repo: Repo, w: World, checks: map<nat, Check>, now: int, quiet: int)
    requires Sound(w) && NewBranch(repo, w, checks, now, quiet).Some?
    ensures var branch := NewBranch(repo, w, checks, now, quiet).value;
            BranchSources(branch).Some? && Free(w.prs, BranchSources(branch).value)
    ensures forall j | 0 <= j < |w.branches| :: !Orphan(w.prs, w.branches[j])
  {
    var plan := Select(repo, w.prs, w.branches, checks, now, quiet).value;
    NewPlanIsUncovered(repo, w.prs, w.branches, checks, now, quiet);
    var ledger := Covered(repo, w.prs, |w.prs|).value;
    WantedAscend(repo, ledger, checks, w.prs, |w.prs|);
    forall k | k in plan.sources ensures k > 0 && k !in ledger.covered {
      WantedMembers(repo, ledger, checks, w.prs, |w.prs|, k);
    }
    assert forall i | 0 <= i < |plan.sources| :: plan.sources[i] in plan.sources;
    SourcesOfName(plan.sources);
    forall i | 0 <= i < |w.prs| && Claiming(w.prs, i) ensures Disjoint(NumbersOf(w.prs, i), plan.sources) {
      ClaimStands(repo, w.prs, |w.prs|, i);
    }
  }

  lemma PlanKeepsSound(repo: Repo, w: World, e: Event)
    requires Sound(w) && Possible(w, e) && e.Planned?
    ensures Sound(Next(repo, w, e))
  {
    if NewBranch(repo, w, e.checks, e.now, e.quiet).Some? {
      NewBatchIsFree(repo, w, e.checks, e.now, e.quiet);
    }
  }

  lemma ReplacementKeepsSound(repo: Repo, w: World, e: Event)
    requires Sound(w) && Possible(w, e) && e.Replaced?
    ensures Sound(Next(repo, w, e))
  {
    var after := Next(repo, w, e).prs;
    var last := |w.prs|;
    assert forall i | 0 <= i < last :: after[i] == w.prs[i];
    assert forall i | 0 <= i < last :: Claiming(after, i) == Claiming(w.prs, i);
    assert NumbersOf(after, last) == BranchSources(w.branches[e.j]).value;
    assert DisjointClaims(after) by {
      forall i | 0 <= i < last && Claiming(w.prs, i) ensures Disjoint(NumbersOf(after, i), NumbersOf(after, last)) {
        assert Disjoint(NumbersOf(w.prs, i), BranchSources(w.branches[e.j]).value);
      }
    }
    forall k | 0 <= k < |w.branches| ensures !Orphan(after, w.branches[k]) {
      if Orphan(after, w.branches[k]) {
        assert Claiming(after, last);
        assert Orphan(w.prs, w.branches[k]);
      }
    }
  }

  lemma DropKeepsSound(repo: Repo, w: World, e: Event)
    requires Sound(w) && Possible(w, e) && e.Dropped?
    ensures Sound(Next(repo, w, e))
  {
    var after := Next(repo, w, e).branches;
    assert forall k | 0 <= k < |after| :: after[k] == w.branches[if k < e.j then k else k + 1];
  }

  datatype History = History(repo: Repo, events: seq<Event>)

  /** The repository after the first `n` events; an impossible event changes nothing. */
  function After(h: History, n: nat): World
    requires n <= |h.events|
  {
    if n == 0 then World([], [])
    else
      var before := After(h, n - 1);
      if Possible(before, h.events[n - 1]) then Next(h.repo, before, h.events[n - 1]) else before
  }

  lemma {:induction false} HistoryIsSound(h: History, n: nat)
    requires n <= |h.events|
    ensures Sound(After(h, n))
  {
    if n > 0 {
      HistoryIsSound(h, n - 1);
      var w, e := After(h, n - 1), h.events[n - 1];
      if Possible(w, e) {
        match e {
          case Planned(_, _, _) => PlanKeepsSound(h.repo, w, e);
          case Replaced(_, _) => ReplacementKeepsSound(h.repo, w, e);
          case Dropped(_) => DropKeepsSound(h.repo, w, e);
          case _ => QuietKeepsSound(h.repo, w, e);
        }
      }
    }
  }

  /** Over every history, two batches that have replacement pull requests never share a source. */
  lemma NoSourceClaimedTwice(h: History, n: nat, i: nat, j: nat)
    requires n <= |h.events| && i < j < |After(h, n).prs|
    requires Claiming(After(h, n).prs, i) && Claiming(After(h, n).prs, j)
    ensures Disjoint(NumbersOf(After(h, n).prs, i), NumbersOf(After(h, n).prs, j))
  {
    HistoryIsSound(h, n);
  }
}
