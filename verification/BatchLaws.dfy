/** What a successful selection says about the claims it read, and how claims evolve over a repository's history. */
module BatchLaws {
  import opened Prelude
  import opened BatchNames
  import opened BatchSelect

  predicate Claiming(prs: seq<Pr>, i: nat)
    requires i < |prs|
  {
    ClaimOf(prs[i]).Claims?
  }

  function NumbersOf(prs: seq<Pr>, i: nat): seq<nat>
    requires i < |prs| && Claiming(prs, i)
  {
    ClaimOf(prs[i]).numbers
  }

  predicate Disjoint(a: seq<nat>, b: seq<nat>) {
    forall n | n in a :: n !in b
  }

  lemma {:induction false} CoveredBefore(repo: Repo, prs: seq<Pr>, m: nat, n: nat)
    requires m <= n <= |prs| && Covered(repo, prs, n).Some?
    ensures Covered(repo, prs, m).Some?
  {
    if Covered(repo, prs, m).None? {
      CoveredStuck(repo, prs, m, n);
    }
  }

  /** A claim read so far stands in the ledger. */
  predicate Stands(ledger: Ledger, pr: Pr, numbers: seq<nat>) {
    && pr.headRef in ledger.replacements
    && (forall k | k in numbers :: k in ledger.covered)
    && (pr.isOpen ==> Active(pr.headRef, numbers, Some(pr.number)) in ledger.active)
  }

  lemma EnteredKeeps(repo: Repo, prs: seq<Pr>, ledger: Ledger, next: Pr, pr: Pr, numbers: seq<nat>)
    requires Stands(ledger, pr, numbers) && Entered(repo, prs, ledger, next).Some?
    ensures Stands(Entered(repo, prs, ledger, next).value, pr, numbers)
  {
  }

  lemma {:induction false} ClaimStands(repo: Repo, prs: seq<Pr>, n: nat, i: nat)
    requires i < n <= |prs| && Claiming(prs, i) && Covered(repo, prs, n).Some?
    ensures Stands(Covered(repo, prs, n).value, prs[i], NumbersOf(prs, i))
    decreases n
  {
    if i < n - 1 {
      ClaimStands(repo, prs, n - 1, i);
      EnteredKeeps(repo, prs, Covered(repo, prs, n - 1).value, prs[n - 1], prs[i], NumbersOf(prs, i));
    }
  }

  /** In every list a selection accepts, two replacement pull requests never share a source or a branch. */
  lemma ClaimsAreDisjoint(repo: Repo, prs: seq<Pr>, i: nat, j: nat)
    requires i < j < |prs| && Claiming(prs, i) && Claiming(prs, j) && Covered(repo, prs, |prs|).Some?
    ensures Disjoint(NumbersOf(prs, i), NumbersOf(prs, j)) && prs[i].headRef != prs[j].headRef
  {
    CoveredBefore(repo, prs, j + 1, |prs|);
    ClaimStands(repo, prs, j, i);
  }

  lemma {:induction false} ReplacementHasClaim(repo: Repo, prs: seq<Pr>, n: nat, branch: string) returns (i: nat)
    requires n <= |prs| && Covered(repo, prs, n).Some? && branch in Covered(repo, prs, n).value.replacements
    ensures i < n && Claiming(prs, i) && prs[i].headRef == branch
  {
    if branch in Covered(repo, prs, n - 1).value.replacements {
      i := ReplacementHasClaim(repo, prs, n - 1, branch);
    } else {
      i := n - 1;
    }
  }

  lemma {:induction false} ActiveHasClaim(repo: Repo, prs: seq<Pr>, n: nat, k: nat) returns (i: nat)
    requires n <= |prs| && Covered(repo, prs, n).Some? && k < |Covered(repo, prs, n).value.active|
    ensures i < n && Claiming(prs, i) && prs[i].isOpen
  {
    if k < |Covered(repo, prs, n - 1).value.active| {
      i := ActiveHasClaim(repo, prs, n - 1, k);
    } else {
      i := n - 1;
    }
  }

  // ----- Orphan branches -----

  /** A branch no pull request replaces. */
  predicate Orphan(prs: seq<Pr>, branch: string) {
    forall i | 0 <= i < |prs| && Claiming(prs, i) :: prs[i].headRef != branch
  }

  /** Orphans only add to what is active. */
  lemma {:induction false} OrphansAdd(repo: Repo, prs: seq<Pr>, ledger: Ledger, branches: seq<string>, n: nat)
    requires n <= |branches| && WithOrphans(repo, prs, ledger, branches, n).Some?
    ensures var after := WithOrphans(repo, prs, ledger, branches, n).value;
            after.covered == ledger.covered && after.replacements == ledger.replacements && ledger.active <= after.active
  {
    if n > 0 {
      OrphansAdd(repo, prs, ledger, branches, n - 1);
    }
  }

  lemma {:induction false} OrphanStands(
    repo: Repo, prs: seq<Pr>, ledger: Ledger, branches: seq<string>, n: nat, j: nat
  )
    requires j < n <= |branches| && WithOrphans(repo, prs, ledger, branches, n).Some?
    requires branches[j] !in ledger.replacements
    ensures BranchSources(branches[j]).Some?
    ensures Active(branches[j], BranchSources(branches[j]).value, None) in
            WithOrphans(repo, prs, ledger, branches, n).value.active
    decreases n
  {
    OrphansAdd(repo, prs, ledger, branches, n - 1);
    if j < n - 1 {
      OrphanStands(repo, prs, ledger, branches, n - 1, j);
    }
  }

  lemma {:induction false} NoOrphans(repo: Repo, prs: seq<Pr>, ledger: Ledger, branches: seq<string>, n: nat)
    requires n <= |branches| && WithOrphans(repo, prs, ledger, branches, n).Some?
    requires forall j | 0 <= j < n :: branches[j] in ledger.replacements
    ensures WithOrphans(repo, prs, ledger, branches, n) == Some(ledger)
  {
    if n > 0 {
      NoOrphans(repo, prs, ledger, branches, n - 1);
    }
  }

  // ----- A batch in progress pins the plan -----

  /** While a replacement pull request is open, every plan is about its batch. */
  lemma OpenReplacementPins(
    repo: Repo, prs: seq<Pr>, branches: seq<string>, checks: map<nat, Check>, now: int, quiet: int, i: nat
  )
    requires Select(repo, prs, branches, checks, now, quiet).Some?
    requires i < |prs| && Claiming(prs, i) && prs[i].isOpen
    ensures var plan := Select(repo, prs, branches, checks, now, quiet).value;
            plan.branch == Some(prs[i].headRef) && plan.sources == NumbersOf(prs, i) && plan.existing == Some(prs[i].number)
  {
    var covered := Covered(repo, prs, |prs|).value;
    ClaimStands(repo, prs, |prs|, i);
    OrphansAdd(repo, prs, covered, branches, |branches|);
    var active := Active(prs[i].headRef, NumbersOf(prs, i), Some(prs[i].number));
    assert active in WithOrphans(repo, prs, covered, branches, |branches|).value.active;
  }

  /** While an orphan branch exists, every plan is about its batch. */
  lemma OrphanPins(
    repo: Repo, prs: seq<Pr>, branches: seq<string>, checks: map<nat, Check>, now: int, quiet: int, j: nat
  )
    requires Select(repo, prs, branches, checks, now, quiet).Some?
    requires j < |branches| && Orphan(prs, branches[j])
    ensures var plan := Select(repo, prs, branches, checks, now, quiet).value;
            plan.branch == Some(branches[j]) && Some(plan.sources) == BranchSources(branches[j]) && plan.existing.None?
  {
    var covered := Covered(repo, prs, |prs|).value;
    if branches[j] in covered.replacements {
      var i := ReplacementHasClaim(repo, prs, |prs|, branches[j]);
    }
    OrphanStands(repo, prs, covered, branches, |branches|, j);
  }

  /** A plan that resumes nothing is formed from uncovered numbers while nothing is in progress. */
  lemma NewPlanIsUncovered(
    repo: Repo, prs: seq<Pr>, branches: seq<string>, checks: map<nat, Check>, now: int, quiet: int
  )
    requires Select(repo, prs, branches, checks, now, quiet).Some?
    requires var plan := Select(repo, prs, branches, checks, now, quiet).value;
             plan.branch.Some? && plan.branch.value !in branches && plan.existing.None?
    ensures forall j | 0 <= j < |branches| :: !Orphan(prs, branches[j])
    ensures forall i | 0 <= i < |prs| && Claiming(prs, i) :: !prs[i].isOpen
    ensures var plan := Select(repo, prs, branches, checks, now, quiet).value;
            && plan.sources != [] && plan.branch == Some(BranchName(plan.sources))
            && (exists ledger :: Covered(repo, prs, |prs|) == Some(ledger) &&
                                 plan.sources == WantedNumbers(repo, ledger, checks, prs, |prs|))
  {
    forall j | 0 <= j < |branches| ensures !Orphan(prs, branches[j]) {
      if Orphan(prs, branches[j]) {
        OrphanPins(repo, prs, branches, checks, now, quiet, j);
      }
    }
    forall i | 0 <= i < |prs| && Claiming(prs, i) ensures !prs[i].isOpen {
      if prs[i].isOpen {
        OpenReplacementPins(repo, prs, branches, checks, now, quiet, i);
      }
    }
    NothingActive(repo, prs, branches);
  }

  lemma NothingActive(repo: Repo, prs: seq<Pr>, branches: seq<string>)
    requires Covered(repo, prs, |prs|).Some?
    requires WithOrphans(repo, prs, Covered(repo, prs, |prs|).value, branches, |branches|).Some?
    requires forall j | 0 <= j < |branches| :: !Orphan(prs, branches[j])
    requires forall i | 0 <= i < |prs| && Claiming(prs, i) :: !prs[i].isOpen
    ensures WithOrphans(repo, prs, Covered(repo, prs, |prs|).value, branches, |branches|) == Covered(repo, prs, |prs|)
    ensures Covered(repo, prs, |prs|).value.active == []
  {
    var covered := Covered(repo, prs, |prs|).value;
    forall j | 0 <= j < |branches| ensures branches[j] in covered.replacements {
      assert !Orphan(prs, branches[j]);
      var i :| 0 <= i < |prs| && Claiming(prs, i) && prs[i].headRef == branches[j];
      ClaimStands(repo, prs, |prs|, i);
    }
    NoOrphans(repo, prs, covered, branches, |branches|);
    if covered.active != [] {
      var i := ActiveHasClaim(repo, prs, |prs|, 0);
    }
  }
}
