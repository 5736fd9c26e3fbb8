/**
  Selecting one repair batch: a batch in progress is resumed before a new one is formed, and no
  source is ever claimed twice. Every raised error is the one failure of the selection.
 */
module BatchSelect {
  import opened Prelude
  import opened BatchNames

  /** A pull request body as far as selection reads it: how often it names the marker, and its lines. */
  datatype Body = Body(mentions: nat, lines: set<string>)

  datatype Pr = Pr(
    number: nat, dependabot: bool, base: string, headRef: string, headRepo: Option<string>, headSha: string,
    isOpen: bool, body: Body, createdAt: int)

  datatype Check = Green | Pending | Failing | Missing

  datatype Repo = Repo(name: string, base: string)

  datatype Plan = Plan(repair: bool, branch: Option<string>, sources: seq<nat>, existing: Option<nat>)

  const IDLE := Plan(false, None, [], None)

  // ----- Claims -----

  function Commas(parts: seq<string>): string {
    if parts == [] then "" else if |parts| == 1 then parts[0] else parts[0] + "," + Commas(parts[1..])
  }

  function Marker(numbers: seq<nat>): string {
    "<!-- rimz-dependabot-repair:v1 sources=" + Commas(Decimals(numbers)) + " -->"
  }

  function HeadsMarker(sources: seq<Pr>): string {
    "<!-- rimz-dependabot-heads:v1 sources="
    + Commas(seq(|sources|, i requires 0 <= i < |sources| => Decimal(sources[i].number) + "@" + sources[i].headSha)) + " -->"
  }

  datatype Claim = Unrelated | Malformed | Claims(numbers: seq<nat>)

  /** What a pull request claims to replace. */
  function ClaimOf(pr: Pr): Claim {
    if !(PREFIX <= pr.headRef) && pr.body.mentions == 0 then Unrelated
    else
      match BranchSources(pr.headRef)
      case None => Malformed
      case Some(numbers) => if pr.body.mentions != 1 || Marker(numbers) !in pr.body.lines then Malformed else Claims(numbers)
  }

  /** The pull request of a number: the last one listed. */
  function Numbered(prs: seq<Pr>, number: nat): Option<Pr> {
    if prs == [] then None
    else if prs[|prs| - 1].number == number then Some(prs[|prs| - 1])
    else Numbered(prs[..|prs| - 1], number)
  }

  /** The Dependabot pull request against the default branch with this number. */
  function Source(repo: Repo, prs: seq<Pr>, number: nat): Option<Pr> {
    var pr :- Numbered(prs, number);
    if pr.dependabot && pr.base == repo.base then Some(pr) else None
  }

  predicate AllSources(repo: Repo, prs: seq<Pr>, numbers: seq<nat>) {
    forall i | 0 <= i < |numbers| :: Source(repo, prs, numbers[i]).Some?
  }

  // ----- The ledger of batches -----

  datatype Active = Active(branch: string, numbers: seq<nat>, replacement: Option<nat>)

  datatype Ledger = Ledger(covered: set<nat>, replacements: map<string, nat>, active: seq<Active>)

  function Entered(repo: Repo, prs: seq<Pr>, ledger: Ledger, pr: Pr): Option<Ledger> {
    match ClaimOf(pr)
    case Unrelated => Some(ledger)
    case Malformed => None
    case Claims(numbers) =>
      if pr.base != repo.base || pr.headRepo != Some(repo.name) then None
      else if pr.headRef in ledger.replacements || exists n | n in numbers :: n in ledger.covered then None
      else if !AllSources(repo, prs, numbers) then None
      else
        Some(Ledger(
               ledger.covered + (set n | n in numbers),
               ledger.replacements[pr.headRef := pr.number],
               ledger.active + if pr.isOpen then [Active(pr.headRef, numbers, Some(pr.number))] else []))
  }

  /** The ledger of the first `n` pull requests. */
  function Covered(repo: Repo, prs: seq<Pr>, n: nat): Option<Ledger>
    requires n <= |prs|
  {
    if n == 0 then Some(Ledger({}, map[], []))
    else
      var ledger :- Covered(repo, prs, n - 1);
      Entered(repo, prs, ledger, prs[n - 1])
  }

  function Recovered(repo: Repo, prs: seq<Pr>, ledger: Ledger, branch: string): Option<Ledger> {
    var numbers :- BranchSources(branch);
    if branch in ledger.replacements then Some(ledger)
    else if !AllSources(repo, prs, numbers) then None
    else if exists i | 0 <= i < |numbers| :: !Source(repo, prs, numbers[i]).value.isOpen || numbers[i] in ledger.covered
    then None
    else Some(ledger.(active := ledger.active + [Active(branch, numbers, None)]))
  }

  /** The ledger with the first `n` branches that no pull request replaces. */
  function WithOrphans(repo: Repo, prs: seq<Pr>, ledger: Ledger, branches: seq<string>, n: nat): Option<Ledger>
    requires n <= |branches|
  {
    if n == 0 then Some(ledger)
    else
      var before :- WithOrphans(repo, prs, ledger, branches, n - 1);
      Recovered(repo, prs, before, branches[n - 1])
  }

  // ----- The plan -----

  predicate Wanted(repo: Repo, ledger: Ledger, checks: map<nat, Check>, pr: Pr) {
    && pr.isOpen && pr.dependabot && pr.base == repo.base && pr.number !in ledger.covered
    && pr.number in checks && checks[pr.number] == Failing
  }

  function Insert(sorted: seq<nat>, n: nat): seq<nat> {
    if sorted == [] || n <= sorted[0] then [n] + sorted else [sorted[0]] + Insert(sorted[1..], n)
  }

  /** The wanted numbers among the first `n` pull requests, in ascending order. */
  function WantedNumbers(repo: Repo, ledger: Ledger, checks: map<nat, Check>, prs: seq<Pr>, n: nat): seq<nat>
    requires n <= |prs|
  {
    if n == 0 then []
    else
      var before := WantedNumbers(repo, ledger, checks, prs, n - 1);
      if Wanted(repo, ledger, checks, prs[n - 1]) then Insert(before, prs[n - 1].number) else before
  }

  /** Dependabot opened a pull request too recently to form a new batch. */
  predicate Restless(prs: seq<Pr>, now: int, quiet: int) {
    quiet > 0 && exists i | 0 <= i < |prs| :: prs[i].isOpen && prs[i].dependabot && now < prs[i].createdAt + quiet
  }

  function SourcePrs(repo: Repo, prs: seq<Pr>, numbers: seq<nat>): seq<Pr>
    requires AllSources(repo, prs, numbers)
  {
    seq(|numbers|, i requires 0 <= i < |numbers| => Source(repo, prs, numbers[i]).value)
  }

  function Fresh(
    repo: Repo, prs: seq<Pr>, ledger: Ledger, checks: map<nat, Check>, now: int, quiet: int
  ): Option<Plan> {
    var numbers := WantedNumbers(repo, ledger, checks, prs, |prs|);
    if numbers == [] || Restless(prs, now, quiet) then Some(IDLE)
    else if !AllSources(repo, prs, numbers) then None
    else Some(Plan(true, Some(BranchName(numbers)), numbers, None))
  }

  function Resumed(repo: Repo, prs: seq<Pr>, checks: map<nat, Check>, active: Active): Option<Plan> {
    if !AllSources(repo, prs, active.numbers) then None
    else if active.replacement.None? then Some(Plan(true, Some(active.branch), active.numbers, None))
    else
      var pr :- Numbered(prs, active.replacement.value);
      if pr.number !in checks then None
      else
        var current := HeadsMarker(SourcePrs(repo, prs, active.numbers)) in pr.body.lines;
        Some(Plan(!current || checks[pr.number] == Failing, Some(active.branch), active.numbers, active.replacement))
  }

  function Select(
    repo: Repo, prs: seq<Pr>, branches: seq<string>, checks: map<nat, Check>, now: int, quiet: int
  ): Option<Plan> {
    var covered :- Covered(repo, prs, |prs|);
    var ledger :- WithOrphans(repo, prs, covered, branches, |branches|);
    if |ledger.active| > 1 then None
    else if |ledger.active| == 1 then Resumed(repo, prs, checks, ledger.active[0])
    else Fresh(repo, prs, ledger, checks, now, quiet)
  }

  method SelectBatch(
    repo: Repo, prs: seq<Pr>, branches: seq<string>, checks: map<nat, Check>, now: int, quiet: int
  ) returns (plan: Option<Plan>)
    ensures plan == Select(repo, prs, branches, checks, now, quiet)
  {
    var ledger := Ledger({}, map[], []);
    for i := 0 to |prs|
      invariant Covered(repo, prs, i) == Some(ledger)
    {
      var next := Entered(repo, prs, ledger, prs[i]);
      if next.None? {
        CoveredStuck(repo, prs, i + 1, |prs|);
        return None;
      }
      ledger := next.value;
    }
    ghost var covered := ledger;
    for i := 0 to |branches|
      invariant WithOrphans(repo, prs, covered, branches, i) == Some(ledger)
    {
      var next := Recovered(repo, prs, ledger, branches[i]);
      if next.None? {
        OrphansStuck(repo, prs, covered, branches, i + 1, |branches|);
        return None;
      }
      ledger := next.value;
    }
    if |ledger.active| > 1 {
      return None;
    }
    if |ledger.active| == 1 {
      return Resumed(repo, prs, checks, ledger.active[0]);
    }
    return Fresh(repo, prs, ledger, checks, now, quiet);
  }

  lemma {:induction false} CoveredStuck(repo: Repo, prs: seq<Pr>, m: nat, n: nat)
    requires m <= n <= |prs| && Covered(repo, prs, m).None?
    ensures Covered(repo, prs, n).None?
    decreases n
  {
    if m < n {
      CoveredStuck(repo, prs, m, n - 1);
    }
  }

  lemma {:induction false} OrphansStuck(repo: Repo, prs: seq<Pr>, ledger: Ledger, branches: seq<string>, m: nat, n: nat)
    requires m <= n <= |branches| && WithOrphans(repo, prs, ledger, branches, m).None?
    ensures WithOrphans(repo, prs, ledger, branches, n).None?
    decreases n
  {
    if m < n {
      OrphansStuck(repo, prs, ledger, branches, m, n - 1);
    }
  }
}
