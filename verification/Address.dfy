/**
  Agent addresses over live panes: `@handle#lane` or a pane id. The lane filter is a parameter;
  every resolution error is the one failure.
 */
module Address {
  import opened Prelude
  import opened BatchNames

  const U32_MAX: nat := 0xFFFF_FFFF

  /** A live pane; `session` is the id of the agent bound to it, if one is. */
  datatype Pane = Pane(
    paneId: string, session: Option<string>, lane: Option<string>, kind: string, ordinal: Option<nat>,
    name: Option<string>, nameExplicit: bool, profile: Option<string>, role: Option<string>)

  datatype Selector = All | Kind(kind: string) | KindOrdinal(kind: string, ordinal: nat) | NameOrSession(word: string)

  datatype Tier = AllTier | RoleTier | KindTier | OrdinalTier | ExplicitNameTier | ProfileTier | NameTier | SessionTier

  datatype Target = PaneTarget(paneId: string) | Mention(selector: Selector, channel: Option<string>)

  // ----- Text -----

  function IndexOf(text: string, c: char): (r: Option<nat>)
    ensures r.None? <==> c !in text
    ensures r.Some? ==> r.value < |text| && text[r.value] == c && c !in text[..r.value]
  {
    if text == "" then None
    else if text[0] == c then Some(0)
    else
      var at := IndexOf(text[1..], c);
      assert text == [text[0]] + text[1..];
      if at.None? then None
      else
        assert text[..at.value + 1] == [text[0]] + text[1..][..at.value];
        Some(at.value + 1)
  }

  function LastIndexOf(text: string, c: char): (r: Option<nat>)
    ensures r.Some? ==> r.value < |text| && text[r.value] == c
  {
    if text == "" then None
    else if text[|text| - 1] == c then Some(|text| - 1)
    else LastIndexOf(text[..|text| - 1], c)
  }

  /** `str::parse::<u32>`: decimal digits, perhaps after a plus sign. */
  function ParseU32(text: string): Option<nat> {
    var digits := if "+" <= text then text[1..] else text;
    if digits == "" || !AllDigits(digits) || IntOf(digits) > U32_MAX then None else Some(IntOf(digits))
  }

  // ----- Parsing -----

  predicate ValidPaneId(text: string) {
    ("zellij:" <= text && |text| > 7) || ("tmux:" <= text && |text| > 5)
  }

  function OrdinalSelector(known: set<string>, text: string): Option<Selector> {
    var dash :- LastIndexOf(text, '-');
    if text[..dash] !in known then None
    else
      var ordinal :- ParseU32(text[dash + 1..]);
      if ordinal > 0 then Some(KindOrdinal(text[..dash], ordinal)) else None
  }

  function Classify(known: set<string>, text: string): Selector {
    if text == "all" then All
    else
      var ordinal := OrdinalSelector(known, text);
      if ordinal.Some? then ordinal.value
      else if text in known then Kind(text)
      else NameOrSession(text)
  }

  function ParseTarget(known: set<string>, raw: string): Option<Target> {
    if ':' in raw then
      if ValidPaneId(raw) then Some(PaneTarget(raw)) else None
    else
      var hash := IndexOf(raw, '#');
      var scoped := hash.Some? && hash.value + 1 < |raw|;
      var agent := if scoped then raw[..hash.value] else raw;
      var word := if "@" <= agent then agent[1..] else agent;
      if word == "" then None
      else Some(Mention(Classify(known, word), if scoped then Some(raw[hash.value + 1..]) else None))
  }

  // ----- Selection -----

  function Filter(panes: seq<Pane>, keep: Pane -> bool): (kept: seq<Pane>)
    ensures forall p :: p in kept <==> p in panes && keep(p)
  {
    if panes == [] then []
    else
      var rest, last := Filter(panes[..|panes| - 1], keep), panes[|panes| - 1];
      if keep(last) then rest + [last] else rest
  }

  predicate TierMatches(tier: Tier, selector: Selector, p: Pane) {
    match (tier, selector)
    case (AllTier, All) => true
    case (RoleTier, Kind(word)) => p.role == Some(word)
    case (RoleTier, NameOrSession(word)) => p.role == Some(word)
    case (KindTier, Kind(word)) => p.kind == word
    case (OrdinalTier, KindOrdinal(kind, ordinal)) => p.kind == kind && p.ordinal == Some(ordinal)
    case (ExplicitNameTier, NameOrSession(word)) => p.nameExplicit && p.name == Some(word)
    case (ProfileTier, NameOrSession(word)) => p.profile == Some(word)
    case (NameTier, NameOrSession(word)) => p.name == Some(word)
    case (SessionTier, NameOrSession(word)) => p.session.Some? && word <= p.session.value
    case (_, _) => false
  }

  predicate AnyMatches(tier: Tier, selector: Selector, panes: seq<Pane>) {
    exists p | p in panes :: TierMatches(tier, selector, p)
  }

  function WinningTier(selector: Selector, panes: seq<Pane>): Tier {
    match selector
    case All => AllTier
    case Kind(_) => if AnyMatches(RoleTier, selector, panes) then RoleTier else KindTier
    case KindOrdinal(_, _) => OrdinalTier
    case NameOrSession(_) =>
      if AnyMatches(RoleTier, selector, panes) then RoleTier
      else if AnyMatches(ExplicitNameTier, selector, panes) then ExplicitNameTier
      else if AnyMatches(ProfileTier, selector, panes) then ProfileTier
      else if AnyMatches(NameTier, selector, panes) then NameTier
      else SessionTier
  }

  function Matches(tier: Tier, selector: Selector): Pane -> bool {
    (p: Pane) => TierMatches(tier, selector, p)
  }

  function HasSession(word: string): Pane -> bool {
    (p: Pane) => p.session == Some(word)
  }

  function ExactSession(selector: Selector, panes: seq<Pane>): seq<Pane> {
    if selector.NameOrSession? then Filter(panes, HasSession(selector.word)) else []
  }

  /** Every live pane is claimed, so a role keeps all its matches. */
  function Select(selector: Selector, panes: seq<Pane>): seq<Pane> {
    var tier := WinningTier(selector, panes);
    var matches := Filter(panes, Matches(tier, selector));
    if tier.SessionTier? && ExactSession(selector, matches) != [] then ExactSession(selector, matches) else matches
  }

  // ----- Resolution -----

  type Lanes = (Pane, string) -> bool

  function InChannel(lanes: Lanes, channel: Option<string>): Pane -> bool {
    (p: Pane) => channel.None? || lanes(p, channel.value)
  }

  function OnPane(paneId: string): Pane -> bool {
    (p: Pane) => p.paneId == paneId
  }

  /** A session id is found in any lane; other selectors choose within the channel. */
  function ResolveMention(lanes: Lanes, selector: Selector, channel: Option<string>, panes: seq<Pane>): Option<seq<Pane>> {
    var exact := ExactSession(selector, panes);
    if |exact| == 1 then Some(exact)
    else if exact != [] then None
    else
      var matches := Select(selector, Filter(panes, InChannel(lanes, channel)));
      if matches != [] then Some(matches) else None
  }

  /** The panes an address names, standing in lane `current`; none when it fails. */
  function Resolve(known: set<string>, lanes: Lanes, raw: string, current: Option<string>, panes: seq<Pane>): Option<seq<Pane>> {
    var target :- ParseTarget(known, raw);
    match target
    case PaneTarget(paneId) =>
      var matches := Filter(panes, OnPane(paneId));
      if |matches| == 1 then Some(matches) else None
    case Mention(selector, channel) => ResolveMention(lanes, selector, if channel.Some? then channel else current, panes)
  }

  // ----- Rendering -----

  /** The word, read as a selector among these panes, names exactly this one. */
  predicate ResolvesIn(known: set<string>, word: string, panes: seq<Pane>, p: Pane) {
    var selector := Classify(known, word);
    var exact := ExactSession(selector, panes);
    (if exact == [] then Select(selector, panes) else exact) == [p]
  }

  function OrdinalWord(p: Pane, scoped: bool): Option<string> {
    if scoped && p.ordinal.Some? then Some(p.kind + "-" + Decimal(p.ordinal.value)) else None
  }

  function FirstResolving(known: set<string>, words: seq<Option<string>>, peers: seq<Pane>, p: Pane): (r: Option<string>)
    ensures r.Some? ==> ResolvesIn(known, r.value, peers, p) && r in words
  {
    if words == [] then None
    else if words[0].Some? && ResolvesIn(known, words[0].value, peers, p) then words[0]
    else FirstResolving(known, words[1..], peers, p)
  }

  /** Role, explicit name, profile, kind, name, ordinal, session id: the first that names the pane. */
  function HandleWords(p: Pane, scoped: bool): seq<Option<string>> {
    [p.role, if p.nameExplicit then p.name else None, p.profile,
     Some(p.kind), p.name, OrdinalWord(p, scoped), p.session]
  }

  function SameLabel(lane: Option<string>): Pane -> bool {
    (p: Pane) => lane.None? || p.lane == lane
  }

  function HandleWord(known: set<string>, p: Pane, peers: seq<Pane>): Option<string> {
    FirstResolving(known, HandleWords(p, p.lane.Some?), Filter(peers, SameLabel(p.lane)), p)
  }

  function Render(known: set<string>, p: Pane, peers: seq<Pane>): string {
    if p.session.None? || HandleWord(known, p, peers).None? then p.paneId
    else
      var handle := "@" + HandleWord(known, p, peers).value;
      if p.lane.Some? then handle + "#" + p.lane.value else handle
  }

  // ----- Round trip -----

  /** A word that survives the grammar. */
  predicate Word(text: string) {
    text != "" && ':' !in text && '#' !in text
  }

  predicate WordIfAny(text: Option<string>) {
    text.Some? ==> Word(text.value)
  }

  predicate PlainWords(p: Pane) {
    && WordIfAny(p.role) && WordIfAny(p.name) && WordIfAny(p.profile) && Word(p.kind) && WordIfAny(p.session)
  }

  predicate DistinctPanes(panes: seq<Pane>) {
    forall i, j | 0 <= i < j < |panes| :: panes[i].paneId != panes[j].paneId
  }

  /** The lane filter of this lane selects exactly the panes that carry it. */
  predicate FiltersLabel(lanes: Lanes, lane: string, panes: seq<Pane>) {
    forall p | p in panes :: lanes(p, lane) <==> p.lane == Some(lane)
  }

  lemma {:induction false} FilterSame(panes: seq<Pane>, f: Pane -> bool, g: Pane -> bool)
    requires forall p | p in panes :: f(p) == g(p)
    ensures Filter(panes, f) == Filter(panes, g)
  {
    if panes != [] {
      FilterSame(panes[..|panes| - 1], f, g);
      assert panes[|panes| - 1] in panes;
    }
  }

  lemma {:induction false} FilterOne(panes: seq<Pane>, keep: Pane -> bool, p: Pane)
    requires DistinctPanes(panes) && p in panes && forall q | q in panes :: keep(q) <==> q == p
    ensures Filter(panes, keep) == [p]
  {
    var init, last := panes[..|panes| - 1], panes[|panes| - 1];
    assert last in panes;
    if last == p {
      assert forall q | q in init :: q in panes && q != p;
      FilterNone(init, keep);
    } else {
      FilterOne(init, keep, p);
    }
  }

  lemma {:induction false} FilterNone(panes: seq<Pane>, keep: Pane -> bool)
    requires forall q | q in panes :: !keep(q)
    ensures Filter(panes, keep) == []
  {
    if panes != [] {
      FilterNone(panes[..|panes| - 1], keep);
    }
  }

  lemma {:induction false} DecimalIsPlain(n: nat)
    ensures ':' !in Decimal(n) && '#' !in Decimal(n)
  {
    DecimalRoundTrip(n);
    assert forall i | 0 <= i < |Decimal(n)| :: IsDigit(Decimal(n)[i]);
  }

  lemma HandleIsWord(known: set<string>, p: Pane, peers: seq<Pane>)
    requires PlainWords(p) && HandleWord(known, p, peers).Some?
    ensures Word(HandleWord(known, p, peers).value)
  {
    var word := HandleWord(known, p, peers);
    if p.ordinal.Some? {
      DecimalIsPlain(p.ordinal.value);
    }
    assert word in HandleWords(p, p.lane.Some?);
  }

  lemma {:induction false} FirstHash(handle: string, rest: string)
    requires '#' !in handle
    ensures IndexOf(handle + "#" + rest, '#') == Some(|handle|)
  {
    if handle != "" {
      FirstHash(handle[1..], rest);
      assert (handle + "#" + rest)[1..] == handle[1..] + "#" + rest;
      assert handle[0] in handle;
    }
  }

  lemma ParseScoped(known: set<string>, word: string, lane: string)
    requires Word(word) && lane != "" && ':' !in lane
    ensures ParseTarget(known, "@" + word + "#" + lane) == Some(Mention(Classify(known, word), Some(lane)))
  {
    var handle := "@" + word;
    var raw := handle + "#" + lane;
    FirstHash(handle, lane);
    assert ':' !in raw;
    assert raw[..|handle|] == handle && raw[|handle| + 1..] == lane;
    assert handle[1..] == word;
  }

  lemma ParseBare(known: set<string>, word: string)
    requires Word(word)
    ensures ParseTarget(known, "@" + word) == Some(Mention(Classify(known, word), None))
  {
    var handle := "@" + word;
    assert '#' !in handle && ':' !in handle;
    assert handle[1..] == word;
  }

  /** The address of a pane can be taken apart: its words and lane are plain, and the lane's filter is exact. */
  predicate Addressable(lanes: Lanes, p: Pane, peers: seq<Pane>) {
    && DistinctPanes(peers) && p in peers && ValidPaneId(p.paneId) && PlainWords(p)
    && (p.lane.Some? ==> p.lane.value != "" && ':' !in p.lane.value && FiltersLabel(lanes, p.lane.value, peers))
  }

  /** The channel an address rendered for the pane is resolved in, by a caller standing in `current`. */
  function ChannelOf(p: Pane, current: Option<string>): Option<string> {
    if p.lane.Some? then p.lane else current
  }

  lemma ParseRendered(known: set<string>, lanes: Lanes, p: Pane, peers: seq<Pane>)
    requires Addressable(lanes, p, peers) && p.session.Some? && HandleWord(known, p, peers).Some?
    ensures ParseTarget(known, Render(known, p, peers)) ==
            Some(Mention(Classify(known, HandleWord(known, p, peers).value), p.lane))
  {
    var word := HandleWord(known, p, peers).value;
    HandleIsWord(known, p, peers);
    if p.lane.Some? {
      ParseScoped(known, word, p.lane.value);
    } else {
      ParseBare(known, word);
    }
  }

  /** The rendered word is the session id of another pane. */
  predicate Shadowed(known: set<string>, p: Pane, peers: seq<Pane>) {
    && p.session.Some? && HandleWord(known, p, peers).Some?
    && var word := HandleWord(known, p, peers).value;
    && Classify(known, word).NameOrSession?
    && exists q | q in peers :: q != p && q.session == Some(word)
  }

  lemma HasColon(text: string)
    requires ValidPaneId(text)
    ensures ':' in text
  {
    if "zellij:" <= text {
      assert text[6] == ':';
    } else {
      assert text[4] == ':';
    }
  }

  lemma PaneIdResolves(known: set<string>, lanes: Lanes, p: Pane, current: Option<string>, peers: seq<Pane>)
    requires DistinctPanes(peers) && p in peers && ValidPaneId(p.paneId)
    ensures Resolve(known, lanes, p.paneId, current, peers) == Some([p])
  {
    HasColon(p.paneId);
    forall q | q in peers ensures OnPane(p.paneId)(q) <==> q == p {
      SamePane(peers, p, q);
    }
    FilterOne(peers, OnPane(p.paneId), p);
  }

  lemma SamePane(panes: seq<Pane>, p: Pane, q: Pane)
    requires DistinctPanes(panes) && p in panes && q in panes
    ensures p.paneId == q.paneId <==> p == q
  {
    var i :| 0 <= i < |panes| && panes[i] == p;
    var j :| 0 <= j < |panes| && panes[j] == q;
  }

  lemma ClassifiedWord(known: set<string>, word: string)
    requires Classify(known, word).NameOrSession?
    ensures Classify(known, word) == NameOrSession(word)
  {
  }

  lemma OthersSession(lanes: Lanes, word: string, channel: Option<string>, peers: seq<Pane>, p: Pane, q: Pane)
    requires q in peers && q != p && q.session == Some(word)
    ensures ResolveMention(lanes, NameOrSession(word), channel, peers) != Some([p])
  {
    assert q in ExactSession(NameOrSession(word), peers);
  }

  lemma OwnSession(lanes: Lanes, word: string, channel: Option<string>, peers: seq<Pane>, p: Pane)
    requires DistinctPanes(peers) && p in peers && forall q | q in peers :: q.session == Some(word) <==> q == p
    ensures ResolveMention(lanes, NameOrSession(word), channel, peers) == Some([p])
  {
    FilterOne(peers, HasSession(word), p);
  }

  lemma NoSession(lanes: Lanes, word: string, channel: Option<string>, peers: seq<Pane>)
    requires forall q | q in peers :: q.session != Some(word)
    ensures ExactSession(NameOrSession(word), peers) == []
    ensures ExactSession(NameOrSession(word), Filter(peers, InChannel(lanes, channel))) == []
  {
    FilterNone(peers, HasSession(word));
    FilterNone(Filter(peers, InChannel(lanes, channel)), HasSession(word));
  }

  /** The selector names exactly this pane among the panes of the channel. */
  predicate NamesIn(lanes: Lanes, selector: Selector, channel: Option<string>, peers: seq<Pane>, p: Pane) {
    var scoped := Filter(peers, InChannel(lanes, channel));
    (if ExactSession(selector, scoped) == [] then Select(selector, scoped) else ExactSession(selector, scoped)) == [p]
  }

  /** A word that names a pane among the panes of a channel names it everywhere, unless it is another's session id. */
  lemma WordResolves(lanes: Lanes, selector: Selector, channel: Option<string>, peers: seq<Pane>, p: Pane)
    requires DistinctPanes(peers) && p in peers && NamesIn(lanes, selector, channel, peers, p)
    ensures ResolveMention(lanes, selector, channel, peers) == Some([p]) <==>
            !(selector.NameOrSession? && exists q | q in peers :: q != p && q.session == Some(selector.word))
  {
    if selector.NameOrSession? {
      if q :| q in peers && q != p && q.session == Some(selector.word) {
        OthersSession(lanes, selector.word, channel, peers, p, q);
      } else if p.session == Some(selector.word) {
        OwnSession(lanes, selector.word, channel, peers, p);
      } else {
        NoSession(lanes, selector.word, channel, peers);
      }
    }
  }

  /** The rendered handle is the pane's own session id, which is found in any lane. */
  predicate OwnId(known: set<string>, word: string, p: Pane) {
    Classify(known, word).NameOrSession? && p.session == Some(word)
  }

  /** A pane without a lane, addressed by its handle, and outside the caller's lane. */
  predicate Strayed(known: set<string>, lanes: Lanes, p: Pane, current: Option<string>, peers: seq<Pane>) {
    && p.session.Some? && HandleWord(known, p, peers).Some?
    && p.lane.None? && current.Some? && !lanes(p, current.value)
    && !OwnId(known, HandleWord(known, p, peers).value, p)
  }

  lemma {:induction false} FilterTwice(panes: seq<Pane>, f: Pane -> bool, g: Pane -> bool)
    ensures Filter(Filter(panes, f), g) == Filter(Filter(panes, g), f)
  {
    if panes != [] {
      var init, last := panes[..|panes| - 1], panes[|panes| - 1];
      FilterTwice(init, f, g);
      assert (Filter(init, f) + [last])[..|Filter(init, f)|] == Filter(init, f);
      assert (Filter(init, g) + [last])[..|Filter(init, g)|] == Filter(init, g);
    }
  }

  lemma FilterSingle(p: Pane, keep: Pane -> bool)
    requires keep(p)
    ensures Filter([p], keep) == [p]
  {
    assert [p][..0] == [];
  }

  /** Dropping panes other than the matched one changes neither the winning tier nor the match. */
  lemma SelectShrinks(selector: Selector, panes: seq<Pane>, keep: Pane -> bool, p: Pane)
    requires ExactSession(selector, panes) == [] && Select(selector, panes) == [p] && keep(p)
    ensures ExactSession(selector, Filter(panes, keep)) == [] && Select(selector, Filter(panes, keep)) == [p]
  {
    var tier, kept := WinningTier(selector, panes), Filter(panes, keep);
    if selector.NameOrSession? {
      FilterTwice(panes, HasSession(selector.word), keep);
      NoExact(selector, panes, kept);
      NoExact(selector, panes, Filter(panes, Matches(tier, selector)));
      NoExact(selector, panes, Filter(kept, Matches(tier, selector)));
    }
    assert Filter(panes, Matches(tier, selector)) == [p];
    assert p in [p];
    TierKept(selector, panes, kept, p);
    FilterTwice(panes, keep, Matches(tier, selector));
    FilterSingle(p, keep);
  }

  lemma NoExact(selector: Selector, panes: seq<Pane>, kept: seq<Pane>)
    requires ExactSession(selector, panes) == [] && forall q | q in kept :: q in panes
    ensures ExactSession(selector, kept) == []
  {
    if selector.NameOrSession? {
      forall q | q in kept ensures !HasSession(selector.word)(q) {
        assert q !in Filter(panes, HasSession(selector.word));
      }
      FilterNone(kept, HasSession(selector.word));
    }
  }

  lemma TierKept(selector: Selector, panes: seq<Pane>, kept: seq<Pane>, p: Pane)
    requires p in kept && TierMatches(WinningTier(selector, panes), selector, p) && forall q | q in kept :: q in panes
    ensures WinningTier(selector, kept) == WinningTier(selector, panes)
  {
    forall tier: Tier ensures AnyMatches(tier, selector, kept) ==> AnyMatches(tier, selector, panes) {
    }
    assert AnyMatches(WinningTier(selector, panes), selector, kept);
  }

  lemma OneExact(selector: Selector, panes: seq<Pane>, keep: Pane -> bool, p: Pane)
    requires selector.NameOrSession? && ExactSession(selector, panes) == [p] && keep(p)
    ensures ExactSession(selector, Filter(panes, keep)) == [p]
  {
    FilterTwice(panes, HasSession(selector.word), keep);
    FilterSingle(p, keep);
  }

  /** A lane-less pane's handle names it among all panes, so it names it in any lane that holds it. */
  lemma NamesInLane(lanes: Lanes, selector: Selector, lane: string, peers: seq<Pane>, p: Pane)
    requires (if ExactSession(selector, peers) == [] then Select(selector, peers) else ExactSession(selector, peers)) == [p]
    requires lanes(p, lane)
    ensures NamesIn(lanes, selector, Some(lane), peers, p)
  {
    if ExactSession(selector, peers) == [] {
      SelectShrinks(selector, peers, InChannel(lanes, Some(lane)), p);
    } else {
      OneExact(selector, peers, InChannel(lanes, Some(lane)), p);
    }
  }

  lemma {:induction false} FilterAll(panes: seq<Pane>, keep: Pane -> bool)
    requires forall p | p in panes :: keep(p)
    ensures Filter(panes, keep) == panes
  {
    if panes != [] {
      FilterAll(panes[..|panes| - 1], keep);
      assert panes[|panes| - 1] in panes;
    }
  }

  lemma HandleNames(known: set<string>, lanes: Lanes, p: Pane, current: Option<string>, peers: seq<Pane>)
    requires Addressable(lanes, p, peers) && HandleWord(known, p, peers).Some?
    requires p.lane.Some? || current.None? || lanes(p, current.value)
    ensures NamesIn(lanes, Classify(known, HandleWord(known, p, peers).value), ChannelOf(p, current), peers, p)
  {
    var word := HandleWord(known, p, peers).value;
    assert ResolvesIn(known, word, Filter(peers, SameLabel(p.lane)), p);
    if p.lane.None? {
      FilterAll(peers, SameLabel(p.lane));
    }
    if p.lane.None? && current.Some? {
      NamesInLane(lanes, Classify(known, word), current.value, peers, p);
    } else {
      FilterSame(peers, InChannel(lanes, ChannelOf(p, current)), SameLabel(p.lane));
    }
  }

  /** A pane outside the channel is found by its own session id only. */
  lemma OutsideChannel(lanes: Lanes, selector: Selector, channel: string, peers: seq<Pane>, p: Pane)
    requires DistinctPanes(peers) && p in peers && !lanes(p, channel)
    requires !(selector.NameOrSession? && exists q | q in peers :: q != p && q.session == Some(selector.word))
    ensures ResolveMention(lanes, selector, Some(channel), peers) == Some([p]) <==>
            selector.NameOrSession? && p.session == Some(selector.word)
  {
    if selector.NameOrSession? && p.session == Some(selector.word) {
      OwnSession(lanes, selector.word, Some(channel), peers, p);
    } else {
      if selector.NameOrSession? {
        NoSession(lanes, selector.word, Some(channel), peers);
      }
      var scoped := Filter(peers, InChannel(lanes, Some(channel)));
      assert p !in scoped && p in [p];
      assert forall q | q in Select(selector, scoped) :: q in scoped;
    }
  }

  /** Resolving a word that names the pane where it was rendered. */
  lemma MentionRoundTrip(known: set<string>, lanes: Lanes, p: Pane, channel: Option<string>, peers: seq<Pane>, word: string)
    requires Addressable(lanes, p, peers) && NamesIn(lanes, Classify(known, word), channel, peers, p)
    ensures ResolveMention(lanes, Classify(known, word), channel, peers) == Some([p]) <==>
            !(Classify(known, word).NameOrSession? && exists q | q in peers :: q != p && q.session == Some(word))
  {
    WordResolves(lanes, Classify(known, word), channel, peers, p);
    if Classify(known, word).NameOrSession? {
      ClassifiedWord(known, word);
    }
  }

  lemma StrayRoundTrip(known: set<string>, lanes: Lanes, p: Pane, channel: string, peers: seq<Pane>, word: string)
    requires Addressable(lanes, p, peers) && !lanes(p, channel)
    ensures ResolveMention(lanes, Classify(known, word), Some(channel), peers) == Some([p]) <==>
            && OwnId(known, word, p)
            && !(Classify(known, word).NameOrSession? && exists q | q in peers :: q != p && q.session == Some(word))
  {
    var selector := Classify(known, word);
    if selector.NameOrSession? {
      ClassifiedWord(known, word);
    }
    if q :| selector.NameOrSession? && q in peers && q != p && q.session == Some(word) {
      OthersSession(lanes, word, Some(channel), peers, p, q);
    } else {
      OutsideChannel(lanes, selector, channel, peers, p);
    }
  }

  lemma HandleResolves(known: set<string>, lanes: Lanes, p: Pane, current: Option<string>, peers: seq<Pane>)
    requires Addressable(lanes, p, peers) && p.session.Some? && HandleWord(known, p, peers).Some?
    ensures Resolve(known, lanes, Render(known, p, peers), current, peers) == Some([p]) <==>
            !Shadowed(known, p, peers) && !Strayed(known, lanes, p, current, peers)
  {
    RenderedMention(known, lanes, p, current, peers);
    if p.lane.Some? || current.None? || lanes(p, current.value) {
      HandleNames(known, lanes, p, current, peers);
      MentionRoundTrip(known, lanes, p, ChannelOf(p, current), peers, HandleWord(known, p, peers).value);
    } else {
      StrayRoundTrip(known, lanes, p, current.value, peers, HandleWord(known, p, peers).value);
    }
  }

  lemma RenderedMention(known: set<string>, lanes: Lanes, p: Pane, current: Option<string>, peers: seq<Pane>)
    requires Addressable(lanes, p, peers) && p.session.Some? && HandleWord(known, p, peers).Some?
    ensures Resolve(known, lanes, Render(known, p, peers), current, peers) ==
            ResolveMention(lanes, Classify(known, HandleWord(known, p, peers).value), ChannelOf(p, current), peers)
  {
    ParseRendered(known, lanes, p, peers);
  }

  /**
    Resolving the address rendered for a live pane against the same panes, by a caller in any lane,
    gives back exactly that pane, if and only if its handle is not the session id of another pane
    and, for a pane without a lane, the caller's lane holds it or the handle is its own session id.
   */
  lemma AddressRoundTrip(known: set<string>, lanes: Lanes, p: Pane, current: Option<string>, peers: seq<Pane>)
    requires Addressable(lanes, p, peers)
    ensures Resolve(known, lanes, Render(known, p, peers), current, peers) == Some([p]) <==>
            !Shadowed(known, p, peers) && !Strayed(known, lanes, p, current, peers)
  {
    if p.session.None? || HandleWord(known, p, peers).None? {
      PaneIdResolves(known, lanes, p, current, peers);
    } else {
      HandleResolves(known, lanes, p, current, peers);
    }
  }

  // ----- A shadowed handle -----

  const NAMED := Pane("tmux:1", Some("s"), Some("a"), "codex", None, Some("x"), true, None, None)
  const SHADOW := Pane("tmux:2", Some("x"), Some("b"), "codex", None, None, false, None, None)
  const PAIR := [NAMED, SHADOW]

  lemma NamedAlone()
    ensures Filter(PAIR, SameLabel(Some("a"))) == [NAMED]
    ensures ResolvesIn({"codex"}, "x", [NAMED], NAMED) && Classify({"codex"}, "x") == NameOrSession("x")
  {
    FilterOne(PAIR, SameLabel(Some("a")), NAMED);
    assert LastIndexOf("x", '-').None? by {
      assert "x"[..0] == "";
    }
    assert Classify({"codex"}, "x") == NameOrSession("x");
    FilterNone([NAMED], HasSession("x"));
    assert NAMED in [NAMED];
    assert !AnyMatches(RoleTier, NameOrSession("x"), [NAMED]) && AnyMatches(ExplicitNameTier, NameOrSession("x"), [NAMED]);
    FilterOne([NAMED], Matches(ExplicitNameTier, NameOrSession("x")), NAMED);
  }

  lemma NamedIsShadowed()
    ensures Shadowed({"codex"}, NAMED, PAIR)
  {
    NamedAlone();
    var words := HandleWords(NAMED, true);
    assert words[0].None? && words[1..][0] == Some("x");
    assert FirstResolving({"codex"}, words[1..], [NAMED], NAMED) == Some("x");
    assert HandleWord({"codex"}, NAMED, PAIR) == Some("x");
    assert PAIR[1] == SHADOW;
  }

  lemma NamedIsAddressable(lanes: Lanes)
    requires FiltersLabel(lanes, "a", PAIR)
    ensures Addressable(lanes, NAMED, PAIR)
  {
    assert PAIR[0] == NAMED;
  }

  /** A pane addressed by its explicit name is mistaken for the pane in another lane whose session id that name is. */
  lemma ShadowedHandle(lanes: Lanes)
    requires FiltersLabel(lanes, "a", PAIR)
    ensures Addressable(lanes, NAMED, PAIR)
    ensures Resolve({"codex"}, lanes, Render({"codex"}, NAMED, PAIR), None, PAIR) == Some([SHADOW])
  {
    NamedIsAddressable(lanes);
    NamedIsShadowed();
    RenderedMention({"codex"}, lanes, NAMED, None, PAIR);
    NamedAlone();
    ShadowFound(lanes);
  }

  lemma ShadowFound(lanes: Lanes)
    ensures ResolveMention(lanes, NameOrSession("x"), Some("a"), PAIR) == Some([SHADOW])
  {
    assert PAIR[1] == SHADOW;
    FilterOne(PAIR, HasSession("x"), SHADOW);
  }

  // ----- A stray handle -----

  const LONER := Pane("tmux:1", Some("s"), None, "codex", None, Some("a"), true, None, None)
  const INSIDER := Pane("tmux:2", Some("abc"), Some("foo"), "codex", None, None, false, None, None)
  const ROOM := [LONER, INSIDER]

  lemma LonerNamed()
    ensures Classify({"codex"}, "a") == NameOrSession("a")
    ensures ResolvesIn({"codex"}, "a", ROOM, LONER)
  {
    assert LastIndexOf("a", '-').None? by {
      assert "a"[..0] == "";
    }
    assert ROOM[0] == LONER && LONER in ROOM && TierMatches(ExplicitNameTier, NameOrSession("a"), LONER);
    FilterNone(ROOM, HasSession("a"));
    assert !AnyMatches(RoleTier, NameOrSession("a"), ROOM) && AnyMatches(ExplicitNameTier, NameOrSession("a"), ROOM);
    FilterOne(ROOM, Matches(ExplicitNameTier, NameOrSession("a")), LONER);
  }

  lemma LonerWord()
    ensures FirstResolving({"codex"}, HandleWords(LONER, false), ROOM, LONER) == Some("a")
  {
    LonerNamed();
    var words := HandleWords(LONER, false);
    assert words[0].None? && words[1..][0] == Some("a");
    assert FirstResolving({"codex"}, words[1..], ROOM, LONER) == Some("a");
  }

  lemma LonerRendered()
    ensures Render({"codex"}, LONER, ROOM) == "@a"
  {
    FilterAll(ROOM, SameLabel(None));
    LonerWord();
  }

  lemma InsiderSelected()
    ensures Select(NameOrSession("a"), [INSIDER]) == [INSIDER]
  {
    InsiderTier();
    FilterSingle(INSIDER, Matches(SessionTier, NameOrSession("a")));
    assert ExactSession(NameOrSession("a"), [INSIDER]) == [] by {
      FilterNone([INSIDER], HasSession("a"));
    }
  }

  lemma InsiderTier()
    ensures WinningTier(NameOrSession("a"), [INSIDER]) == SessionTier
    ensures TierMatches(SessionTier, NameOrSession("a"), INSIDER)
  {
  }

  lemma InsiderResolved(lanes: Lanes)
    requires FiltersLabel(lanes, "foo", ROOM)
    ensures ResolveMention(lanes, NameOrSession("a"), Some("foo"), ROOM) == Some([INSIDER])
  {
    assert ROOM[1] == INSIDER;
    FilterOne(ROOM, InChannel(lanes, Some("foo")), INSIDER);
    NoSession(lanes, "a", Some("foo"), ROOM);
    InsiderSelected();
  }

  lemma LonerAddressable(lanes: Lanes)
    ensures Addressable(lanes, LONER, ROOM)
  {
    assert ROOM[0] == LONER;
  }

  /** A pane without a lane, addressed by its name from inside a lane, is mistaken for a session id there. */
  lemma StrayHandle(lanes: Lanes)
    requires FiltersLabel(lanes, "foo", ROOM)
    ensures Addressable(lanes, LONER, ROOM)
    ensures Resolve({"codex"}, lanes, Render({"codex"}, LONER, ROOM), Some("foo"), ROOM) == Some([INSIDER])
  {
    LonerAddressable(lanes);
    LonerRendered();
    LonerNamed();
    var word := "a";
    ParseBare({"codex"}, word);
    assert "@" + word == "@a";
    InsiderResolved(lanes);
  }
}
