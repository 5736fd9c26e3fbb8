/**
  A topology travels in the wake command's arguments as repeated chunks of bounded size. Text is
  its bytes, well formed as section 4 of RFC 3629 defines.
 */
module WireChunks {
  import opened Prelude

  type Bytes = seq<Byte>

  const TOPOLOGY_ARG_CHUNK_BYTES: nat := 64 * 1024
  const TOPOLOGY_MAX_BYTES: nat := 1024 * 1024
  /** A chunk that is not the last gives up at most three bytes to end between characters. */
  const LEAST_CHUNK: nat := TOPOLOGY_ARG_CHUNK_BYTES - 3

  // ----- UTF-8 -----

  predicate Tail(b: Byte) {
    0x80 <= b <= 0xBF
  }

  predicate Tails(text: Bytes, start: nat, end: nat) {
    end <= |text| && forall j | start <= j < end :: Tail(text[j])
  }

  /** The length of the character at an index; none where no well-formed character starts. */
  function CharAt(text: Bytes, i: nat): (r: Option<nat>)
    ensures r.Some? ==> 1 <= r.value <= 4 && i + r.value <= |text| && !Tail(text[i]) && Tails(text, i + 1, i + r.value)
  {
    if i >= |text| then None
    else
      var a := text[i];
      if a <= 0x7F then Some(1)
      else if 0xC2 <= a <= 0xDF && Tails(text, i + 1, i + 2) then Some(2)
      else if 0xE0 <= a <= 0xEF && Tails(text, i + 1, i + 3)
              && (a == 0xE0 ==> text[i + 1] >= 0xA0) && (a == 0xED ==> text[i + 1] <= 0x9F) then Some(3)
      else if 0xF0 <= a <= 0xF4 && Tails(text, i + 1, i + 4)
              && (a == 0xF0 ==> text[i + 1] >= 0x90) && (a == 0xF4 ==> text[i + 1] <= 0x8F) then Some(4)
      else None
  }

  /** The bytes from an index on are whole characters. */
  predicate Utf8From(text: Bytes, i: nat)
    decreases |text| - i
  {
    i == |text| || (CharAt(text, i).Some? && Utf8From(text, i + CharAt(text, i).value))
  }

  predicate Utf8(text: Bytes) {
    Utf8From(text, 0)
  }

  /** `str::is_char_boundary`. */
  predicate Boundary(text: Bytes, i: nat) {
    i == 0 || i == |text| || (i < |text| && !Tail(text[i]))
  }

  // ----- Chunks -----

  /** The last boundary at or before an index. */
  function CutBefore(text: Bytes, end: nat): (cut: nat)
    ensures cut <= end && Boundary(text, cut)
    ensures forall b | cut < b <= end :: !Boundary(text, b)
  {
    if Boundary(text, end) then end else CutBefore(text, end - 1)
  }

  function ChunkEnd(text: Bytes, start: nat): (end: nat)
    ensures end <= Min(start + TOPOLOGY_ARG_CHUNK_BYTES, |text|) && Boundary(text, end)
  {
    CutBefore(text, Min(start + TOPOLOGY_ARG_CHUNK_BYTES, |text|))
  }

  /** The chunks of the bytes from an index on; none where a chunk would make no progress. */
  function Chunks(text: Bytes, start: nat): seq<Bytes>
    decreases |text| - start
  {
    if start >= |text| || ChunkEnd(text, start) <= start then []
    else [text[start..ChunkEnd(text, start)]] + Chunks(text, ChunkEnd(text, start))
  }

  /** A boundary at or after a character start is a character start. */
  lemma {:induction false} BoundaryStartsChar(text: Bytes, i: nat, b: nat)
    requires Utf8From(text, i) && i <= b <= |text| && Boundary(text, b)
    ensures Utf8From(text, b)
    decreases b - i
  {
    if i < b {
      BoundaryStartsChar(text, i + CharAt(text, i).value, b);
    }
  }

  lemma CharStartIsBoundary(text: Bytes, i: nat)
    requires Utf8From(text, i)
    ensures Boundary(text, i)
  {
  }

  /** A cut gives up at most three bytes. */
  lemma {:induction false} CutIsNear(text: Bytes, i: nat, end: nat)
    requires Utf8From(text, i) && i + 4 <= end <= |text|
    ensures CutBefore(text, end) + 3 >= end
    decreases end - i
  {
    var next := i + CharAt(text, i).value;
    CharStartIsBoundary(text, next);
    if next + 4 <= end {
      CutIsNear(text, next, end);
    }
  }

  /** Every chunk makes progress and ends where a character starts. */
  lemma ChunkProgress(text: Bytes, start: nat)
    requires Utf8From(text, start) && start < |text|
    ensures var end := ChunkEnd(text, start);
            && start < end && Utf8From(text, end)
            && (end < |text| ==> start + LEAST_CHUNK <= end)
  {
    var end := Min(start + TOPOLOGY_ARG_CHUNK_BYTES, |text|);
    if end < |text| {
      CutIsNear(text, start, end);
    }
    BoundaryStartsChar(text, start, ChunkEnd(text, start));
  }

  lemma {:induction false} SliceIsUtf8(text: Bytes, start: nat, end: nat, i: nat)
    requires Utf8From(text, start + i) && Utf8From(text, end) && start + i <= end <= |text|
    ensures Utf8From(text[start..end], i)
    decreases end - start - i
  {
    var slice := text[start..end];
    if start + i < end {
      var k := CharAt(text, start + i).value;
      CharStartIsBoundary(text, end);
      assert start + i + k <= end;
      assert forall j | i <= j < i + k :: slice[j] == text[start + j];
      assert CharAt(slice, i) == Some(k);
      SliceIsUtf8(text, start, end, i + k);
    }
  }

  function Concat(chunks: seq<Bytes>): Bytes {
    if chunks == [] then [] else chunks[0] + Concat(chunks[1..])
  }

  /** A chunk as the host accepts it. */
  predicate Fits(chunk: Bytes) {
    chunk != [] && |chunk| <= TOPOLOGY_ARG_CHUNK_BYTES && Utf8(chunk)
  }

  lemma ChunksNext(text: Bytes, start: nat)
    requires Utf8From(text, start) && start < |text|
    ensures var end := ChunkEnd(text, start);
            && start < end && Chunks(text, start) == [text[start..end]] + Chunks(text, end)
            && Fits(text[start..end]) && Utf8From(text, end)
  {
    ChunkProgress(text, start);
    SliceIsUtf8(text, start, ChunkEnd(text, start), 0);
  }

  lemma {:induction false} ChunksFit(text: Bytes, start: nat)
    requires Utf8From(text, start)
    ensures Concat(Chunks(text, start)) == text[start..]
    ensures forall i | 0 <= i < |Chunks(text, start)| :: Fits(Chunks(text, start)[i])
    decreases |text| - start
  {
    if start < |text| {
      ChunksNext(text, start);
      var end := ChunkEnd(text, start);
      ChunksFit(text, end);
      assert Chunks(text, start)[1..] == Chunks(text, end);
      assert text[start..] == text[start..end] + text[end..];
    }
  }

  lemma {:induction false} ChunksAreFew(text: Bytes, start: nat)
    requires Utf8From(text, start) && start < |text|
    ensures (|Chunks(text, start)| - 1) * LEAST_CHUNK < |text| - start
    decreases |text| - start
  {
    ChunksNext(text, start);
    ChunkProgress(text, start);
    var end := ChunkEnd(text, start);
    if end < |text| {
      ChunksAreFew(text, end);
    }
  }

  /**
    For every UTF-8 text up to the ceiling the chunks concatenate to the text, each is non-empty,
    at most 64 KiB and whole characters, and there are at most seventeen.
   */
  lemma ChunkingIsLossless(text: Bytes)
    requires Utf8(text) && |text| <= TOPOLOGY_MAX_BYTES
    ensures Concat(Chunks(text, 0)) == text
    ensures forall i | 0 <= i < |Chunks(text, 0)| :: Fits(Chunks(text, 0)[i])
    ensures |Chunks(text, 0)| <= 17
  {
    ChunksFit(text, 0);
    if text != [] {
      ChunksAreFew(text, 0);
    }
  }

  // ----- The command line -----

  /** The arguments of a chunk list: the flag before every chunk. */
  function Flagged(flag: Bytes, chunks: seq<Bytes>): seq<Bytes> {
    if chunks == [] then [] else [flag, chunks[0]] + Flagged(flag, chunks[1..])
  }

  /** The values that follow the flag, joined again. */
  function Collected(args: seq<Bytes>): Bytes {
    if |args| < 2 then [] else args[1] + Collected(args[2..])
  }

  lemma {:induction false} CollectedFlagged(flag: Bytes, chunks: seq<Bytes>)
    ensures Collected(Flagged(flag, chunks)) == Concat(chunks)
  {
    if chunks != [] {
      CollectedFlagged(flag, chunks[1..]);
      var args := Flagged(flag, chunks);
      assert args[2..] == Flagged(flag, chunks[1..]);
    }
  }

  lemma {:induction false} FlaggedExtends(flag: Bytes, chunks: seq<Bytes>, chunk: Bytes)
    ensures Flagged(flag, chunks + [chunk]) == Flagged(flag, chunks) + [flag, chunk]
  {
    if chunks != [] {
      FlaggedExtends(flag, chunks[1..], chunk);
      assert (chunks + [chunk])[1..] == chunks[1..] + [chunk];
    }
  }

  method LastBoundary(text: Bytes, end: nat) returns (cut: nat)
    ensures cut == CutBefore(text, end)
  {
    cut := end;
    while !Boundary(text, cut)
      invariant CutBefore(text, cut) == CutBefore(text, end)
      decreases cut
    {
      cut := cut - 1;
    }
  }

  lemma FlaggedNext(argv: seq<Bytes>, flag: Bytes, pushed: seq<Bytes>, chunk: Bytes, rest: seq<Bytes>)
    ensures argv + Flagged(flag, pushed) + [flag, chunk] == argv + Flagged(flag, pushed + [chunk])
    ensures pushed + ([chunk] + rest) == pushed + [chunk] + rest
  {
    FlaggedExtends(flag, pushed, chunk);
  }

  lemma TopologyCollected(argv: seq<Bytes>, flag: Bytes, topology: Bytes)
    requires Utf8(topology) && |topology| <= TOPOLOGY_MAX_BYTES
    ensures Collected((argv + Flagged(flag, Chunks(topology, 0)))[|argv|..]) == topology
  {
    ChunkingIsLossless(topology);
    CollectedFlagged(flag, Chunks(topology, 0));
    assert (argv + Flagged(flag, Chunks(topology, 0)))[|argv|..] == Flagged(flag, Chunks(topology, 0));
  }

  /** The topology arguments appended to a wake's command line; a topology beyond the ceiling is left out. */
  method PushTopology(argv: seq<Bytes>, flag: Bytes, topology: Bytes) returns (out: seq<Bytes>)
    requires Utf8(topology)
    ensures argv <= out
    ensures Collected(out[|argv|..]) == if |topology| <= TOPOLOGY_MAX_BYTES then topology else []
    ensures |topology| <= TOPOLOGY_MAX_BYTES ==> out == argv + Flagged(flag, Chunks(topology, 0))
  {
    out := argv;
    if |topology| > TOPOLOGY_MAX_BYTES {
      return;
    }
    ghost var pushed: seq<Bytes> := [];
    var start := 0;
    while start < |topology|
      invariant start <= |topology| && Utf8From(topology, start)
      invariant out == argv + Flagged(flag, pushed)
      invariant pushed + Chunks(topology, start) == Chunks(topology, 0)
    {
      ChunksNext(topology, start);
      var end := LastBoundary(topology, Min(start + TOPOLOGY_ARG_CHUNK_BYTES, |topology|));
      FlaggedNext(argv, flag, pushed, topology[start..end], Chunks(topology, end));
      pushed := pushed + [topology[start..end]];
      out := out + [flag, topology[start..end]];
      start := end;
    }
    assert pushed == Chunks(topology, 0);
    TopologyCollected(argv, flag, topology);
  }
}
