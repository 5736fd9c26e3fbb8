/**
  The note section as a list of notes, laid out as chapter 5 "Note Section" of the System V gABI
  says: three words, the name and the descriptor, each padded to four bytes.
 */
module BuildNotes {
  import opened Prelude
  import opened BuildId

  const WORD: nat := 0x1_0000_0000

  datatype Note = Note(kind: nat, name: seq<Byte>, namePad: seq<Byte>, desc: seq<Byte>, descPad: seq<Byte>)

  // ----- Words -----

  function Digits(n: nat, width: nat, endian: Endian): (bytes: seq<Byte>)
    ensures |bytes| == width
  {
    if width == 0 then []
    else
      match endian
      case Little => [n % 256] + Digits(n / 256, width - 1, endian)
      case Big => Digits(n / 256, width - 1, endian) + [n % 256]
  }

  function Pow256(width: nat): nat {
    if width == 0 then 1 else 256 * Pow256(width - 1)
  }

  lemma {:induction false} ValueOfDigits(n: nat, width: nat, endian: Endian)
    requires n < Pow256(width)
    ensures Value(Digits(n, width, endian), endian) == n
  {
    if width > 0 {
      ValueOfDigits(n / 256, width - 1, endian);
      var bytes := Digits(n, width, endian);
      match endian {
        case Little => assert bytes[1..] == Digits(n / 256, width - 1, endian);
        case Big => assert bytes[..|bytes| - 1] == Digits(n / 256, width - 1, endian);
      }
    }
  }

  lemma DivMod(rest: nat, low: Byte)
    ensures (256 * rest + low) / 256 == rest && (256 * rest + low) % 256 == low
  {
  }

  lemma {:induction false} DigitsOfValue(bytes: seq<Byte>, endian: Endian)
    ensures Digits(Value(bytes, endian), |bytes|, endian) == bytes
    ensures Value(bytes, endian) < Pow256(|bytes|)
  {
    if bytes != [] {
      match endian {
        case Little =>
          DigitsOfValue(bytes[1..], endian);
          DivMod(Value(bytes[1..], endian), bytes[0]);
          assert bytes == [bytes[0]] + bytes[1..];
        case Big =>
          DigitsOfValue(bytes[..|bytes| - 1], endian);
          DivMod(Value(bytes[..|bytes| - 1], endian), bytes[|bytes| - 1]);
          assert bytes == bytes[..|bytes| - 1] + [bytes[|bytes| - 1]];
      }
    }
  }

  lemma WordRead(before: seq<Byte>, n: nat, after: seq<Byte>, endian: Endian)
    requires n < WORD && |before| + 4 <= USIZE_MAX
    ensures ReadAt(before + Digits(n, 4, endian) + after, |before|, 4, endian) == Some(n)
  {
    assert Pow256(4) == WORD;
    ValueOfDigits(n, 4, endian);
    assert (before + Digits(n, 4, endian) + after)[|before|..|before| + 4] == Digits(n, 4, endian);
  }

  // ----- Layout -----

  function PadLen(n: nat): nat {
    if n % 4 == 0 then 0 else 4 - n % 4
  }

  predicate Padded(note: Note) {
    && note.kind < WORD && |note.name| < WORD && |note.desc| < WORD
    && |note.namePad| == PadLen(|note.name|) && |note.descPad| == PadLen(|note.desc|)
  }

  function Encoded(note: Note, endian: Endian): seq<Byte> {
    Digits(|note.name|, 4, endian) + Digits(|note.desc|, 4, endian) + Digits(note.kind, 4, endian)
    + note.name + note.namePad + note.desc + note.descPad
  }

  function EncodedAll(notes: seq<Note>, endian: Endian): seq<Byte> {
    if notes == [] then [] else EncodedAll(notes[..|notes| - 1], endian) + Encoded(notes[|notes| - 1], endian)
  }

  predicate AllPadded(notes: seq<Note>) {
    forall i | 0 <= i < |notes| :: Padded(notes[i])
  }

  predicate Names(note: Note) {
    note.kind == NT_GNU_BUILD_ID && note.name == GNU
  }

  /** The descriptor of the first build-id note. */
  function FirstBuildId(notes: seq<Note>): Option<seq<Byte>> {
    if notes == [] then None else if Names(notes[0]) then Some(notes[0].desc) else FirstBuildId(notes[1..])
  }

  lemma PadAligns(start: nat, n: nat)
    requires start % 4 == 0 && start + n + 3 <= USIZE_MAX
    ensures Align4(start + n) == Some(start + n + PadLen(n))
    ensures (start + n + PadLen(n)) % 4 == 0
  {
  }

  /** What follows the words of a note. */
  function Tail(note: Note, after: seq<Byte>): seq<Byte> {
    note.name + note.namePad + note.desc + note.descPad + after
  }

  /** Where the words of a note lie, whatever they are. */
  lemma WordsLie(before: seq<Byte>, w1: seq<Byte>, w2: seq<Byte>, w3: seq<Byte>, note: Note, after: seq<Byte>)
    ensures var all := before + (w1 + w2 + w3 + note.name + note.namePad + note.desc + note.descPad) + after;
            && all == before + w1 + (w2 + w3 + Tail(note, after))
            && all == (before + w1) + w2 + (w3 + Tail(note, after))
            && all == (before + w1 + w2) + w3 + Tail(note, after)
  {
  }

  /** The three words of an encoded note. */
  lemma WordsRead(before: seq<Byte>, note: Note, after: seq<Byte>, endian: Endian)
    requires Padded(note) && |before| + 12 <= USIZE_MAX
    ensures var all := before + Encoded(note, endian) + after;
            && ReadAt(all, |before|, 4, endian) == Some(|note.name|)
            && ReadAt(all, |before| + 4, 4, endian) == Some(|note.desc|)
            && ReadAt(all, |before| + 8, 4, endian) == Some(note.kind)
  {
    var w1, w2, w3 := Digits(|note.name|, 4, endian), Digits(|note.desc|, 4, endian), Digits(note.kind, 4, endian);
    WordsLie(before, w1, w2, w3, note, after);
    WordRead(before, |note.name|, w2 + w3 + Tail(note, after), endian);
    WordRead(before + w1, |note.desc|, w3 + Tail(note, after), endian);
    WordRead(before + w1 + w2, note.kind, Tail(note, after), endian);
  }

  /** Where an encoded note's name and descriptor lie. */
  lemma FieldsRead(before: seq<Byte>, note: Note, after: seq<Byte>, endian: Endian)
    requires Padded(note)
    ensures var all, nameAt := before + Encoded(note, endian) + after, |before| + 12;
            var descAt := nameAt + |note.name| + |note.namePad|;
            && descAt + |note.desc| + |note.descPad| == |before + Encoded(note, endian)| <= |all|
            && all[nameAt..nameAt + |note.name|] == note.name && all[descAt..descAt + |note.desc|] == note.desc
  {
  }

  /** The fields the parser finds where they lie. */
  lemma FieldsFound(notes: seq<Byte>, nameAt: nat, name: seq<Byte>, desc: seq<Byte>)
    requires nameAt % 4 == 0 && |notes| + 3 <= USIZE_MAX
    requires var descAt := nameAt + |name| + PadLen(|name|);
             && descAt + |desc| + PadLen(|desc|) <= |notes|
             && notes[nameAt..nameAt + |name|] == name && notes[descAt..descAt + |desc|] == desc
    ensures var next := nameAt + |name| + PadLen(|name|) + |desc| + PadLen(|desc|);
            FieldsAt(notes, nameAt, |name|, |desc|) == Some((name, desc, next)) && next % 4 == 0
  {
    PadAligns(nameAt, |name|);
    PadAligns(nameAt + |name| + PadLen(|name|), |desc|);
  }

  lemma NoteParsed(notes: seq<Byte>, offset: nat, endian: Endian, namesz: nat, descsz: nat, header: Header)
    requires ReadAt(notes, offset, 4, endian) == Some(namesz) && ReadAt(notes, offset + 4, 4, endian) == Some(descsz)
    requires ReadAt(notes, offset + 8, 4, endian) == Some(header.kind)
    requires FieldsAt(notes, offset + 12, namesz, descsz) == Some((header.name, header.desc, header.next))
    ensures NoteAt(notes, offset, endian) == Some(header)
  {
  }

  /** The fields of an encoded note at an aligned offset. */
  lemma FieldsEncoded(before: seq<Byte>, note: Note, after: seq<Byte>, endian: Endian)
    requires Padded(note) && |before| % 4 == 0
    requires |before + Encoded(note, endian) + after| + 3 <= USIZE_MAX
    ensures FieldsAt(before + Encoded(note, endian) + after, |before| + 12, |note.name|, |note.desc|) ==
            Some((note.name, note.desc, |before + Encoded(note, endian)|))
  {
    FieldsRead(before, note, after, endian);
    FieldsFound(before + Encoded(note, endian) + after, |before| + 12, note.name, note.desc);
  }

  /** The parser reads back an encoded note at an aligned offset. */
  lemma NoteRead(before: seq<Byte>, note: Note, after: seq<Byte>, endian: Endian)
    requires Padded(note) && |before| % 4 == 0
    requires |before + Encoded(note, endian) + after| + 3 <= USIZE_MAX
    ensures NoteAt(before + Encoded(note, endian) + after, |before|, endian) ==
            Some(Header(note.kind, note.name, note.desc, |before + Encoded(note, endian)|))
  {
    FieldsEncoded(before, note, after, endian);
    assert |before| + 12 <= USIZE_MAX by {
      FieldsRead(before, note, after, endian);
    }
    WordsRead(before, note, after, endian);
    NoteParsed(before + Encoded(note, endian) + after, |before|, endian, |note.name|, |note.desc|,
               Header(note.kind, note.name, note.desc, |before + Encoded(note, endian)|));
  }

  // ----- Round trip -----

  /** The note after the first `k` notes, as the parser meets it. */
  lemma NoteInList(notes: seq<Note>, k: nat, endian: Endian)
    requires AllPadded(notes) && k < |notes| && |EncodedAll(notes, endian)| + 3 <= USIZE_MAX
    ensures var offset := |EncodedAll(notes[..k], endian)|;
            && offset < |EncodedAll(notes, endian)|
            && NoteAt(EncodedAll(notes, endian), offset, endian) ==
               Some(Header(notes[k].kind, notes[k].name, notes[k].desc, |EncodedAll(notes[..k + 1], endian)|))
  {
    AlignedAll(notes[..k], endian);
    var after := EncodedSplit(notes, k + 1, endian);
    assert notes[..k + 1][..k] == notes[..k];
    EncodedAligned(notes[k], endian);
    NoteRead(EncodedAll(notes[..k], endian), notes[k], after, endian);
  }

  /** Scanning from after the first `k` notes finds the first build id among the rest. */
  lemma {:induction false} ScanFrom(notes: seq<Note>, k: nat, endian: Endian)
    requires AllPadded(notes) && k <= |notes| && |EncodedAll(notes, endian)| + 3 <= USIZE_MAX
    ensures Scan(EncodedAll(notes, endian), |EncodedAll(notes[..k], endian)|, endian) == FirstBuildId(notes[k..])
    decreases |notes| - k
  {
    if k == |notes| {
      assert notes[..k] == notes;
    } else {
      NoteInList(notes, k, endian);
      ScanFrom(notes, k + 1, endian);
      assert notes[k..][1..] == notes[k + 1..];
    }
  }

  lemma {:induction false} AlignedAll(notes: seq<Note>, endian: Endian)
    requires AllPadded(notes)
    ensures |EncodedAll(notes, endian)| % 4 == 0
  {
    if notes != [] {
      AlignedAll(notes[..|notes| - 1], endian);
      EncodedAligned(notes[|notes| - 1], endian);
      AlignedConcat(EncodedAll(notes[..|notes| - 1], endian), Encoded(notes[|notes| - 1], endian));
    }
  }

  lemma AlignedConcat(a: seq<Byte>, b: seq<Byte>)
    requires |a| % 4 == 0 && |b| % 4 == 0
    ensures |a + b| % 4 == 0
  {
  }

  lemma PadMultiple(n: nat)
    ensures (n + PadLen(n)) % 4 == 0
  {
  }

  lemma EncodedLength(note: Note, endian: Endian)
    requires Padded(note)
    ensures |Encoded(note, endian)| == 12 + (|note.name| + PadLen(|note.name|)) + (|note.desc| + PadLen(|note.desc|))
  {
  }

  lemma EncodedAligned(note: Note, endian: Endian)
    requires Padded(note)
    ensures |Encoded(note, endian)| % 4 == 0 && |Encoded(note, endian)| > 0
  {
    EncodedLength(note, endian);
    PadMultiple(|note.name|);
    PadMultiple(|note.desc|);
    SumMultiple(|note.name| + PadLen(|note.name|), |note.desc| + PadLen(|note.desc|));
  }

  lemma SumMultiple(a: nat, b: nat)
    requires a % 4 == 0 && b % 4 == 0
    ensures (12 + a + b) % 4 == 0
  {
  }

  lemma {:induction false} EncodedSplit(notes: seq<Note>, k: nat, endian: Endian) returns (after: seq<Byte>)
    requires k <= |notes|
    ensures EncodedAll(notes, endian) == EncodedAll(notes[..k], endian) + after
    decreases |notes|
  {
    if k == |notes| {
      after := [];
      assert notes[..k] == notes;
    } else {
      var init := notes[..|notes| - 1];
      var more := EncodedSplit(init, k, endian);
      after := more + Encoded(notes[|notes| - 1], endian);
      assert init[..k] == notes[..k];
    }
  }

  /** For every list of notes in either byte order, the scan finds the first build id or none. */
  lemma NotesRoundTrip(notes: seq<Note>, endian: Endian)
    requires AllPadded(notes) && |EncodedAll(notes, endian)| + 3 <= USIZE_MAX
    ensures Scan(EncodedAll(notes, endian), 0, endian) == FirstBuildId(notes)
  {
    ScanFrom(notes, 0, endian);
    assert notes[..0] == [] && notes[0..] == notes;
  }

  // ----- What any successful scan has read -----

  lemma FieldsStable(notes: seq<Byte>, more: seq<Byte>, nameAt: nat, namesz: nat, descsz: nat)
    requires notes <= more && FieldsAt(notes, nameAt, namesz, descsz).Some?
    ensures FieldsAt(more, nameAt, namesz, descsz) == FieldsAt(notes, nameAt, namesz, descsz)
  {
    GetStable(notes, more, nameAt, nameAt + namesz);
    var descAt := Align4(nameAt + namesz).value;
    GetStable(notes, more, descAt, descAt + descsz);
  }

  lemma NoteStable(notes: seq<Byte>, more: seq<Byte>, offset: nat, endian: Endian)
    requires notes <= more && NoteAt(notes, offset, endian).Some?
    ensures NoteAt(more, offset, endian) == NoteAt(notes, offset, endian)
  {
    ReadStable(notes, more, offset, 4, endian);
    ReadStable(notes, more, offset + 4, 4, endian);
    ReadStable(notes, more, offset + 8, 4, endian);
    FieldsStable(notes, more, offset + 12, ReadAt(notes, offset, 4, endian).value, ReadAt(notes, offset + 4, 4, endian).value);
  }

  lemma {:induction false} ScanStable(notes: seq<Byte>, more: seq<Byte>, offset: nat, endian: Endian)
    requires notes <= more && Scan(notes, offset, endian).Some?
    ensures Scan(more, offset, endian) == Scan(notes, offset, endian)
    decreases |notes| - offset
  {
    NoteStable(notes, more, offset, endian);
    var header := NoteAt(notes, offset, endian).value;
    if !IsBuildId(header) {
      ScanStable(notes, more, header.next, endian);
    }
  }

  lemma WordWas(bytes: seq<Byte>, offset: nat, endian: Endian)
    requires ReadAt(bytes, offset, 4, endian).Some?
    ensures offset + 4 <= |bytes|
    ensures var n := ReadAt(bytes, offset, 4, endian).value;
            n < WORD && bytes[offset..offset + 4] == Digits(n, 4, endian)
  {
    assert Pow256(4) == WORD;
    DigitsOfValue(bytes[offset..offset + 4], endian);
  }

  lemma FieldsWere(notes: seq<Byte>, nameAt: nat, namesz: nat, descsz: nat)
    requires FieldsAt(notes, nameAt, namesz, descsz).Some? && nameAt % 4 == 0
    ensures var (name, desc, next) := FieldsAt(notes, nameAt, namesz, descsz).value;
            var descAt := nameAt + namesz + PadLen(namesz);
            && next == descAt + descsz + PadLen(descsz) && next % 4 == 0
            && name == notes[nameAt..nameAt + namesz] && desc == notes[descAt..descAt + descsz]
  {
    PadAligns(nameAt, namesz);
    PadAligns(nameAt + namesz + PadLen(namesz), descsz);
  }

  /** The bytes a parsed note was read from. */
  lemma HeaderWas(notes: seq<Byte>, offset: nat, endian: Endian)
    requires NoteAt(notes, offset, endian).Some? && offset % 4 == 0
    ensures var h := NoteAt(notes, offset, endian).value;
            var n, d := |h.name|, |h.desc|;
            var descAt := offset + 12 + n + PadLen(n);
            && n < WORD && d < WORD && h.kind < WORD && h.next % 4 == 0
            && descAt + d + PadLen(d) == h.next <= |notes|
            && notes[offset..offset + 4] == Digits(n, 4, endian) && notes[offset + 4..offset + 8] == Digits(d, 4, endian)
            && notes[offset + 8..offset + 12] == Digits(h.kind, 4, endian)
            && notes[offset + 12..offset + 12 + n] == h.name && notes[descAt..descAt + d] == h.desc
  {
    WordWas(notes, offset, endian);
    WordWas(notes, offset + 4, endian);
    WordWas(notes, offset + 8, endian);
    FieldsWere(notes, offset + 12, ReadAt(notes, offset, 4, endian).value, ReadAt(notes, offset + 4, 4, endian).value);
  }

  /** A parsed note is the encoding of some note, whatever its padding holds. */
  lemma NoteWas(notes: seq<Byte>, offset: nat, endian: Endian) returns (note: Note)
    requires NoteAt(notes, offset, endian).Some? && offset % 4 == 0
    ensures var header := NoteAt(notes, offset, endian).value;
            && Padded(note) && notes[offset..header.next] == Encoded(note, endian)
            && note.kind == header.kind && note.name == header.name && note.desc == header.desc
            && header.next % 4 == 0
  {
    HeaderWas(notes, offset, endian);
    var h := NoteAt(notes, offset, endian).value;
    var nameEnd := offset + 12 + |h.name|;
    var descAt := nameEnd + PadLen(|h.name|);
    note := Note(h.kind, h.name, notes[nameEnd..descAt], h.desc, notes[descAt + |h.desc|..h.next]);
    EncodedFrom(notes, offset, note, h.next, endian);
  }

  /** Bytes that hold a note's words and fields in their places hold its encoding. */
  lemma EncodedFrom(bytes: seq<Byte>, offset: nat, note: Note, next: nat, endian: Endian)
    requires Padded(note)
    requires var nameEnd := offset + 12 + |note.name|;
             var descAt := nameEnd + |note.namePad|;
             var descEnd := descAt + |note.desc|;
             && descEnd + |note.descPad| == next <= |bytes|
             && bytes[offset..offset + 4] == Digits(|note.name|, 4, endian)
             && bytes[offset + 4..offset + 8] == Digits(|note.desc|, 4, endian)
             && bytes[offset + 8..offset + 12] == Digits(note.kind, 4, endian)
             && bytes[offset + 12..nameEnd] == note.name && bytes[nameEnd..descAt] == note.namePad
             && bytes[descAt..descEnd] == note.desc && bytes[descEnd..next] == note.descPad
    ensures bytes[offset..next] == Encoded(note, endian)
  {
    var nameEnd := offset + 12 + |note.name|;
    Pieces(bytes, offset, nameEnd, nameEnd + |note.namePad|, nameEnd + |note.namePad| + |note.desc|, next);
  }

  lemma Pieces(bytes: seq<Byte>, a: nat, nameEnd: nat, descAt: nat, descEnd: nat, b: nat)
    requires a + 12 <= nameEnd <= descAt <= descEnd <= b <= |bytes|
    ensures bytes[a..b] ==
            bytes[a..a + 4] + bytes[a + 4..a + 8] + bytes[a + 8..a + 12]
            + bytes[a + 12..nameEnd] + bytes[nameEnd..descAt] + bytes[descAt..descEnd] + bytes[descEnd..b]
  {
  }

  lemma {:induction false} FirstAfter(read: seq<Note>, note: Note)
    requires FirstBuildId(read).None?
    ensures FirstBuildId(read + [note]) == if Names(note) then Some(note.desc) else None
  {
    if read != [] {
      FirstAfter(read[1..], note);
      assert (read + [note])[1..] == read[1..] + [note];
    }
  }

  lemma ReadOneMore(bytes: seq<Byte>, read: seq<Note>, note: Note, offset: nat, next: nat, endian: Endian)
    requires offset <= next <= |bytes| && AllPadded(read) && Padded(note)
    requires bytes[..offset] == EncodedAll(read, endian) && bytes[offset..next] == Encoded(note, endian)
    ensures bytes[..next] == EncodedAll(read + [note], endian) && AllPadded(read + [note])
  {
    assert (read + [note])[..|read|] == read;
    assert bytes[..next] == bytes[..offset] + bytes[offset..next];
  }

  /** The notes a scan reads up to and including the build id. */
  lemma {:induction false} ScanRead(bytes: seq<Byte>, offset: nat, endian: Endian, read: seq<Note>) returns (notes: seq<Note>)
    requires Scan(bytes, offset, endian).Some? && offset % 4 == 0 && offset <= |bytes|
    requires AllPadded(read) && FirstBuildId(read).None? && bytes[..offset] == EncodedAll(read, endian)
    ensures AllPadded(notes) && EncodedAll(notes, endian) <= bytes
    ensures FirstBuildId(notes) == Scan(bytes, offset, endian)
    decreases |bytes| - offset
  {
    var note := NoteWas(bytes, offset, endian);
    var header := NoteAt(bytes, offset, endian).value;
    ReadOneMore(bytes, read, note, offset, header.next, endian);
    FirstAfter(read, note);
    notes := read + [note];
    if !IsBuildId(header) {
      notes := ScanRead(bytes, header.next, endian, notes);
    }
  }

  /** A scan finds a build id exactly when the bytes start with a list of notes that has it first. */
  lemma ScanFindsIff(bytes: seq<Byte>, desc: seq<Byte>, endian: Endian)
    requires |bytes| + 3 <= USIZE_MAX
    ensures Scan(bytes, 0, endian) == Some(desc) <==>
            exists notes :: AllPadded(notes) && EncodedAll(notes, endian) <= bytes && FirstBuildId(notes) == Some(desc)
  {
    if Scan(bytes, 0, endian) == Some(desc) {
      assert bytes[..0] == EncodedAll([], endian);
      var notes := ScanRead(bytes, 0, endian, []);
    }
    forall notes | AllPadded(notes) && EncodedAll(notes, endian) <= bytes && FirstBuildId(notes) == Some(desc)
      ensures Scan(bytes, 0, endian) == Some(desc)
    {
      NotesRoundTrip(notes, endian);
      ScanStable(EncodedAll(notes, endian), bytes, 0, endian);
    }
  }
}
