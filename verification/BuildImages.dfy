/** Whole images described by what they hold and where, and the identity the parsers read back from them. */
module BuildImages {
  import opened Prelude
  import opened BuildId
  import opened BuildNotes

  /** The image holds these bytes at this offset. */
  predicate HoldsAt(image: seq<Byte>, at: nat, bytes: seq<Byte>) {
    at + |bytes| <= |image| && image[at..at + |bytes|] == bytes
  }

  lemma HeldRead(image: seq<Byte>, at: nat, n: nat, width: nat, endian: Endian)
    requires HoldsAt(image, at, Digits(n, width, endian)) && n < Pow256(width) && |image| <= USIZE_MAX
    ensures ReadAt(image, at, width, endian) == Some(n)
  {
    ValueOfDigits(n, width, endian);
    BytesRead(image, at, Digits(n, width, endian), endian);
  }

  lemma BytesRead(image: seq<Byte>, at: nat, bytes: seq<Byte>, endian: Endian)
    requires HoldsAt(image, at, bytes) && |image| <= USIZE_MAX
    ensures ReadAt(image, at, |bytes|, endian) == Some(Value(bytes, endian))
  {
  }

  lemma PartsHeld(image: seq<Byte>, at: nat, a: seq<Byte>, b: seq<Byte>, c: seq<Byte>)
    requires HoldsAt(image, at, a + b + c)
    ensures HoldsAt(image, at, a) && HoldsAt(image, at + |a|, b) && HoldsAt(image, at + |a| + |b|, c)
  {
    var all, held := a + b + c, image[at..at + |a + b + c|];
    assert image[at..at + |a|] == held[..|a|] && all[..|a|] == a;
    assert image[at + |a|..at + |a| + |b|] == held[|a|..|a| + |b|] && all[|a|..|a| + |b|] == b;
    assert image[at + |a| + |b|..at + |all|] == held[|a| + |b|..] && all[|a| + |b|..] == c;
  }

  lemma Powers()
    ensures Pow256(2) == 0x1_0000 && Pow256(4) == WORD && Pow256(8) == USIZE_MAX + 1
  {
    assert Pow256(3) == 256 * Pow256(2) && Pow256(5) == 256 * Pow256(4);
    assert Pow256(6) == 256 * Pow256(5) && Pow256(7) == 256 * Pow256(6);
  }

  // ----- Mach-O -----

  datatype LoadCommand = LoadCommand(cmd: nat, body: seq<Byte>)

  function CommandBytes(command: LoadCommand, endian: Endian): seq<Byte> {
    Digits(command.cmd, 4, endian) + Digits(8 + |command.body|, 4, endian) + command.body
  }

  /** Every command fits its words. */
  predicate Fitting(commands: seq<LoadCommand>) {
    |commands| < WORD && forall i | 0 <= i < |commands| :: commands[i].cmd < WORD && 8 + |commands[i].body| < WORD
  }

  /** The UUID of the first UUID command, unless that command is too short to hold one. */
  function FirstUuid(commands: seq<LoadCommand>): Option<seq<Byte>> {
    if commands == [] then None
    else if commands[0].cmd != LC_UUID then FirstUuid(commands[1..])
    else if |commands[0].body| < 16 then None
    else Some(commands[0].body[..16])
  }

  /** The commands lie end to end from this offset. */
  predicate HoldsCommands(image: seq<Byte>, at: nat, commands: seq<LoadCommand>, endian: Endian)
    decreases |commands|
  {
    commands != [] ==>
      && HoldsAt(image, at, CommandBytes(commands[0], endian))
      && HoldsCommands(image, at + 8 + |commands[0].body|, commands[1..], endian)
  }

  function MachoMagic(endian: Endian, wide: bool): seq<Byte> {
    match endian
    case Big => [0xFE, 0xED, 0xFA, if wide then 0xCF else 0xCE]
    case Little => [if wide then 0xCF else 0xCE, 0xFA, 0xED, 0xFE]
  }

  /** A Mach-O image with these load commands after its header, whatever else it holds. */
  predicate IsMacho(image: seq<Byte>, endian: Endian, wide: bool, commands: seq<LoadCommand>) {
    && |image| <= USIZE_MAX && Fitting(commands) && HoldsAt(image, 0, MachoMagic(endian, wide))
    && HoldsAt(image, 0x10, Digits(|commands|, 4, endian))
    && HoldsCommands(image, if wide then 32 else 28, commands, endian)
  }

  lemma CommandRead(image: seq<Byte>, at: nat, command: LoadCommand, endian: Endian)
    requires HoldsAt(image, at, CommandBytes(command, endian)) && |image| <= USIZE_MAX
    requires command.cmd < WORD && 8 + |command.body| < WORD
    ensures CommandAt(image, at, endian) == Some((command.cmd, at + 8 + |command.body|))
    ensures HoldsAt(image, at + 8, command.body)
  {
    PartsHeld(image, at, Digits(command.cmd, 4, endian), Digits(8 + |command.body|, 4, endian), command.body);
    Powers();
    HeldRead(image, at, command.cmd, 4, endian);
    HeldRead(image, at + 4, 8 + |command.body|, 4, endian);
  }

  lemma UuidRead(image: seq<Byte>, at: nat, body: seq<Byte>)
    requires HoldsAt(image, at + 8, body) && |image| <= USIZE_MAX
    ensures UuidAt(image, at, at + 8 + |body|) == if |body| < 16 then None else Some(body[..16])
  {
    if at + 24 <= at + 8 + |body| {
      assert image[at + 8..at + 24] == image[at + 8..at + 8 + |body|][..16];
    }
  }

  lemma MachoStep(image: seq<Byte>, at: nat, left: nat, endian: Endian, cmd: nat, end: nat)
    requires left > 0 && CommandAt(image, at, endian) == Some((cmd, end))
    ensures MachoFrom(image, at, left, endian) ==
            if cmd == LC_UUID then UuidAt(image, at, end) else MachoFrom(image, end, left - 1, endian)
  {
  }

  lemma {:induction false} CommandsRead(image: seq<Byte>, at: nat, commands: seq<LoadCommand>, endian: Endian)
    requires |image| <= USIZE_MAX && Fitting(commands) && HoldsCommands(image, at, commands, endian)
    ensures MachoFrom(image, at, |commands|, endian) == FirstUuid(commands)
    decreases |commands|
  {
    if commands != [] {
      var first, next := commands[0], at + 8 + |commands[0].body|;
      CommandRead(image, at, first, endian);
      MachoStep(image, at, |commands|, endian, first.cmd, next);
      if first.cmd == LC_UUID {
        UuidRead(image, at, first.body);
      } else {
        FittingRest(commands);
        CommandsRead(image, next, commands[1..], endian);
      }
    }
  }

  lemma FittingRest(commands: seq<LoadCommand>)
    requires Fitting(commands) && commands != []
    ensures Fitting(commands[1..])
  {
    forall i | 0 <= i < |commands[1..]| ensures commands[1..][i].cmd < WORD && 8 + |commands[1..][i].body| < WORD {
      assert commands[1..][i] == commands[i + 1];
    }
  }

  /** Every Mach-O image is read back to the UUID of its first UUID command. */
  lemma MachoRoundTrip(image: seq<Byte>, endian: Endian, wide: bool, commands: seq<LoadCommand>)
    requires IsMacho(image, endian, wide, commands)
    ensures ImageId(image) == FirstUuid(commands)
  {
    Powers();
    HeldRead(image, 0x10, |commands|, 4, endian);
    CommandsRead(image, if wide then 32 else 28, commands, endian);
    assert image[..4] == image[0..4] == MachoMagic(endian, wide);
  }

  // ----- ELF -----

  /** A program header and, if it describes notes, the notes it points to. */
  datatype Segment = Segment(kind: nat, offset: nat, notes: seq<Note>)

  datatype Elf = Elf(wide: bool, endian: Endian, phoff: nat, phentsize: nat, segments: seq<Segment>)

  function Width(wide: bool): nat {
    if wide then 8 else 4
  }

  function HeaderLength(wide: bool): nat {
    if wide then 0x28 else 0x14
  }

  /** The build id of the first note segment that has one. */
  function FirstSegmentId(segments: seq<Segment>): Option<seq<Byte>> {
    if segments == [] then None
    else if segments[0].kind == PT_NOTE && FirstBuildId(segments[0].notes).Some? then FirstBuildId(segments[0].notes)
    else FirstSegmentId(segments[1..])
  }

  /** The image holds the notes of a segment, and its program header at `at` says where. */
  predicate HoldsNotes(image: seq<Byte>, at: nat, segment: Segment, wide: bool, endian: Endian) {
    var bytes := EncodedAll(segment.notes, endian);
    && AllPadded(segment.notes) && segment.offset < Pow256(Width(wide)) && |bytes| < Pow256(Width(wide))
    && HoldsAt(image, at + (if wide then 8 else 4), Digits(segment.offset, Width(wide), endian))
    && HoldsAt(image, at + (if wide then 0x20 else 0x10), Digits(|bytes|, Width(wide), endian))
    && HoldsAt(image, segment.offset, bytes)
  }

  predicate HoldsSegment(image: seq<Byte>, at: nat, segment: Segment, wide: bool, endian: Endian) {
    && at + HeaderLength(wide) <= |image| && segment.kind < WORD && HoldsAt(image, at, Digits(segment.kind, 4, endian))
    && (segment.kind == PT_NOTE ==> HoldsNotes(image, at, segment, wide, endian))
  }

  predicate HoldsSegmentAt(image: seq<Byte>, elf: Elf, i: nat)
    requires i < |elf.segments|
  {
    HoldsSegment(image, elf.phoff + i * elf.phentsize, elf.segments[i], elf.wide, elf.endian)
  }

  /** The magic, the class and the byte order. */
  function Ident(elf: Elf): seq<Byte> {
    [0x7F, 0x45, 0x4C, 0x46, if elf.wide then 2 else 1, if elf.endian.Little? then 1 else 2]
  }

  /** An ELF image with these program headers and notes, wherever it keeps them and whatever else it holds. */
  predicate IsElf(image: seq<Byte>, elf: Elf) {
    && |image| + 3 <= USIZE_MAX && elf.phoff < Pow256(Width(elf.wide))
    && HeaderLength(elf.wide) <= elf.phentsize < 0x1_0000 && |elf.segments| < 0x1_0000
    && HoldsAt(image, 0, Ident(elf))
    && HoldsAt(image, if elf.wide then 0x20 else 0x1C, Digits(elf.phoff, Width(elf.wide), elf.endian))
    && HoldsAt(image, if elf.wide then 0x36 else 0x2A, Digits(elf.phentsize, 2, elf.endian))
    && HoldsAt(image, if elf.wide then 0x38 else 0x2C, Digits(|elf.segments|, 2, elf.endian))
    && forall i | 0 <= i < |elf.segments| :: HoldsSegmentAt(image, elf, i)
  }

  function ElfLayout(elf: Elf): Layout {
    Layout(elf.wide, elf.phoff, elf.phentsize, |elf.segments|,
           if elf.wide then 8 else 4, if elf.wide then 0x20 else 0x10, HeaderLength(elf.wide))
  }

  lemma IdentHeld(image: seq<Byte>, elf: Elf)
    requires HoldsAt(image, 0, Ident(elf))
    ensures |image| > 5 && image[4] == Ident(elf)[4] && image[5] == Ident(elf)[5]
    ensures image[..4] == [0x7F, 0x45, 0x4C, 0x46]
  {
    var held := image[0..0 + |Ident(elf)|];
    assert held == Ident(elf) && |held| == 6;
    assert image[4] == held[4] && image[5] == held[5];
    assert image[..4] == held[..4] == Ident(elf)[..4];
  }

  lemma LayoutRead(image: seq<Byte>, elf: Elf)
    requires IsElf(image, elf)
    ensures EndianOf(image) == Some(elf.endian) && LayoutOf(image, elf.endian) == Some(ElfLayout(elf))
    ensures image[..4] == [0x7F, 0x45, 0x4C, 0x46]
  {
    IdentHeld(image, elf);
    Powers();
    HeldRead(image, if elf.wide then 0x20 else 0x1C, elf.phoff, Width(elf.wide), elf.endian);
    HeldRead(image, if elf.wide then 0x36 else 0x2A, elf.phentsize, 2, elf.endian);
    HeldRead(image, if elf.wide then 0x38 else 0x2C, |elf.segments|, 2, elf.endian);
  }

  /** A field read in a slice is the field of the whole. */
  lemma SliceHolds(image: seq<Byte>, start: nat, end: nat, at: nat, bytes: seq<Byte>)
    requires start <= end <= |image| && at + |bytes| <= end - start && HoldsAt(image, start + at, bytes)
    ensures HoldsAt(image[start..end], at, bytes)
  {
    var slice := image[start..end];
    forall i | 0 <= i < |bytes| ensures slice[at..at + |bytes|][i] == bytes[i] {
      assert image[start + at..start + at + |bytes|][i] == bytes[i];
    }
  }

  lemma FieldRead(image: seq<Byte>, start: nat, end: nat, at: nat, n: nat, width: nat, endian: Endian)
    requires start <= end <= |image| <= USIZE_MAX && at + width <= end - start && n < Pow256(width)
    requires HoldsAt(image, start + at, Digits(n, width, endian))
    ensures ReadAt(image[start..end], at, width, endian) == Some(n)
  {
    SliceHolds(image, start, end, at, Digits(n, width, endian));
    HeldRead(image[start..end], at, n, width, endian);
  }

  lemma NotesRead(image: seq<Byte>, at: nat, segment: Segment, elf: Elf)
    requires HoldsSegment(image, at, segment, elf.wide, elf.endian) && |image| + 3 <= USIZE_MAX
    ensures NotesOf(image, image[at..at + HeaderLength(elf.wide)], ElfLayout(elf), elf.endian) ==
            Some(if segment.kind == PT_NOTE then Some(EncodedAll(segment.notes, elf.endian)) else None)
  {
    var end, width := at + HeaderLength(elf.wide), Width(elf.wide);
    Powers();
    FieldRead(image, at, end, 0, segment.kind, 4, elf.endian);
    if segment.kind == PT_NOTE {
      FieldRead(image, at, end, ElfLayout(elf).offsetAt, segment.offset, width, elf.endian);
      FieldRead(image, at, end, ElfLayout(elf).fileszAt, |EncodedAll(segment.notes, elf.endian)|, width, elf.endian);
    }
  }

  lemma SegmentRead(image: seq<Byte>, elf: Elf, i: nat)
    requires |image| + 3 <= USIZE_MAX && i < |elf.segments| && HoldsSegmentAt(image, elf, i)
    ensures var segment := elf.segments[i];
            SegmentAt(image, ElfLayout(elf), i, elf.endian) ==
            Some(if segment.kind == PT_NOTE then Some(EncodedAll(segment.notes, elf.endian)) else None)
  {
    NotesRead(image, elf.phoff + i * elf.phentsize, elf.segments[i], elf);
  }

  lemma {:induction false} SegmentsRead(image: seq<Byte>, elf: Elf, i: nat)
    requires |image| + 3 <= USIZE_MAX && i <= |elf.segments|
    requires forall j | i <= j < |elf.segments| :: HoldsSegmentAt(image, elf, j)
    ensures ElfFrom(image, ElfLayout(elf), i, elf.endian) == FirstSegmentId(elf.segments[i..])
    decreases |elf.segments| - i
  {
    if i < |elf.segments| {
      assert HoldsSegmentAt(image, elf, i);
      SegmentRead(image, elf, i);
      var segment := elf.segments[i];
      if segment.kind == PT_NOTE {
        NotesRoundTrip(segment.notes, elf.endian);
      }
      SegmentsRead(image, elf, i + 1);
      assert elf.segments[i..][1..] == elf.segments[i + 1..];
    }
  }

  /** Every ELF image is read back to the build id of the first note segment that has one. */
  lemma ElfRoundTrip(image: seq<Byte>, elf: Elf)
    requires IsElf(image, elf)
    ensures ImageId(image) == FirstSegmentId(elf.segments)
  {
    LayoutRead(image, elf);
    SegmentsRead(image, elf, 0);
    assert elf.segments[0..] == elf.segments;
  }
}
