/**
  Build identity of an executable image: the GNU build-id note of an ELF image or the UUID
  command of a Mach-O image. Offsets are 64-bit and every addition is checked.
 */
module BuildId {
  import opened Prelude

  const USIZE_MAX: nat := 0xFFFF_FFFF_FFFF_FFFF
  const BUILD_ID_BYTES: nat := 6
  const IMAGE_PREFIX_LEN: nat := 0x10_0000
  const PT_NOTE: nat := 4
  const NT_GNU_BUILD_ID: nat := 3
  const GNU: seq<Byte> := [0x47, 0x4E, 0x55, 0x00]
  const LC_UUID: nat := 0x1B

  datatype Endian = Little | Big

  // ----- Readers -----

  function CheckedAdd(a: nat, b: nat): Option<nat> {
    if a + b <= USIZE_MAX then Some(a + b) else None
  }

  function Get(bytes: seq<Byte>, start: nat, end: nat): Option<seq<Byte>> {
    if start <= end <= |bytes| then Some(bytes[start..end]) else None
  }

  function Value(bytes: seq<Byte>, endian: Endian): nat {
    if bytes == [] then 0
    else
      match endian
      case Little => bytes[0] + 256 * Value(bytes[1..], endian)
      case Big => 256 * Value(bytes[..|bytes| - 1], endian) + bytes[|bytes| - 1]
  }

  function ReadAt(bytes: seq<Byte>, offset: nat, width: nat, endian: Endian): Option<nat> {
    var end :- CheckedAdd(offset, width);
    var field :- Get(bytes, offset, end);
    Some(Value(field, endian))
  }

  /** The next multiple of four. */
  function Align4(n: nat): Option<nat> {
    var end :- CheckedAdd(n, 3);
    Some(end - end % 4)
  }

  // ----- Notes -----

  datatype Header = Header(kind: nat, name: seq<Byte>, desc: seq<Byte>, next: nat)

  /** The name and descriptor that follow a note's three words, and the offset after them. */
  function FieldsAt(notes: seq<Byte>, nameAt: nat, namesz: nat, descsz: nat): (r: Option<(seq<Byte>, seq<Byte>, nat)>)
    ensures r.Some? ==> nameAt <= r.value.2 <= |notes|
  {
    var nameEnd :- CheckedAdd(nameAt, namesz);
    var name :- Get(notes, nameAt, nameEnd);
    var descAt :- Align4(nameEnd);
    var descEnd :- CheckedAdd(descAt, descsz);
    var desc :- Get(notes, descAt, descEnd);
    var next :- Align4(descEnd);
    if next > |notes| then None else Some((name, desc, next))
  }

  /** The note at an offset and the offset after it. */
  function NoteAt(notes: seq<Byte>, offset: nat, endian: Endian): (r: Option<Header>)
    ensures r.Some? ==> offset + 12 <= r.value.next <= |notes|
  {
    var namesz :- ReadAt(notes, offset, 4, endian);
    var descsz :- ReadAt(notes, offset + 4, 4, endian);
    var kind :- ReadAt(notes, offset + 8, 4, endian);
    var fields :- FieldsAt(notes, offset + 12, namesz, descsz);
    Some(Header(kind, fields.0, fields.1, fields.2))
  }

  predicate IsBuildId(header: Header) {
    header.kind == NT_GNU_BUILD_ID && header.name == GNU
  }

  function Scan(notes: seq<Byte>, offset: nat, endian: Endian): Option<seq<Byte>>
    decreases |notes| - offset
  {
    if offset >= |notes| then None
    else
      var header :- NoteAt(notes, offset, endian);
      if IsBuildId(header) then Some(header.desc) else Scan(notes, header.next, endian)
  }

  method FindGnuBuildId(notes: seq<Byte>, endian: Endian) returns (r: Option<seq<Byte>>)
    ensures r == Scan(notes, 0, endian)
  {
    var offset := 0;
    while offset < |notes|
      invariant offset <= |notes|
      invariant Scan(notes, offset, endian) == Scan(notes, 0, endian)
    {
      var header := NoteAt(notes, offset, endian);
      if header.None? {
        return None;
      }
      if IsBuildId(header.value) {
        return Some(header.value.desc);
      }
      offset := header.value.next;
    }
    return None;
  }

  // ----- ELF -----

  /** Where an ELF class keeps its program headers and their fields. */
  datatype Layout = Layout(
    wide: bool, phoff: nat, phentsize: nat, phnum: nat, offsetAt: nat, fileszAt: nat, required: nat)

  function LayoutOf(image: seq<Byte>, endian: Endian): Option<Layout> {
    if |image| <= 4 then None
    else if image[4] == 1 then
      var phoff :- ReadAt(image, 0x1C, 4, endian);
      var phentsize :- ReadAt(image, 0x2A, 2, endian);
      var phnum :- ReadAt(image, 0x2C, 2, endian);
      Some(Layout(false, phoff, phentsize, phnum, 4, 0x10, 0x14))
    else if image[4] == 2 then
      var phoff :- ReadAt(image, 0x20, 8, endian);
      var phentsize :- ReadAt(image, 0x36, 2, endian);
      var phnum :- ReadAt(image, 0x38, 2, endian);
      Some(Layout(true, phoff, phentsize, phnum, 8, 0x20, 0x28))
    else None
  }

  function EndianOf(image: seq<Byte>): Option<Endian> {
    if |image| <= 5 then None else if image[5] == 1 then Some(Little) else if image[5] == 2 then Some(Big) else None
  }

  function CheckedMul(a: nat, b: nat): Option<nat> {
    if a * b <= USIZE_MAX then Some(a * b) else None
  }

  function PhdrAt(image: seq<Byte>, layout: Layout, i: nat): Option<seq<Byte>> {
    var skip :- CheckedMul(i, layout.phentsize);
    var start :- CheckedAdd(layout.phoff, skip);
    var end :- CheckedAdd(start, layout.required);
    Get(image, start, end)
  }

  /** The notes a program header points to: none when it describes another kind of segment. */
  function NotesOf(image: seq<Byte>, phdr: seq<Byte>, layout: Layout, endian: Endian): Option<Option<seq<Byte>>> {
    var kind :- ReadAt(phdr, 0, 4, endian);
    if kind != PT_NOTE then Some(None)
    else
      var width := if layout.wide then 8 else 4;
      var noteAt :- ReadAt(phdr, layout.offsetAt, width, endian);
      var noteLen :- ReadAt(phdr, layout.fileszAt, width, endian);
      var noteEnd :- CheckedAdd(noteAt, noteLen);
      var notes :- Get(image, noteAt, noteEnd);
      Some(Some(notes))
  }

  /** The notes of program header `i`. */
  function SegmentAt(image: seq<Byte>, layout: Layout, i: nat, endian: Endian): Option<Option<seq<Byte>>> {
    var phdr :- PhdrAt(image, layout, i);
    NotesOf(image, phdr, layout, endian)
  }

  function ElfFrom(image: seq<Byte>, layout: Layout, i: nat, endian: Endian): Option<seq<Byte>>
    decreases layout.phnum - i
  {
    if i >= layout.phnum then None
    else
      var segment :- SegmentAt(image, layout, i, endian);
      if segment.Some? && Scan(segment.value, 0, endian).Some? then Scan(segment.value, 0, endian)
      else ElfFrom(image, layout, i + 1, endian)
  }

  function ElfId(image: seq<Byte>): Option<seq<Byte>> {
    var endian :- EndianOf(image);
    var layout :- LayoutOf(image, endian);
    if layout.phentsize < layout.required then None else ElfFrom(image, layout, 0, endian)
  }

  method BuildIdFromElf(image: seq<Byte>) returns (r: Option<seq<Byte>>)
    ensures r == ElfId(image)
  {
    var endian := EndianOf(image);
    if endian.None? {
      return None;
    }
    var layout := LayoutOf(image, endian.value);
    if layout.None? || layout.value.phentsize < layout.value.required {
      return None;
    }
    for i := 0 to layout.value.phnum
      invariant ElfFrom(image, layout.value, i, endian.value) == ElfId(image)
    {
      var segment := SegmentAt(image, layout.value, i, endian.value);
      if segment.None? {
        return None;
      }
      if segment.value.Some? {
        var desc := FindGnuBuildId(segment.value.value, endian.value);
        if desc.Some? {
          return desc;
        }
      }
    }
    return None;
  }

  // ----- Mach-O -----

  /** A load command's kind and end, when it lies inside the image. */
  function CommandAt(image: seq<Byte>, offset: nat, endian: Endian): (r: Option<(nat, nat)>)
    ensures r.Some? ==> offset + 8 <= r.value.1 <= |image|
  {
    var cmd :- ReadAt(image, offset, 4, endian);
    var cmdsize :- ReadAt(image, offset + 4, 4, endian);
    if cmdsize < 8 then None
    else
      var end :- CheckedAdd(offset, cmdsize);
      var command :- Get(image, offset, end);
      Some((cmd, end))
  }

  function UuidAt(image: seq<Byte>, offset: nat, commandEnd: nat): Option<seq<Byte>> {
    var start :- CheckedAdd(offset, 8);
    var end :- CheckedAdd(start, 16);
    if end > commandEnd then None else Get(image, start, end)
  }

  function MachoFrom(image: seq<Byte>, offset: nat, left: nat, endian: Endian): Option<seq<Byte>>
    decreases left
  {
    if left == 0 then None
    else
      var command :- CommandAt(image, offset, endian);
      if command.0 == LC_UUID then UuidAt(image, offset, command.1)
      else MachoFrom(image, command.1, left - 1, endian)
  }

  function MachoId(image: seq<Byte>, endian: Endian, wide: bool): Option<seq<Byte>> {
    var ncmds :- ReadAt(image, 0x10, 4, endian);
    MachoFrom(image, if wide then 32 else 28, ncmds, endian)
  }

  method BuildIdFromMacho(image: seq<Byte>, endian: Endian, wide: bool) returns (r: Option<seq<Byte>>)
    ensures r == MachoId(image, endian, wide)
  {
    var ncmds := ReadAt(image, 0x10, 4, endian);
    if ncmds.None? {
      return None;
    }
    var offset := if wide then 32 else 28;
    for i := 0 to ncmds.value
      invariant MachoFrom(image, offset, ncmds.value - i, endian) == MachoId(image, endian, wide)
    {
      var command := CommandAt(image, offset, endian);
      if command.None? {
        return None;
      }
      if command.value.0 == LC_UUID {
        return UuidAt(image, offset, command.value.1);
      }
      offset := command.value.1;
    }
    return None;
  }

  function ImageId(image: seq<Byte>): Option<seq<Byte>> {
    if |image| < 4 then None
    else if image[..4] == [0x7F, 0x45, 0x4C, 0x46] then ElfId(image)
    else if image[..4] == [0xFE, 0xED, 0xFA, 0xCE] then MachoId(image, Big, false)
    else if image[..4] == [0xCE, 0xFA, 0xED, 0xFE] then MachoId(image, Little, false)
    else if image[..4] == [0xFE, 0xED, 0xFA, 0xCF] then MachoId(image, Big, true)
    else if image[..4] == [0xCF, 0xFA, 0xED, 0xFE] then MachoId(image, Little, true)
    else None
  }

  // ----- Prefix stability -----

  lemma GetStable(bytes: seq<Byte>, more: seq<Byte>, start: nat, end: nat)
    requires bytes <= more && Get(bytes, start, end).Some?
    ensures Get(more, start, end) == Get(bytes, start, end)
  {
    assert more[start..end] == bytes[start..end];
  }

  lemma ReadStable(bytes: seq<Byte>, more: seq<Byte>, offset: nat, width: nat, endian: Endian)
    requires bytes <= more && ReadAt(bytes, offset, width, endian).Some?
    ensures ReadAt(more, offset, width, endian) == ReadAt(bytes, offset, width, endian)
  {
    GetStable(bytes, more, offset, offset + width);
  }

  lemma LayoutStable(image: seq<Byte>, more: seq<Byte>, endian: Endian)
    requires image <= more && LayoutOf(image, endian).Some?
    ensures LayoutOf(more, endian) == LayoutOf(image, endian)
  {
    if image[4] == 1 {
      ReadStable(image, more, 0x1C, 4, endian);
      ReadStable(image, more, 0x2A, 2, endian);
      ReadStable(image, more, 0x2C, 2, endian);
    } else {
      ReadStable(image, more, 0x20, 8, endian);
      ReadStable(image, more, 0x36, 2, endian);
      ReadStable(image, more, 0x38, 2, endian);
    }
  }

  lemma PhdrStable(image: seq<Byte>, more: seq<Byte>, layout: Layout, i: nat)
    requires image <= more && PhdrAt(image, layout, i).Some?
    ensures PhdrAt(more, layout, i) == PhdrAt(image, layout, i)
  {
    var start := CheckedAdd(layout.phoff, CheckedMul(i, layout.phentsize).value).value;
    GetStable(image, more, start, start + layout.required);
  }

  lemma NotesStable(image: seq<Byte>, more: seq<Byte>, phdr: seq<Byte>, layout: Layout, endian: Endian)
    requires image <= more && NotesOf(image, phdr, layout, endian).Some?
    ensures NotesOf(more, phdr, layout, endian) == NotesOf(image, phdr, layout, endian)
  {
    if ReadAt(phdr, 0, 4, endian) == Some(PT_NOTE) {
      var width := if layout.wide then 8 else 4;
      var noteAt, noteLen := ReadAt(phdr, layout.offsetAt, width, endian).value, ReadAt(phdr, layout.fileszAt, width, endian).value;
      GetStable(image, more, noteAt, noteAt + noteLen);
    }
  }

  lemma SegmentStable(image: seq<Byte>, more: seq<Byte>, layout: Layout, i: nat, endian: Endian)
    requires image <= more && SegmentAt(image, layout, i, endian).Some?
    ensures SegmentAt(more, layout, i, endian) == SegmentAt(image, layout, i, endian)
  {
    PhdrStable(image, more, layout, i);
    NotesStable(image, more, PhdrAt(image, layout, i).value, layout, endian);
  }

  lemma {:induction false} ElfStable(image: seq<Byte>, more: seq<Byte>, layout: Layout, i: nat, endian: Endian)
    requires image <= more && ElfFrom(image, layout, i, endian).Some?
    ensures ElfFrom(more, layout, i, endian) == ElfFrom(image, layout, i, endian)
    decreases layout.phnum - i
  {
    SegmentStable(image, more, layout, i, endian);
    var segment := SegmentAt(image, layout, i, endian).value;
    if segment.None? || Scan(segment.value, 0, endian).None? {
      ElfStable(image, more, layout, i + 1, endian);
    }
  }

  lemma CommandStable(image: seq<Byte>, more: seq<Byte>, offset: nat, endian: Endian)
    requires image <= more && CommandAt(image, offset, endian).Some?
    ensures CommandAt(more, offset, endian) == CommandAt(image, offset, endian)
  {
    ReadStable(image, more, offset, 4, endian);
    ReadStable(image, more, offset + 4, 4, endian);
  }

  lemma {:induction false} MachoStable(image: seq<Byte>, more: seq<Byte>, offset: nat, left: nat, endian: Endian)
    requires image <= more && MachoFrom(image, offset, left, endian).Some?
    ensures MachoFrom(more, offset, left, endian) == MachoFrom(image, offset, left, endian)
    decreases left
  {
    CommandStable(image, more, offset, endian);
    var (cmd, end) := CommandAt(image, offset, endian).value;
    if cmd == LC_UUID {
      GetStable(image, more, offset + 8, offset + 24);
    } else {
      MachoStable(image, more, end, left - 1, endian);
    }
  }

  lemma MachoIdStable(image: seq<Byte>, more: seq<Byte>, endian: Endian, wide: bool)
    requires image <= more && MachoId(image, endian, wide).Some?
    ensures MachoId(more, endian, wide) == MachoId(image, endian, wide)
  {
    ReadStable(image, more, 0x10, 4, endian);
    MachoStable(image, more, if wide then 32 else 28, ReadAt(image, 0x10, 4, endian).value, endian);
  }

  lemma ElfIdStable(image: seq<Byte>, more: seq<Byte>)
    requires image <= more && ElfId(image).Some?
    ensures ElfId(more) == ElfId(image)
  {
    var endian := EndianOf(image).value;
    LayoutStable(image, more, endian);
    ElfStable(image, more, LayoutOf(image, endian).value, 0, endian);
  }

  /** An identity found in a prefix of an image is found in every extension of that prefix. */
  lemma IdentityIsPrefixStable(image: seq<Byte>, more: seq<Byte>)
    requires image <= more && ImageId(image).Some?
    ensures ImageId(more) == ImageId(image)
  {
    assert more[..4] == image[..4];
    if image[..4] == [0x7F, 0x45, 0x4C, 0x46] {
      ElfIdStable(image, more);
    } else {
      var endian := if image[..4] == [0xFE, 0xED, 0xFA, 0xCE] || image[..4] == [0xFE, 0xED, 0xFA, 0xCF] then Big else Little;
      var wide := image[..4] == [0xFE, 0xED, 0xFA, 0xCF] || image[..4] == [0xCF, 0xFA, 0xED, 0xFE];
      MachoIdStable(image, more, endian, wide);
    }
  }

  /** The stamp a linker identity gives, when it is long enough. */
  function Stamp(image: seq<Byte>): Option<seq<Byte>> {
    var id :- ImageId(image);
    if |id| >= BUILD_ID_BYTES then Some(id[..BUILD_ID_BYTES]) else None
  }

  /** The stamp of captured bytes; `hash` is the digest's first bytes. */
  function OfBytes(image: seq<Byte>, hash: seq<Byte> -> seq<Byte>): seq<Byte> {
    var stamp := Stamp(image);
    if stamp.Some? then stamp.value else hash(image)
  }

  /** The stamp of a file, whose linker identity is looked for in a bounded prefix only. */
  function OfFile(image: seq<Byte>, hash: seq<Byte> -> seq<Byte>): seq<Byte> {
    var stamp := Stamp(image[..Min(|image|, IMAGE_PREFIX_LEN)]);
    if stamp.Some? then stamp.value else hash(image)
  }

  /**
    Reading the file and reading its bytes give the same stamp unless the linker identity lies
    beyond the prefix, and then one gives the hash and the other the identity.
   */
  lemma FileAgreesWithBytes(image: seq<Byte>, hash: seq<Byte> -> seq<Byte>)
    ensures var prefix := image[..Min(|image|, IMAGE_PREFIX_LEN)];
            if Stamp(prefix).Some? || Stamp(image).None? then OfFile(image, hash) == OfBytes(image, hash)
            else OfFile(image, hash) == hash(image) && Some(OfBytes(image, hash)) == Stamp(image)
  {
    var prefix := image[..Min(|image|, IMAGE_PREFIX_LEN)];
    if ImageId(prefix).Some? {
      IdentityIsPrefixStable(prefix, image);
    }
  }
}
