/** The common page header, the heap page header and the slot directory, at byte level. */
module HeapFormat {
  import opened Basics
  import opened Bytes
  import opened Fields
  import opened PageChecksum

  const COMMON_HEADER_SIZE: nat := 32
  const HEAP_HEADER_OFFSET: nat := 32
  const HEAP_HEADER_SIZE: nat := 16
  const SLOT_BASE: nat := 48
  const SLOT_SIZE: nat := 8
  const MAX_SLOTS: nat := 1018
  const HEAP_DATA: u16 := 1

  datatype CommonHeader = CommonHeader(
    pageType: u16,
    formatVersion: u16,
    flags: u32,
    lsn: u64,
    checksum: u32,
    headerSize: u16,
    reserved16: u16,
    pageNo: u64)

  datatype HeapHeader = HeapHeader(slotCount: u16, freeHead: u16, lower: u16, upper: u16, pruneHint: u32, reserved: u32)

  datatype SlotState = Unused | Normal | Dead | RedirectReserved

  datatype Slot = Slot(offset: u16, length: u16, state: SlotState, aux: u16)

  function StateCode(state: SlotState): nat
  {
    match state
    case Unused => 0
    case Normal => 1
    case Dead => 2
    case RedirectReserved => 3
  }

  function StateOf(code: nat): Option<SlotState>
  {
    if code == 0 then Some(Unused) else if code == 1 then Some(Normal) else if code == 2 then Some(Dead)
    else if code == 3 then Some(RedirectReserved) else None
  }

  function CommonAt(b: Image): CommonHeader
  {
    CommonHeader(U16At(b, 0), U16At(b, 2), U32At(b, 4), U64At(b, 8), U32At(b, 16), U16At(b, 20), U16At(b, 22), U64At(b, 24))
  }

  function HeaderAt(b: Image): HeapHeader
  {
    HeapHeader(U16At(b, 32), U16At(b, 34), U16At(b, 36), U16At(b, 38), U32At(b, 40), U32At(b, 44))
  }

  function HeaderImage(h: HeapHeader): (s: seq<byte>)
    ensures |s| == HEAP_HEADER_SIZE
  {
    LittleEndian(h.slotCount, 2) + LittleEndian(h.freeHead, 2) + LittleEndian(h.lower, 2) + LittleEndian(h.upper, 2)
      + LittleEndian(h.pruneHint, 4) + LittleEndian(h.reserved, 4)
  }

  function PutHeader(b: Image, h: HeapHeader): Image { Write(b, HEAP_HEADER_OFFSET, HeaderImage(h)) }

  function CommonImage(c: CommonHeader): (s: seq<byte>)
    ensures |s| == COMMON_HEADER_SIZE
  {
    LittleEndian(c.pageType, 2) + LittleEndian(c.formatVersion, 2) + LittleEndian(c.flags, 4) + LittleEndian(c.lsn, 8)
      + LittleEndian(c.checksum, 4) + LittleEndian(c.headerSize, 2) + LittleEndian(c.reserved16, 2) + LittleEndian(c.pageNo, 8)
  }

  function PutCommon(b: Image, c: CommonHeader): Image { Write(b, 0, CommonImage(c)) }

  /** DecodeHeapSlotEntry: None for an unknown state. */
  function SlotAt(b: Image, i: nat): Option<Slot>
    requires i < MAX_SLOTS
  {
    var at := SLOT_BASE + SLOT_SIZE * i;
    match StateOf(U16At(b, at + 4))
    case None => None
    case Some(state) => Some(Slot(U16At(b, at), U16At(b, at + 2), state, U16At(b, at + 6)))
  }

  function SlotImage(s: Slot): (image: seq<byte>)
    ensures |image| == SLOT_SIZE
  {
    LittleEndian(s.offset, 2) + LittleEndian(s.length, 2) + LittleEndian(StateCode(s.state), 2) + LittleEndian(s.aux, 2)
  }

  function PutSlot(b: Image, i: nat, s: Slot): Image
    requires i < MAX_SLOTS
  {
    Write(b, SLOT_BASE + SLOT_SIZE * i, SlotImage(s))
  }

  // ---- Each write is read back, and touches nothing else ----

  lemma PieceReads(b: seq<byte>, at: nat, value: nat, width: nat)
    requires at + width <= |b| && value < Radix(width) && b[at..at + width] == LittleEndian(value, width)
    ensures Read(b, at, width) == value
  {
    DecodeEncode(value, width);
  }

  lemma WrittenPiece(b: seq<byte>, at: nat, v: seq<byte>, from: nat, width: nat)
    requires at + |v| <= |b| && from + width <= |v|
    ensures Write(b, at, v)[at + from..at + from + width] == v[from..from + width]
  {}

  lemma SlotPieces(s: Slot)
    ensures var image := SlotImage(s);
      && image[0..2] == LittleEndian(s.offset, 2) && image[2..4] == LittleEndian(s.length, 2)
      && image[4..6] == LittleEndian(StateCode(s.state), 2) && image[6..8] == LittleEndian(s.aux, 2)
  {
    hide LittleEndian;
  }

  lemma SlotReadsBack(b: Image, i: nat, s: Slot)
    requires i < MAX_SLOTS
    ensures SlotAt(PutSlot(b, i, s), i) == Some(s)
  {
    var r, at, image := PutSlot(b, i, s), SLOT_BASE + SLOT_SIZE * i, SlotImage(s);
    RadixValues();
    SlotPieces(s);
    hide LittleEndian, Read, Write, SlotImage, Radix;
    WrittenPiece(b, at, image, 0, 2);
    WrittenPiece(b, at, image, 2, 2);
    WrittenPiece(b, at, image, 4, 2);
    WrittenPiece(b, at, image, 6, 2);
    PieceReads(r, at, s.offset, 2);
    PieceReads(r, at + 2, s.length, 2);
    PieceReads(r, at + 4, StateCode(s.state), 2);
    PieceReads(r, at + 6, s.aux, 2);
  }

  lemma HeaderReadsBack(b: Image, h: HeapHeader)
    ensures HeaderAt(PutHeader(b, h)) == h
  {
    var r, image := PutHeader(b, h), HeaderImage(h);
    RadixValues();
    hide LittleEndian, Read, Write;
    assert r[32..34] == image[0..2] == LittleEndian(h.slotCount, 2);
    assert r[34..36] == image[2..4] == LittleEndian(h.freeHead, 2);
    assert r[36..38] == image[4..6] == LittleEndian(h.lower, 2);
    assert r[38..40] == image[6..8] == LittleEndian(h.upper, 2);
    assert r[40..44] == image[8..12] == LittleEndian(h.pruneHint, 4);
    assert r[44..48] == image[12..16] == LittleEndian(h.reserved, 4);
    PieceReads(r, 32, h.slotCount, 2);
    PieceReads(r, 34, h.freeHead, 2);
    PieceReads(r, 36, h.lower, 2);
    PieceReads(r, 38, h.upper, 2);
    PieceReads(r, 40, h.pruneHint, 4);
    PieceReads(r, 44, h.reserved, 4);
  }

  lemma CommonReadsBack(b: Image, c: CommonHeader)
    ensures CommonAt(PutCommon(b, c)) == c
  {
    var r, image := PutCommon(b, c), CommonImage(c);
    RadixValues();
    hide LittleEndian, Read, Write;
    assert r[0..2] == image[0..2] == LittleEndian(c.pageType, 2);
    assert r[2..4] == image[2..4] == LittleEndian(c.formatVersion, 2);
    assert r[4..8] == image[4..8] == LittleEndian(c.flags, 4);
    assert r[8..16] == image[8..16] == LittleEndian(c.lsn, 8);
    assert r[16..20] == image[16..20] == LittleEndian(c.checksum, 4);
    assert r[20..22] == image[20..22] == LittleEndian(c.headerSize, 2);
    assert r[22..24] == image[22..24] == LittleEndian(c.reserved16, 2);
    assert r[24..32] == image[24..32] == LittleEndian(c.pageNo, 8);
    PieceReads(r, 0, c.pageType, 2);
    PieceReads(r, 2, c.formatVersion, 2);
    PieceReads(r, 4, c.flags, 4);
    PieceReads(r, 8, c.lsn, 8);
    PieceReads(r, 16, c.checksum, 4);
    PieceReads(r, 20, c.headerSize, 2);
    PieceReads(r, 22, c.reserved16, 2);
    PieceReads(r, 24, c.pageNo, 8);
  }

  /** Pages that agree on a slot's eight bytes agree on the slot. */
  lemma SameSlot(a: Image, b: Image, i: nat)
    requires i < MAX_SLOTS
    requires forall k :: SLOT_BASE + SLOT_SIZE * i <= k < SLOT_BASE + SLOT_SIZE * i + SLOT_SIZE ==> a[k] == b[k]
    ensures SlotAt(a, i) == SlotAt(b, i)
  {
    var at := SLOT_BASE + SLOT_SIZE * i;
    assert a[at..at + 2] == b[at..at + 2];
    assert a[at + 2..at + 4] == b[at + 2..at + 4];
    assert a[at + 4..at + 6] == b[at + 4..at + 6];
    assert a[at + 6..at + 8] == b[at + 6..at + 8];
  }

  lemma SameHeader(a: Image, b: Image)
    requires forall k :: HEAP_HEADER_OFFSET <= k < SLOT_BASE ==> a[k] == b[k]
    ensures HeaderAt(a) == HeaderAt(b)
  {
    assert a[32..34] == b[32..34] && a[34..36] == b[34..36] && a[36..38] == b[36..38] && a[38..40] == b[38..40];
    assert a[40..44] == b[40..44] && a[44..48] == b[44..48];
  }

  lemma SameCommon(a: Image, b: Image)
    requires forall k :: 0 <= k < COMMON_HEADER_SIZE ==> a[k] == b[k]
    ensures CommonAt(a) == CommonAt(b)
  {
    assert a[0..2] == b[0..2] && a[2..4] == b[2..4] && a[4..8] == b[4..8] && a[8..16] == b[8..16];
    assert a[16..20] == b[16..20] && a[20..22] == b[20..22] && a[22..24] == b[22..24] && a[24..32] == b[24..32];
  }

  /** A slot's encoding is canonical: writing back what was read changes nothing. */
  lemma SlotCanonical(b: Image, i: nat)
    requires i < MAX_SLOTS && SlotAt(b, i).Some?
    ensures PutSlot(b, i, SlotAt(b, i).value) == b
  {
    var at, s := SLOT_BASE + SLOT_SIZE * i, SlotAt(b, i).value;
    EncodeDecode(b[at..at + 2]);
    EncodeDecode(b[at + 2..at + 4]);
    EncodeDecode(b[at + 4..at + 6]);
    EncodeDecode(b[at + 6..at + 8]);
    assert SlotImage(s) == b[at..at + 2] + b[at + 2..at + 4] + b[at + 4..at + 6] + b[at + 6..at + 8];
    assert b[at..at + 8] == b[at..at + 2] + b[at + 2..at + 4] + b[at + 4..at + 6] + b[at + 6..at + 8];
    Overwritten(b, at, SlotImage(s));
  }

  lemma Overwritten(b: seq<byte>, at: nat, v: seq<byte>)
    requires at + |v| <= |b| && b[at..at + |v|] == v
    ensures Write(b, at, v) == b
  {}

  lemma FieldCanonical(b: Image, at: nat, width: nat)
    requires at + width <= PAGE_SIZE
    ensures LittleEndian(Read(b, at, width), width) == b[at..at + width]
  {
    EncodeDecode(b[at..at + width]);
  }

  lemma HeaderCanonical(b: Image)
    ensures PutHeader(b, HeaderAt(b)) == b
  {
    hide LittleEndian, Read, Write;
    FieldCanonical(b, 32, 2);
    FieldCanonical(b, 34, 2);
    FieldCanonical(b, 36, 2);
    FieldCanonical(b, 38, 2);
    FieldCanonical(b, 40, 4);
    FieldCanonical(b, 44, 4);
    assert b[32..48] == b[32..34] + b[34..36] + b[36..38] + b[38..40] + b[40..44] + b[44..48];
    Overwritten(b, 32, HeaderImage(HeaderAt(b)));
  }

  // ---- The encoders ----

  lemma WriteBoth(b: seq<byte>, at: nat, u: seq<byte>, v: seq<byte>)
    requires at + |u| + |v| <= |b|
    ensures Write(Write(b, at, u), at + |u|, v) == Write(b, at, u + v)
  {}

  /** EncodeHeapSlotEntry over the sub-span `[at, at + size)` of a buffer. */
  method EncodeHeapSlotEntry(buffer: array<byte>, at: nat, size: nat, s: Slot) returns (ok: bool)
    requires at + size <= buffer.Length
    modifies buffer
    ensures ok <==> size >= SLOT_SIZE
    ensures buffer[..] == if ok then Write(old(buffer[..]), at, SlotImage(s)) else old(buffer[..])
  {
    if size < SLOT_SIZE {
      return false;
    }
    RadixValues();
    hide LittleEndian, Read;
    ghost var before := buffer[..];
    PutField(buffer, at, 2, s.offset);
    PutField(buffer, at + 2, 2, s.length);
    PutField(buffer, at + 4, 2, StateCode(s.state));
    PutField(buffer, at + 6, 2, s.aux);
    assert buffer[..] == Write(before, at, SlotImage(s));
    return true;
  }

  method EncodeHeapPageHeader(buffer: array<byte>, at: nat, size: nat, h: HeapHeader) returns (ok: bool)
    requires at + size <= buffer.Length
    modifies buffer
    ensures ok <==> size >= HEAP_HEADER_SIZE
    ensures buffer[..] == if ok then Write(old(buffer[..]), at, HeaderImage(h)) else old(buffer[..])
  {
    if size < HEAP_HEADER_SIZE {
      return false;
    }
    RadixValues();
    hide LittleEndian, Read, Write;
    ghost var before := buffer[..];
    PutField(buffer, at, 2, h.slotCount);
    ghost var image := LittleEndian(h.slotCount, 2);
    PutField(buffer, at + 2, 2, h.freeHead);
    WriteBoth(before, at, image, LittleEndian(h.freeHead, 2));
    image := image + LittleEndian(h.freeHead, 2);
    PutField(buffer, at + 4, 2, h.lower);
    WriteBoth(before, at, image, LittleEndian(h.lower, 2));
    image := image + LittleEndian(h.lower, 2);
    PutField(buffer, at + 6, 2, h.upper);
    WriteBoth(before, at, image, LittleEndian(h.upper, 2));
    image := image + LittleEndian(h.upper, 2);
    PutField(buffer, at + 8, 4, h.pruneHint);
    WriteBoth(before, at, image, LittleEndian(h.pruneHint, 4));
    image := image + LittleEndian(h.pruneHint, 4);
    PutField(buffer, at + 12, 4, h.reserved);
    WriteBoth(before, at, image, LittleEndian(h.reserved, 4));
    return true;
  }
}
