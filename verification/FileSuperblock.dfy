/** The generic file superblock (src/storage/file/file_superblock.cpp). */
module FileSuperblocks {
  import opened Basics
  import opened Bytes
  import opened Fields
  import opened PageChecksum
  import opened HeapFormat

  const SUPERBLOCK_PAGE: u16 := 0
  const SUPERBLOCK_SIZE: nat := 72

  /** The eight bytes "DBLUSBLS". */
  const MAGIC: seq<byte> := [68, 66, 76, 85, 83, 66, 76, 83]

  datatype FileKind = HeapFile | BTreeFile | FsmFile | CatalogFile

  function KindCode(kind: FileKind): nat
  {
    match kind
    case HeapFile => 1
    case BTreeFile => 2
    case FsmFile => 3
    case CatalogFile => 4
  }

  function KindOf(code: nat): Option<FileKind>
  {
    if code == 1 then Some(HeapFile) else if code == 2 then Some(BTreeFile) else if code == 3 then Some(FsmFile)
    else if code == 4 then Some(CatalogFile) else None
  }

  predicate Supported(kind: FileKind) { kind != BTreeFile }

  datatype Superblock = Superblock(kind: FileKind, fileId: u32, lsn: u64, objectId: u64, epoch: u64)

  datatype SuperblockError =
    | BufferTooSmall | ChecksumMismatch | SuperblockWrongPageType | SuperblockUnsupportedVersion
    | SuperblockWrongPageNumber | MagicMismatch | InvalidFileKind | UnsupportedFileKind
    | SuperblockWrongHeaderSize | WrongPageSize | NonzeroFlags | NonzeroReservedBytes

  function CommonOf(sb: Superblock): CommonHeader { CommonHeader(SUPERBLOCK_PAGE, 1, 0, sb.lsn, 0, SUPERBLOCK_SIZE, 0, 0) }

  /** Bytes 32..71, after the common header. */
  function BodyImage(sb: Superblock): (s: seq<byte>)
    ensures |s| == 40
  {
    MAGIC + LittleEndian(KindCode(sb.kind), 2) + Zeros(2) + LittleEndian(PAGE_SIZE, 4) + LittleEndian(sb.fileId, 4) + Zeros(4)
      + LittleEndian(sb.objectId, 8) + LittleEndian(sb.epoch, 8)
  }

  /** The page before its checksum is filled in. */
  function Unfinished(sb: Superblock): Image { Write(PutCommon(Zeros(PAGE_SIZE), CommonOf(sb)), 32, BodyImage(sb)) }

  function SuperblockPage(sb: Superblock): Image { Finalized(Unfinished(sb)) }

  predicate AllZero(b: seq<byte>) { forall k :: 0 <= k < |b| ==> b[k] == 0 }

  /** DecodeFileSuperblock of a full page. */
  function DecodePage(b: Image): Result<Superblock, SuperblockError>
  {
    var c := CommonAt(b);
    if !Verifies(b) then Err(ChecksumMismatch)
    else if c.pageType != SUPERBLOCK_PAGE then Err(SuperblockWrongPageType)
    else if c.formatVersion != 1 then Err(SuperblockUnsupportedVersion)
    else if c.pageNo != 0 then Err(SuperblockWrongPageNumber)
    else if b[32..40] != MAGIC then Err(MagicMismatch)
    else match KindOf(U16At(b, 40))
      case None => Err(InvalidFileKind)
      case Some(kind) =>
        if !Supported(kind) then Err(UnsupportedFileKind)
        else if c.headerSize != SUPERBLOCK_SIZE then Err(SuperblockWrongHeaderSize)
        else if U32At(b, 44) != PAGE_SIZE then Err(WrongPageSize)
        else if c.flags != 0 then Err(NonzeroFlags)
        else if c.reserved16 != 0 || !AllZero(b[42..44]) || !AllZero(b[52..56]) || !AllZero(b[72..]) then Err(NonzeroReservedBytes)
        else Ok(Superblock(kind, U32At(b, 48), c.lsn, U64At(b, 56), U64At(b, 64)))
  }

  function DecodeFileSuperblock(source: seq<byte>): Result<Superblock, SuperblockError>
  {
    if |source| < PAGE_SIZE then Err(BufferTooSmall) else DecodePage(source[..PAGE_SIZE])
  }

  /** The body's fields at their offsets. */
  predicate BodyFields(b: Image, sb: Superblock)
  {
    && b[32..40] == MAGIC && U16At(b, 40) == KindCode(sb.kind) && AllZero(b[42..44]) && U32At(b, 44) == PAGE_SIZE
    && U32At(b, 48) == sb.fileId && AllZero(b[52..56]) && U64At(b, 56) == sb.objectId && U64At(b, 64) == sb.epoch
  }

  lemma BodyPieces(sb: Superblock)
    ensures var s := BodyImage(sb);
      && s[0..8] == MAGIC && s[8..10] == LittleEndian(KindCode(sb.kind), 2) && s[10..12] == Zeros(2)
      && s[12..16] == LittleEndian(PAGE_SIZE, 4) && s[16..20] == LittleEndian(sb.fileId, 4) && s[20..24] == Zeros(4)
      && s[24..32] == LittleEndian(sb.objectId, 8) && s[32..40] == LittleEndian(sb.epoch, 8)
  {
    hide LittleEndian, Zeros;
  }

  lemma BodyReads(b: Image, sb: Superblock)
    requires b[32..72] == BodyImage(sb)
    ensures BodyFields(b, sb)
  {
    RadixValues();
    BodyPieces(sb);
    hide LittleEndian, Read, BodyImage;
    Piece(b, 0, 8);
    Piece(b, 8, 10);
    Piece(b, 10, 12);
    Piece(b, 12, 16);
    Piece(b, 16, 20);
    Piece(b, 20, 24);
    Piece(b, 24, 32);
    Piece(b, 32, 40);
    PieceReads(b, 40, KindCode(sb.kind), 2);
    PieceReads(b, 44, PAGE_SIZE, 4);
    PieceReads(b, 48, sb.fileId, 4);
    PieceReads(b, 56, sb.objectId, 8);
    PieceReads(b, 64, sb.epoch, 8);
  }

  lemma Piece(b: Image, from: nat, to: nat)
    requires from <= to <= 40
    ensures b[32 + from..32 + to] == b[32..72][from..to]
  {}

  /** The fields determine the body. */
  lemma BodyDetermined(b: Image, sb: Superblock)
    requires BodyFields(b, sb)
    ensures b[32..72] == BodyImage(sb)
  {
    hide LittleEndian, Read;
    FieldCanonical(b, 40, 2);
    FieldCanonical(b, 44, 4);
    FieldCanonical(b, 48, 4);
    FieldCanonical(b, 56, 8);
    FieldCanonical(b, 64, 8);
    assert b[42..44] == Zeros(2) && b[52..56] == Zeros(4);
    BodyParts(b);
  }

  lemma BodyParts(b: Image)
    ensures b[32..72] == b[32..40] + b[40..42] + b[42..44] + b[44..48] + b[48..52] + b[52..56] + b[56..64] + b[64..72]
  {}

  /** A common header determines its bytes, and the checksum field is independent of the others. */
  lemma CommonDetermined(a: Image, b: Image)
    requires CommonAt(a) == CommonAt(b).(checksum := U32At(a, 16))
    ensures forall k :: 0 <= k < 32 && !(16 <= k < 20) ==> a[k] == b[k]
  {
    ReadDetermines(a, b, 0, 2);
    ReadDetermines(a, b, 2, 2);
    ReadDetermines(a, b, 4, 4);
    ReadDetermines(a, b, 8, 8);
    ReadDetermines(a, b, 20, 2);
    ReadDetermines(a, b, 22, 2);
    ReadDetermines(a, b, 24, 8);
    hide Read;
    forall k | 0 <= k < 32 && !(16 <= k < 20) ensures a[k] == b[k] {
      if k < 2 { assert a[0..2][k] == b[0..2][k]; }
      else if k < 4 { assert a[2..4][k - 2] == b[2..4][k - 2]; }
      else if k < 8 { assert a[4..8][k - 4] == b[4..8][k - 4]; }
      else if k < 16 { assert a[8..16][k - 8] == b[8..16][k - 8]; }
      else if k < 22 { assert a[20..22][k - 20] == b[20..22][k - 20]; }
      else if k < 24 { assert a[22..24][k - 22] == b[22..24][k - 22]; }
      else { assert a[24..32][k - 24] == b[24..32][k - 24]; }
    }
  }

  lemma FinishedElsewhere(sb: Superblock)
    ensures forall k :: 0 <= k < PAGE_SIZE && !(16 <= k < 20) ==> SuperblockPage(sb)[k] == Unfinished(sb)[k]
  {
    hide Checksum, Unfinished, LittleEndian;
  }

  lemma UnfinishedReads(sb: Superblock)
    ensures CommonAt(Unfinished(sb)) == CommonOf(sb) && Unfinished(sb)[32..72] == BodyImage(sb)
    ensures forall k :: 72 <= k < PAGE_SIZE ==> Unfinished(sb)[k] == 0
  {
    hide CommonAt, CommonImage, BodyImage;
    CommonReadsBack(Zeros(PAGE_SIZE), CommonOf(sb));
    SameCommon(Unfinished(sb), PutCommon(Zeros(PAGE_SIZE), CommonOf(sb)));
    assert Unfinished(sb)[32..72] == BodyImage(sb);
  }

  lemma FinishedReads(sb: Superblock)
    ensures var b := SuperblockPage(sb);
      && BodyFields(b, sb) && AllZero(b[72..])
      && CommonAt(b) == CommonOf(sb).(checksum := U32At(b, 16))
  {
    hide SuperblockPage, CommonAt, BodyImage, Unfinished, BodyFields;
    var u, b := Unfinished(sb), SuperblockPage(sb);
    FinishedElsewhere(sb);
    UnfinishedReads(sb);
    assert b[32..72] == u[32..72];
    BodyReads(b, sb);
    SameButChecksum(b, u);
  }

  lemma SameButChecksum(a: Image, b: Image)
    requires forall k :: 0 <= k < 32 && !(16 <= k < 20) ==> a[k] == b[k]
    ensures CommonAt(a) == CommonAt(b).(checksum := U32At(a, 16))
  {
    assert a[0..2] == b[0..2] && a[2..4] == b[2..4] && a[4..8] == b[4..8] && a[8..16] == b[8..16];
    assert a[20..22] == b[20..22] && a[22..24] == b[22..24] && a[24..32] == b[24..32];
    hide Read;
  }

  /** Decoding an encoded superblock gives it back. */
  lemma SuperblockRoundTrip(sb: Superblock)
    requires Supported(sb.kind)
    ensures DecodePage(SuperblockPage(sb)) == Ok(sb)
  {
    FinishedReads(sb);
    assert Verifies(SuperblockPage(sb)) by { FinalizeVerifies(Unfinished(sb)); }
    hide SuperblockPage, CommonAt, Verifies, AllZero;
  }

  lemma DecodedFields(b: Image)
    requires DecodePage(b).Ok?
    ensures var sb := DecodePage(b).value;
      && Supported(sb.kind) && Verifies(b) && BodyFields(b, sb) && AllZero(b[72..])
      && CommonAt(b) == CommonOf(sb).(checksum := U32At(b, 16))
  {
    hide Verifies, Read;
  }

  lemma FinishedVerifies(sb: Superblock)
    ensures Verifies(SuperblockPage(sb))
  {
    hide Unfinished;
    FinalizeVerifies(Unfinished(sb));
  }

  /** A page decodes only if it is exactly what encoding the result writes. */
  lemma SuperblockCanonical(b: Image)
    requires DecodePage(b).Ok?
    ensures Supported(DecodePage(b).value.kind) && SuperblockPage(DecodePage(b).value) == b
  {
    hide DecodePage, SuperblockPage, BodyFields, CommonAt, Checksum, Cleared, Unfinished, AllZero;
    var sb := DecodePage(b).value;
    var u := Unfinished(sb);
    DecodedFields(b);
    FinishedReads(sb);
    CommonDetermined(b, SuperblockPage(sb));
    BodyDetermined(b, sb);
    BodyDetermined(SuperblockPage(sb), sb);
    SamePage(b, SuperblockPage(sb));
    FinishedVerifies(sb);
    ChecksumIgnoresField(b, SuperblockPage(sb));
    ReadDetermines(b, SuperblockPage(sb), 16, 4);
    SameAll(b, SuperblockPage(sb));
  }

  lemma SamePage(a: Image, b: Image)
    requires forall k :: 0 <= k < 32 && !(16 <= k < 20) ==> a[k] == b[k]
    requires a[32..72] == b[32..72] && AllZero(a[72..]) && AllZero(b[72..])
    ensures SameContent(a, b) && forall k :: 0 <= k < PAGE_SIZE && !(16 <= k < 20) ==> a[k] == b[k]
  {
    forall k | 0 <= k < PAGE_SIZE && !(16 <= k < 20) ensures a[k] == b[k] {
      if 32 <= k < 72 { assert a[32..72][k - 32] == b[32..72][k - 32]; }
      else if 72 <= k { assert a[72..][k - 72] == 0 && b[72..][k - 72] == 0; }
    }
    SameContentPointwise(a, b);
  }

  lemma SameAll(a: Image, b: Image)
    requires forall k :: 0 <= k < PAGE_SIZE && !(16 <= k < 20) ==> a[k] == b[k]
    requires a[16..20] == b[16..20]
    ensures a == b
  {
    forall k | 0 <= k < PAGE_SIZE ensures a[k] == b[k] {
      if 16 <= k < 20 { assert a[16..20][k - 16] == b[16..20][k - 16]; }
    }
  }

  /**
   * Encoding and decoding are inverse bijections between supported superblocks and the pages that
   * decode; only the first page of a longer buffer is looked at, and a shorter one is refused.
   */
  lemma SuperblockBijection(source: seq<byte>, sb: Superblock)
    ensures DecodeFileSuperblock(source) == Ok(sb) <==>
      |source| >= PAGE_SIZE && Supported(sb.kind) && SuperblockPage(sb) == source[..PAGE_SIZE]
    ensures DecodeFileSuperblock(source) == Err(BufferTooSmall) <==> |source| < PAGE_SIZE
  {
    if |source| >= PAGE_SIZE {
      PageBijection(source[..PAGE_SIZE], sb);
      LongEnough(source[..PAGE_SIZE]);
    }
    hide DecodePage, SuperblockPage;
  }

  lemma LongEnough(b: Image)
    ensures DecodePage(b) != Err(BufferTooSmall)
  {
    hide CommonAt, Verifies, U16At, U32At, U64At, KindOf, AllZero;
  }

  lemma PageBijection(b: Image, sb: Superblock)
    ensures DecodePage(b) == Ok(sb) <==> Supported(sb.kind) && SuperblockPage(sb) == b
  {
    hide DecodePage, SuperblockPage;
    if DecodePage(b) == Ok(sb) { SuperblockCanonical(b); }
    if Supported(sb.kind) && SuperblockPage(sb) == b { SuperblockRoundTrip(sb); }
  }

  /** EncodeFileSuperblock: refuses a B+ tree file or a short buffer, and writes one whole page otherwise. */
  method EncodeFileSuperblock(destination: array<byte>, sb: Superblock) returns (ok: bool)
    modifies destination
    ensures ok <==> destination.Length >= PAGE_SIZE && Supported(sb.kind)
    ensures ok ==> destination[..PAGE_SIZE] == SuperblockPage(sb) && destination[PAGE_SIZE..] == old(destination[PAGE_SIZE..])
    ensures !ok ==> destination[..] == old(destination[..])
  {
    hide SuperblockPage;
    if destination.Length < PAGE_SIZE || !Supported(sb.kind) {
      return false;
    }
    var page := SuperblockPage(sb);
    for i := 0 to PAGE_SIZE
      invariant forall k :: 0 <= k < i ==> destination[k] == page[k]
      invariant forall k :: i <= k < destination.Length ==> destination[k] == old(destination[k])
    {
      destination[i] := page[i];
    }
    return true;
  }
}
