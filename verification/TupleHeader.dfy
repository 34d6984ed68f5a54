/** The 48-byte tuple header (src/storage/tuple/tuple_header.cpp). */
module TupleHeaders {
  import opened Basics
  import opened Bytes
  import opened Fields

  const HEADER_SIZE: nat := 48
  const FLAG_HAS_NULLS: nat := 1
  const FLAG_HAS_VARLEN: nat := 2
  const INVALID_PAGE_NO: u64 := U64_MAX
  const INVALID_SLOT_ID: u16 := U16_MAX

  datatype Header = Header(
    xmin: u64,
    xmax: u64,
    cmin: u32,
    cmax: u32,
    prevPage: u64,
    prevSlot: u16,
    flags: u16,
    headerBytes: u16,
    bitmapBytes: u16,
    schema: u32,
    reserved: u32)

  datatype HeaderError = SourceTooSmall | InvalidPreviousVersion | InvalidFlags | InvalidHeaderSize | NonzeroReserved

  /** ValidateTupleHeader; the known flag bits are the two low ones. */
  function CheckHeader(h: Header): Option<HeaderError>
  {
    if (h.prevPage == INVALID_PAGE_NO) != (h.prevSlot == INVALID_SLOT_ID) then Some(InvalidPreviousVersion)
    else if h.flags / 4 != 0 then Some(InvalidFlags)
    else if h.headerBytes != HEADER_SIZE then Some(InvalidHeaderSize)
    else if h.reserved != 0 then Some(NonzeroReserved)
    else None
  }

  /** The header fields at the front of a tuple. */
  function HeaderFields(b: seq<byte>): Header
    requires |b| >= HEADER_SIZE
  {
    Header(U64At(b, 0), U64At(b, 8), U32At(b, 16), U32At(b, 20), U64At(b, 24), U16At(b, 32), U16At(b, 34), U16At(b, 36),
           U16At(b, 38), U32At(b, 40), U32At(b, 44))
  }

  function DecodeTupleHeader(source: seq<byte>): Result<Header, HeaderError>
  {
    if |source| < HEADER_SIZE then Err(SourceTooSmall)
    else match CheckHeader(HeaderFields(source))
      case Some(error) => Err(error)
      case None => Ok(HeaderFields(source))
  }

  method FillHeader(encoded: array<byte>, header: Header)
    requires encoded.Length == HEADER_SIZE && header.reserved == 0
    modifies encoded
    ensures HeaderFields(encoded[..]) == header
  {
    RadixValues();
    hide Read, Radix, LittleEndian, Write;
    PutField(encoded, 0, 8, header.xmin);
    PutField(encoded, 8, 8, header.xmax);
    PutField(encoded, 16, 4, header.cmin);
    PutField(encoded, 20, 4, header.cmax);
    PutField(encoded, 24, 8, header.prevPage);
    PutField(encoded, 32, 2, header.prevSlot);
    PutField(encoded, 34, 2, header.flags);
    PutField(encoded, 36, 2, header.headerBytes);
    PutField(encoded, 38, 2, header.bitmapBytes);
    PutField(encoded, 40, 4, header.schema);
    PutField(encoded, 44, 4, 0);
  }

  /** Checks first, encodes into a scratch buffer, then copies: a refusal changes nothing. */
  method EncodeTupleHeader(destination: array<byte>, header: Header) returns (ok: bool)
    modifies destination
    ensures ok <==> destination.Length >= HEADER_SIZE && CheckHeader(header) == None
    ensures ok ==> HeaderFields(destination[..]) == header && destination[HEADER_SIZE..] == old(destination[HEADER_SIZE..])
    ensures !ok ==> destination[..] == old(destination[..])
  {
    if destination.Length < HEADER_SIZE || CheckHeader(header) != None {
      return false;
    }
    hide HeaderFields;
    var encoded := new byte[HEADER_SIZE](_ => 0);
    FillHeader(encoded, header);
    ghost var front := encoded[..];
    for offset := 0 to HEADER_SIZE
      invariant encoded[..] == front
      invariant forall i :: 0 <= i < offset ==> destination[i] == front[i]
      invariant forall i :: offset <= i < destination.Length ==> destination[i] == old(destination[i])
    {
      destination[offset] := encoded[offset];
    }
    assert destination[..][..HEADER_SIZE] == front[..HEADER_SIZE];
    SameFront(destination[..], front);
    return true;
  }

  /** The fields depend on the first 48 bytes only, and determine them. */
  lemma SameFront(a: seq<byte>, b: seq<byte>)
    requires |a| >= HEADER_SIZE && |b| >= HEADER_SIZE
    ensures a[..HEADER_SIZE] == b[..HEADER_SIZE] ==> HeaderFields(a) == HeaderFields(b)
    ensures HeaderFields(a) == HeaderFields(b) ==> a[..HEADER_SIZE] == b[..HEADER_SIZE]
  {
    if a[..HEADER_SIZE] == b[..HEADER_SIZE] {
      FrontFields(a, b);
    }
    if HeaderFields(a) == HeaderFields(b) {
      FieldsFront(a, b);
    }
  }

  lemma SameSlice(a: seq<byte>, b: seq<byte>, at: nat, width: nat)
    requires |a| >= HEADER_SIZE && |b| >= HEADER_SIZE && a[..HEADER_SIZE] == b[..HEADER_SIZE] && at + width <= HEADER_SIZE
    ensures Read(a, at, width) == Read(b, at, width)
  {
    forall k | at <= k < at + width ensures a[k] == b[k] {
      assert a[..HEADER_SIZE][k] == b[..HEADER_SIZE][k];
    }
    assert a[at..at + width] == b[at..at + width];
  }

  lemma FrontFields(a: seq<byte>, b: seq<byte>)
    requires |a| >= HEADER_SIZE && |b| >= HEADER_SIZE && a[..HEADER_SIZE] == b[..HEADER_SIZE]
    ensures HeaderFields(a) == HeaderFields(b)
  {
    SameSlice(a, b, 0, 8);
    SameSlice(a, b, 8, 8);
    SameSlice(a, b, 16, 4);
    SameSlice(a, b, 20, 4);
    SameSlice(a, b, 24, 8);
    SameSlice(a, b, 32, 2);
    SameSlice(a, b, 34, 2);
    SameSlice(a, b, 36, 2);
    SameSlice(a, b, 38, 2);
    SameSlice(a, b, 40, 4);
    SameSlice(a, b, 44, 4);
    hide Read;
  }

  lemma FieldsFront(a: seq<byte>, b: seq<byte>)
    requires |a| >= HEADER_SIZE && |b| >= HEADER_SIZE && HeaderFields(a) == HeaderFields(b)
    ensures a[..HEADER_SIZE] == b[..HEADER_SIZE]
  {
    ReadDetermines(a, b, 0, 8);
    ReadDetermines(a, b, 8, 8);
    ReadDetermines(a, b, 16, 4);
    ReadDetermines(a, b, 20, 4);
    ReadDetermines(a, b, 24, 8);
    ReadDetermines(a, b, 32, 2);
    ReadDetermines(a, b, 34, 2);
    ReadDetermines(a, b, 36, 2);
    ReadDetermines(a, b, 38, 2);
    ReadDetermines(a, b, 40, 4);
    ReadDetermines(a, b, 44, 4);
    hide HeaderFields, Read;
    Joined(a, b);
  }

  lemma Joined(a: seq<byte>, b: seq<byte>)
    requires |a| >= HEADER_SIZE && |b| >= HEADER_SIZE
    requires a[0..8] == b[0..8] && a[8..16] == b[8..16] && a[16..20] == b[16..20] && a[20..24] == b[20..24]
    requires a[24..32] == b[24..32] && a[32..34] == b[32..34] && a[34..36] == b[34..36] && a[36..38] == b[36..38]
    requires a[38..40] == b[38..40] && a[40..44] == b[40..44] && a[44..48] == b[44..48]
    ensures a[..HEADER_SIZE] == b[..HEADER_SIZE]
  {
    assert a[..HEADER_SIZE] == a[0..8] + a[8..16] + a[16..20] + a[20..24] + a[24..32] + a[32..34] + a[34..36] + a[36..38]
      + a[38..40] + a[40..44] + a[44..48];
    assert b[..HEADER_SIZE] == b[0..8] + b[8..16] + b[16..20] + b[20..24] + b[24..32] + b[32..34] + b[34..36] + b[36..38]
      + b[38..40] + b[40..44] + b[44..48];
  }
}
