/** The schema-directed tuple printer and parser (src/storage/tuple/tuple_codec.cpp). */
module TupleCodec {
  import opened Basics
  import opened Bytes
  import opened TupleLayouts
  import opened TupleHeaders

  // ---- Values ----

  /** A double travels as its 64-bit pattern. */
  datatype Value =
    | Null
    | BoolValue(on: bool)
    | Int32Value(int32: i32)
    | Int64Value(int64: i64)
    | Float64Value(bits: u64)
    | DateValue(day: i32)
    | TimestampValue(instant: i64)
    | VarcharValue(bytes: seq<byte>)

  predicate Matches(kind: PhysicalType, v: Value)
  {
    match kind
    case Boolean => v.BoolValue?
    case Int32 => v.Int32Value?
    case Int64 => v.Int64Value?
    case Float64 => v.Float64Value?
    case Date => v.DateValue?
    case Timestamp => v.TimestampValue?
    case Varchar => v.VarcharValue?
  }

  datatype CodecError =
    | ColumnCountMismatch | ColumnOutOfRange | TypeMismatch | NullNotAllowed | VarcharLengthTooLarge | TupleTooLarge
    | InvalidHeaderMetadata | MalformedTuple | SchemaVersionMismatch | InvalidBoolean | FlagBitmapMismatch
    | VarlenFlagMismatch | InvalidVarlenDescriptor | VarlenOffsetMismatch | TrailingBytes

  datatype Failure = Failure(code: CodecError, column: nat, header: Option<HeaderError>)

  function Fail(code: CodecError, column: nat): Failure { Failure(code, column, None) }

  // ---- Fixed-width scalars ----

  predicate IsScalar(v: Value) { !v.Null? && !v.VarcharValue? }

  function ScalarImage(v: Value): seq<byte>
    requires IsScalar(v)
  {
    RadixValues();
    match v
    case BoolValue(on) => [if on then 1 else 0]
    case Int32Value(x) => LittleEndian(Unsigned(x, 4), 4)
    case Int64Value(x) => LittleEndian(Unsigned(x, 8), 8)
    case Float64Value(bits) => LittleEndian(bits, 8)
    case DateValue(x) => LittleEndian(Unsigned(x, 4), 4)
    case TimestampValue(x) => LittleEndian(Unsigned(x, 8), 8)
  }

  /** DecodeFixedScalar of a source of exactly the type's width: only a Boolean can be malformed. */
  function DecodeScalar(kind: PhysicalType, s: seq<byte>): (r: Option<Value>)
    requires kind != Varchar && |s| == Width(kind)
    ensures r.Some? ==> IsScalar(r.value) && Matches(kind, r.value)
  {
    RadixValues();
    EncodeDecode(s);
    match kind
    case Boolean => if s[0] > 1 then None else Some(BoolValue(s[0] == 1))
    case Int32 => Some(Int32Value(Signed(FromLittleEndian(s), 4)))
    case Int64 => Some(Int64Value(Signed(FromLittleEndian(s), 8)))
    case Float64 => Some(Float64Value(FromLittleEndian(s)))
    case Date => Some(DateValue(Signed(FromLittleEndian(s), 4)))
    case Timestamp => Some(TimestampValue(Signed(FromLittleEndian(s), 8)))
  }

  lemma ScalarRoundTrip(kind: PhysicalType, v: Value)
    requires kind != Varchar && Matches(kind, v)
    ensures |ScalarImage(v)| == Width(kind) && DecodeScalar(kind, ScalarImage(v)) == Some(v)
  {
    RadixValues();
    match v {
      case BoolValue(_) =>
      case Int32Value(x) => DecodeEncode(Unsigned(x, 4), 4); SignedUnsigned(x, 4);
      case Int64Value(x) => DecodeEncode(Unsigned(x, 8), 8); SignedUnsigned(x, 8);
      case Float64Value(bits) => DecodeEncode(bits, 8);
      case DateValue(x) => DecodeEncode(Unsigned(x, 4), 4); SignedUnsigned(x, 4);
      case TimestampValue(x) => DecodeEncode(Unsigned(x, 8), 8); SignedUnsigned(x, 8);
    }
  }

  lemma ScalarCanonical(kind: PhysicalType, s: seq<byte>)
    requires kind != Varchar && |s| == Width(kind) && DecodeScalar(kind, s).Some?
    ensures ScalarImage(DecodeScalar(kind, s).value) == s
  {
    RadixValues();
    EncodeDecode(s);
  }

  // ---- Encoding: what is refused ----

  datatype Metadata = Metadata(xmin: u64, xmax: u64, cmin: u32, cmax: u32, prevPage: u64, prevSlot: u16)

  datatype VarlenSize = VarlenSize(length: nat, isNull: bool)

  datatype PlanError = CountMismatch | LengthTooLarge | PlanOverflow | PlanTooLarge

  datatype PlanFailure = PlanFailure(code: PlanError, index: nat)

  datatype SizePlan = SizePlan(payload: nat, total: nat)

  /** PlanTupleSize's loop from value `i` on. */
  function PlanFrom(sizes: seq<VarlenSize>, i: nat, payload: nat): Result<nat, PlanFailure>
    requires i <= |sizes|
    decreases |sizes| - i
  {
    if i == |sizes| then Ok(payload)
    else if sizes[i].isNull then PlanFrom(sizes, i + 1, payload)
    else if sizes[i].length > U32_MAX then Err(PlanFailure(LengthTooLarge, i))
    else match CheckedAdd(payload, sizes[i].length)
      case None => Err(PlanFailure(PlanOverflow, i))
      case Some(sum) => PlanFrom(sizes, i + 1, sum)
  }

  function Plan(layout: Layout, sizes: seq<VarlenSize>): Result<SizePlan, PlanFailure>
  {
    if |sizes| != layout.varlenCount then Err(PlanFailure(CountMismatch, 0))
    else match PlanFrom(sizes, 0, 0)
      case Err(failure) => Err(failure)
      case Ok(payload) =>
        match CheckedAdd(layout.payloadOffset, payload)
        case None => Err(PlanFailure(PlanOverflow, 0))
        case Some(total) => if total > MAX_RAW_TUPLE_SIZE then Err(PlanFailure(PlanTooLarge, 0)) else Ok(SizePlan(payload, total))
  }

  method PlanTupleSize(layout: Layout, sizes: seq<VarlenSize>) returns (r: Result<SizePlan, PlanFailure>)
    ensures r == Plan(layout, sizes)
  {
    if |sizes| != layout.varlenCount {
      return Err(PlanFailure(CountMismatch, 0));
    }
    var payload := 0;
    for index := 0 to |sizes|
      invariant PlanFrom(sizes, 0, 0) == PlanFrom(sizes, index, payload)
    {
      if sizes[index].isNull {
        continue;
      }
      if sizes[index].length > U32_MAX {
        return Err(PlanFailure(LengthTooLarge, index));
      }
      var sum := CheckedAdd(payload, sizes[index].length);
      if sum == None {
        return Err(PlanFailure(PlanOverflow, index));
      }
      payload := sum.value;
    }
    var total := CheckedAdd(layout.payloadOffset, payload);
    if total == None {
      return Err(PlanFailure(PlanOverflow, 0));
    }
    if total.value > MAX_RAW_TUPLE_SIZE {
      return Err(PlanFailure(PlanTooLarge, 0));
    }
    return Ok(SizePlan(payload, total.value));
  }

  /** The first column from `i` on whose value the column does not admit. */
  function TypeError(layout: Layout, values: seq<Value>, i: nat): Option<Failure>
    requires |values| == |layout.columns| && i <= |values|
    decreases |values| - i
  {
    if i == |values| then None
    else if values[i].Null? then
      if !layout.columns[i].nullable then Some(Fail(NullNotAllowed, i)) else TypeError(layout, values, i + 1)
    else if !Matches(layout.columns[i].kind, values[i]) then Some(Fail(TypeMismatch, i))
    else TypeError(layout, values, i + 1)
  }

  predicate Admits(column: Column, v: Value)
  {
    if v.Null? then column.nullable else Matches(column.kind, v)
  }

  lemma {:induction false} TypeErrorIff(layout: Layout, values: seq<Value>, i: nat)
    requires |values| == |layout.columns| && i <= |values|
    ensures TypeError(layout, values, i) == None <==> forall j :: i <= j < |values| ==> Admits(layout.columns[j], values[j])
    decreases |values| - i
  {
    if i < |values| { TypeErrorIff(layout, values, i + 1); }
  }

  function SizeOf(column: Column, v: Value): seq<VarlenSize>
  {
    if column.kind != Varchar then [] else if v.VarcharValue? then [VarlenSize(|v.bytes|, false)] else [VarlenSize(0, true)]
  }

  /** The sizes of the VARCHAR columns before column `i`, in order. */
  function SizesUpTo(layout: Layout, values: seq<Value>, i: nat): seq<VarlenSize>
    requires i <= |values| == |layout.columns|
  {
    if i == 0 then []
    else SizesUpTo(layout, values, i - 1) + SizeOf(layout.columns[i - 1], values[i - 1])
  }

  /** VarlenSchemaColumnIndex: the schema column of VARCHAR number `k`, counted from column `i`. */
  function VarlenColumn(layout: Layout, k: nat, i: nat): nat
    requires i <= |layout.columns|
    decreases |layout.columns| - i
  {
    if i == |layout.columns| then i
    else if layout.columns[i].kind != Varchar then VarlenColumn(layout, k, i + 1)
    else if k == 0 then i else VarlenColumn(layout, k - 1, i + 1)
  }

  function PlanningError(code: PlanError): CodecError
  {
    match code
    case LengthTooLarge => VarcharLengthTooLarge
    case PlanOverflow => TupleTooLarge
    case PlanTooLarge => TupleTooLarge
    case CountMismatch => MalformedTuple
  }

  predicate HasNull(values: seq<Value>) { exists i :: 0 <= i < |values| && values[i].Null? }

  function HeaderFor(layout: Layout, meta: Metadata, values: seq<Value>): Header
    requires layout.bitmapBytes <= U16_MAX
  {
    Header(meta.xmin, meta.xmax, meta.cmin, meta.cmax, meta.prevPage, meta.prevSlot,
           (if HasNull(values) then FLAG_HAS_NULLS else 0) + (if layout.varlenCount != 0 then FLAG_HAS_VARLEN else 0),
           HEADER_SIZE, layout.bitmapBytes, layout.schema, 0)
  }

  /** Why EncodeTuple refuses, if it does. */
  function EncodeError(layout: Layout, meta: Metadata, values: seq<Value>): Option<Failure>
    requires layout.bitmapBytes <= U16_MAX
  {
    if |values| != |layout.columns| then Some(Fail(ColumnCountMismatch, 0))
    else match TypeError(layout, values, 0)
      case Some(failure) => Some(failure)
      case None =>
        match Plan(layout, SizesUpTo(layout, values, |values|))
        case Err(failure) => Some(Fail(PlanningError(failure.code), VarlenColumn(layout, failure.index, 0)))
        case Ok(_) =>
          if CheckHeader(HeaderFor(layout, meta, values)) != None then Some(Fail(InvalidHeaderMetadata, 0)) else None
  }

  // ---- Encoding: what is written ----

  /** The VARCHAR bytes of the first `i` values, back to back. */
  function Payload(values: seq<Value>, i: nat): seq<byte>
    requires i <= |values|
  {
    if i == 0 then [] else Payload(values, i - 1) + (if values[i - 1].VarcharValue? then values[i - 1].bytes else [])
  }

  function Cursor(layout: Layout, values: seq<Value>, i: nat): nat
    requires i <= |values|
  {
    layout.payloadOffset + |Payload(values, i)|
  }

  function DescriptorImage(offset: nat, length: nat): (s: seq<byte>)
    ensures |s| == DESCRIPTOR_SIZE
  {
    LittleEndian(offset, 4) + LittleEndian(length, 4)
  }

  /** The fixed-area bytes of column `i`. */
  function ColumnImage(layout: Layout, values: seq<Value>, i: nat): seq<byte>
    requires i < |values| == |layout.columns|
  {
    match values[i]
    case Null => Zeros(layout.columns[i].width)
    case VarcharValue(bytes) => DescriptorImage(Cursor(layout, values, i), |bytes|)
    case _ => ScalarImage(values[i])
  }

  function Slice(layout: Layout, t: seq<byte>, i: nat): (s: seq<byte>)
    requires Packed(layout) && i < |layout.columns| && |t| >= layout.payloadOffset
    ensures |s| == layout.columns[i].width == Width(layout.columns[i].kind)
  {
    StartsOrdered(layout, i, |layout.columns|);
    assert Tiled(layout, i);
    t[layout.columns[i].offset..layout.columns[i].offset + layout.columns[i].width]
  }

  /** The null bit of column `i`. */
  predicate NullAt(layout: Layout, t: seq<byte>, i: nat)
    requires Packed(layout) && i < 8 * layout.bitmapBytes && |t| >= layout.payloadOffset
  {
    Bit(t[HEADER_SIZE + i / 8], i % 8)
  }

  /** `e` is the tuple of `values` under `layout` with this header. */
  ghost predicate Encodes(layout: Layout, header: Header, values: seq<Value>, e: seq<byte>)
    requires Packed(layout)
  {
    && |values| == |layout.columns| && |e| == Cursor(layout, values, |values|)
    && HeaderFields(e) == header
    && (forall i :: 0 <= i < 8 * layout.bitmapBytes ==> (NullAt(layout, e, i) <==> i < |values| && values[i].Null?))
    && (forall i :: 0 <= i < |values| ==> Slice(layout, e, i) == ColumnImage(layout, values, i))
    && e[layout.payloadOffset..] == Payload(values, |values|)
  }
}
