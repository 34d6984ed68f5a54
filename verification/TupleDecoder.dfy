/** ValidateTuple and DecodeTupleValue: the validator accepts exactly the encoder's output. */
module TupleDecoder {
  import opened Basics
  import opened Bytes
  import opened Fields
  import opened TupleLayouts
  import opened TupleHeaders
  import opened TupleCodec
  import opened TupleEncoder

  datatype Descriptor = Descriptor(offset: u32, length: u32)

  function DescriptorAt(layout: Layout, t: seq<byte>, i: nat): Descriptor
    requires Packed(layout) && i < |layout.columns| && layout.columns[i].kind == Varchar && |t| >= layout.payloadOffset
  {
    assert Tiled(layout, i);
    var s := Slice(layout, t, i);
    Descriptor(U32At(s, 0), U32At(s, 4))
  }

  /** The bits above the last column's must be clear. */
  predicate UnusedBitsClear(layout: Layout, t: seq<byte>)
    requires Packed(layout) && |t| >= layout.payloadOffset
  {
    |layout.columns| % 8 == 0 || Shifted(t[layout.fixedOffset - 1], |layout.columns| % 8) == 0
  }

  /** The first loop, from column `i` on: NULLs must be allowed and Booleans canonical. */
  function ScanNulls(layout: Layout, t: seq<byte>, i: nat, hasNulls: bool): Result<bool, Failure>
    requires Packed(layout) && i <= |layout.columns| && |t| >= layout.payloadOffset
    decreases |layout.columns| - i
  {
    if i == |layout.columns| then Ok(hasNulls)
    else if !NullAt(layout, t, i) then
      assert Tiled(layout, i);
      if layout.columns[i].kind == Boolean && DecodeScalar(Boolean, Slice(layout, t, i)) == None then Err(Fail(InvalidBoolean, i))
      else ScanNulls(layout, t, i + 1, hasNulls)
    else if !layout.columns[i].nullable then Err(Fail(NullNotAllowed, i))
    else ScanNulls(layout, t, i + 1, true)
  }

  /** The second loop, from column `i` on: non-null descriptors chain through the payload. */
  function ScanVarlens(layout: Layout, t: seq<byte>, i: nat, expected: nat): Result<nat, Failure>
    requires Packed(layout) && i <= |layout.columns| && |t| >= layout.payloadOffset
    decreases |layout.columns| - i
  {
    if i == |layout.columns| then Ok(expected)
    else if layout.columns[i].kind != Varchar then ScanVarlens(layout, t, i + 1, expected)
    else
      var d := DescriptorAt(layout, t, i);
      if NullAt(layout, t, i) then
        if d != Descriptor(0, 0) then Err(Fail(InvalidVarlenDescriptor, i)) else ScanVarlens(layout, t, i + 1, expected)
      else if d.offset < layout.payloadOffset || d.offset + d.length > U32_MAX || d.offset + d.length > |t| then
        Err(Fail(InvalidVarlenDescriptor, i))
      else if d.offset != expected then Err(Fail(VarlenOffsetMismatch, i))
      else ScanVarlens(layout, t, i + 1, d.offset + d.length)
  }

  function CheckTuple(layout: Layout, t: seq<byte>): Result<Header, Failure>
    requires Packed(layout)
  {
    if |t| < layout.payloadOffset then Err(Fail(MalformedTuple, 0))
    else if |t| > MAX_RAW_TUPLE_SIZE then Err(Fail(TupleTooLarge, 0))
    else match DecodeTupleHeader(t)
      case Err(error) => Err(Failure(MalformedTuple, 0, Some(error)))
      case Ok(header) =>
        if header.schema != layout.schema then Err(Fail(SchemaVersionMismatch, 0))
        else if header.bitmapBytes != layout.bitmapBytes then Err(Fail(MalformedTuple, 0))
        else if (header.flags / 2 % 2 == 1) != (layout.varlenCount != 0) then Err(Fail(VarlenFlagMismatch, 0))
        else if !UnusedBitsClear(layout, t) then Err(Fail(MalformedTuple, 0))
        else match ScanNulls(layout, t, 0, false)
          case Err(failure) => Err(failure)
          case Ok(hasNulls) =>
            if (header.flags % 2 == 1) != hasNulls then Err(Fail(FlagBitmapMismatch, 0))
            else match ScanVarlens(layout, t, 0, layout.payloadOffset)
              case Err(failure) => Err(failure)
              case Ok(end) => if end != |t| then Err(Fail(TrailingBytes, 0)) else Ok(header)
  }

  method CheckNulls(layout: Layout, t: seq<byte>) returns (r: Result<bool, Failure>)
    requires Packed(layout) && |t| >= layout.payloadOffset
    ensures r == ScanNulls(layout, t, 0, false)
  {
    var hasNulls := false;
    for index := 0 to |layout.columns|
      invariant ScanNulls(layout, t, 0, false) == ScanNulls(layout, t, index, hasNulls)
    {
      if !NullAt(layout, t, index) {
        if layout.columns[index].kind == Boolean {
          assert Tiled(layout, index);
          if DecodeScalar(Boolean, Slice(layout, t, index)) == None {
            return Err(Fail(InvalidBoolean, index));
          }
        }
        continue;
      }
      if !layout.columns[index].nullable {
        return Err(Fail(NullNotAllowed, index));
      }
      hasNulls := true;
    }
    return Ok(hasNulls);
  }

  method CheckVarlens(layout: Layout, t: seq<byte>) returns (r: Result<nat, Failure>)
    requires Packed(layout) && |t| >= layout.payloadOffset
    ensures r == ScanVarlens(layout, t, 0, layout.payloadOffset)
  {
    var expected: nat := layout.payloadOffset;
    for index := 0 to |layout.columns|
      invariant ScanVarlens(layout, t, 0, layout.payloadOffset) == ScanVarlens(layout, t, index, expected)
    {
      if layout.columns[index].kind != Varchar {
        continue;
      }
      var d := DescriptorAt(layout, t, index);
      if NullAt(layout, t, index) {
        if d != Descriptor(0, 0) {
          return Err(Fail(InvalidVarlenDescriptor, index));
        }
        continue;
      }
      if d.offset < layout.payloadOffset || d.offset + d.length > U32_MAX || d.offset + d.length > |t| {
        return Err(Fail(InvalidVarlenDescriptor, index));
      }
      if d.offset != expected {
        return Err(Fail(VarlenOffsetMismatch, index));
      }
      expected := d.offset + d.length;
    }
    return Ok(expected);
  }

  method ValidateTuple(layout: Layout, t: seq<byte>) returns (r: Result<Header, Failure>)
    requires Packed(layout)
    ensures r == CheckTuple(layout, t)
  {
    if |t| < layout.payloadOffset {
      return Err(Fail(MalformedTuple, 0));
    }
    if |t| > MAX_RAW_TUPLE_SIZE {
      return Err(Fail(TupleTooLarge, 0));
    }
    var decoded := DecodeTupleHeader(t);
    if decoded.Err? {
      return Err(Failure(MalformedTuple, 0, Some(decoded.error)));
    }
    var header := decoded.value;
    if header.schema != layout.schema {
      return Err(Fail(SchemaVersionMismatch, 0));
    }
    if header.bitmapBytes != layout.bitmapBytes {
      return Err(Fail(MalformedTuple, 0));
    }
    if (header.flags / 2 % 2 == 1) != (layout.varlenCount != 0) {
      return Err(Fail(VarlenFlagMismatch, 0));
    }
    if !UnusedBitsClear(layout, t) {
      return Err(Fail(MalformedTuple, 0));
    }
    var nulls := CheckNulls(layout, t);
    if nulls.Err? {
      return Err(nulls.error);
    }
    if (header.flags % 2 == 1) != nulls.value {
      return Err(Fail(FlagBitmapMismatch, 0));
    }
    var end := CheckVarlens(layout, t);
    if end.Err? {
      return Err(end.error);
    }
    if end.value != |t| {
      return Err(Fail(TrailingBytes, 0));
    }
    return Ok(header);
  }

  // ---- Decoding ----

  /** The value column `i` holds, whether or not the tuple is valid. */
  function ValueAt(layout: Layout, t: seq<byte>, i: nat): Value
    requires Packed(layout) && i < |layout.columns| && |t| >= layout.payloadOffset
  {
    assert Tiled(layout, i);
    if NullAt(layout, t, i) then Null
    else if layout.columns[i].kind == Varchar then
      var d := DescriptorAt(layout, t, i);
      if d.offset + d.length <= |t| then VarcharValue(t[d.offset..d.offset + d.length]) else VarcharValue([])
    else match DecodeScalar(layout.columns[i].kind, Slice(layout, t, i))
      case Some(v) => v
      case None => BoolValue(false)
  }

  /** DecodeTupleValue: refuses a tuple that does not validate, keeping only the code and header detail. */
  function DecodeTupleValue(layout: Layout, t: seq<byte>, i: nat): Result<Value, Failure>
    requires Packed(layout)
  {
    if i >= |layout.columns| then Err(Fail(CodecError.ColumnOutOfRange, 0))
    else match CheckTuple(layout, t)
      case Err(failure) => Err(Failure(failure.code, 0, failure.header))
      case Ok(_) => Ok(ValueAt(layout, t, i))
  }

  // ---- Every encoding validates and decodes to its values ----

  ghost predicate Typed(layout: Layout, values: seq<Value>)
  {
    |values| == |layout.columns| && forall j :: 0 <= j < |values| ==> Admits(layout.columns[j], values[j])
  }

  lemma EncodedLength(layout: Layout, header: Header, values: seq<Value>, e: seq<byte>)
    requires Packed(layout) && Encodes(layout, header, values, e)
    ensures |e| >= layout.payloadOffset && |values| == |layout.columns|
  {
    hide HeaderFields, NullAt, Slice, ColumnImage;
  }

  lemma DescriptorRoundTrip(offset: u32, length: u32)
    ensures U32At(DescriptorImage(offset, length), 0) == offset && U32At(DescriptorImage(offset, length), 4) == length
  {
    RadixValues();
    var s := DescriptorImage(offset, length);
    DecodeEncode(offset, 4);
    DecodeEncode(length, 4);
    assert s[0..4] == LittleEndian(offset, 4) && s[4..8] == LittleEndian(length, 4);
  }

  lemma ZeroIsDescriptor()
    ensures Zeros(DESCRIPTOR_SIZE) == DescriptorImage(0, 0)
  {
    ZeroDescriptor();
  }

  /** One column of an encoding. */
  lemma EncodedColumn(layout: Layout, header: Header, values: seq<Value>, e: seq<byte>, i: nat)
    requires Packed(layout) && Typed(layout, values) && Encodes(layout, header, values, e) && i < |values|
    ensures |e| >= layout.payloadOffset && i < 8 * layout.bitmapBytes && Admits(layout.columns[i], values[i])
    ensures Slice(layout, e, i) == ColumnImage(layout, values, i)
    ensures NullAt(layout, e, i) <==> values[i].Null?
    ensures values[i].VarcharValue? ==> Cursor(layout, values, i) + |values[i].bytes| <= |e|
  {
    BitmapHolds(layout, i);
    PayloadGrows(values, i, |values|);
    hide Slice, NullAt, ColumnImage, HeaderFields;
  }

  lemma EncodedDescriptor(layout: Layout, header: Header, values: seq<Value>, e: seq<byte>, i: nat)
    requires Packed(layout) && Typed(layout, values) && Encodes(layout, header, values, e) && |e| <= MAX_RAW_TUPLE_SIZE
    requires i < |values| && layout.columns[i].kind == Varchar
    ensures |e| >= layout.payloadOffset
    ensures var d := DescriptorAt(layout, e, i);
      if values[i].VarcharValue? then d.offset == Cursor(layout, values, i) && d.length == |values[i].bytes| else d == Descriptor(0, 0)
  {
    EncodedColumn(layout, header, values, e, i);
    hide Encodes, Typed, Slice, Payload;
    ZeroIsDescriptor();
    if values[i].VarcharValue? {
      DescriptorRoundTrip(Cursor(layout, values, i), |values[i].bytes|);
    } else {
      DescriptorRoundTrip(0, 0);
    }
    hide U32At, DescriptorImage;
  }

  lemma {:induction false} EncodedVarlens(layout: Layout, header: Header, values: seq<Value>, e: seq<byte>, i: nat)
    requires Packed(layout) && Typed(layout, values) && Encodes(layout, header, values, e) && |e| <= MAX_RAW_TUPLE_SIZE
    requires i <= |values|
    ensures |e| >= layout.payloadOffset
    ensures ScanVarlens(layout, e, i, Cursor(layout, values, i)) == Ok(|e|)
    decreases |values| - i
  {
    hide Slice, NullAt, DescriptorAt, Payload, ColumnImage, HeaderFields;
    if i < |values| {
      EncodedVarlens(layout, header, values, e, i + 1);
      NextPayload(layout, values, i);
      EncodedColumn(layout, header, values, e, i);
      if layout.columns[i].kind == Varchar { EncodedDescriptor(layout, header, values, e, i); }
    }
    hide Encodes, Typed;
  }

  lemma BitmapHolds(layout: Layout, i: nat)
    requires Packed(layout) && i < |layout.columns|
    ensures i < 8 * layout.bitmapBytes
  {}

  predicate AnyNullFrom(values: seq<Value>, i: nat)
    requires i <= |values|
    decreases |values| - i
  {
    i < |values| && (values[i].Null? || AnyNullFrom(values, i + 1))
  }

  lemma {:induction false} AnyNullIff(values: seq<Value>, i: nat)
    requires i <= |values|
    ensures AnyNullFrom(values, i) <==> exists j :: i <= j < |values| && values[j].Null?
    decreases |values| - i
  {
    if i < |values| { AnyNullIff(values, i + 1); }
  }

  lemma NullColumnScan(layout: Layout, header: Header, values: seq<Value>, e: seq<byte>, i: nat, hasNulls: bool)
    requires Packed(layout) && Typed(layout, values) && Encodes(layout, header, values, e) && i < |values|
    ensures |e| >= layout.payloadOffset
    ensures ScanNulls(layout, e, i, hasNulls) == ScanNulls(layout, e, i + 1, hasNulls || values[i].Null?)
  {
    EncodedColumn(layout, header, values, e, i);
    if layout.columns[i].kind == Boolean && !values[i].Null? { ScalarRoundTrip(Boolean, values[i]); }
    hide Encodes, Typed, Slice, NullAt, DecodeScalar, ScalarImage;
  }

  lemma {:induction false} EncodedNulls(layout: Layout, header: Header, values: seq<Value>, e: seq<byte>, i: nat, hasNulls: bool)
    requires Packed(layout) && Typed(layout, values) && Encodes(layout, header, values, e) && i <= |values|
    ensures |e| >= layout.payloadOffset
    ensures ScanNulls(layout, e, i, hasNulls) == Ok(hasNulls || AnyNullFrom(values, i))
    decreases |values| - i
  {
    hide Encodes, Typed;
    EncodedLength(layout, header, values, e);
    if i < |values| {
      NullColumnScan(layout, header, values, e, i, hasNulls);
      EncodedNulls(layout, header, values, e, i + 1, hasNulls || values[i].Null?);
    }
  }

  lemma EncodedUnusedBits(layout: Layout, header: Header, values: seq<Value>, e: seq<byte>)
    requires Packed(layout) && Encodes(layout, header, values, e)
    ensures |e| >= layout.payloadOffset && UnusedBitsClear(layout, e)
  {
    var n := |layout.columns|;
    if n % 8 != 0 {
      var last := e[layout.fixedOffset - 1];
      assert layout.bitmapBytes == n / 8 + 1;
      forall k | n % 8 <= k < 8 ensures !Bit(last, k) {
        var column := 8 * (n / 8) + k;
        assert column / 8 == n / 8 && column % 8 == k;
        assert !NullAt(layout, e, column);
      }
      assert Pow2(8) == 256 by { assert Pow2(4) == 16; }
      HighBitsClear(last, n % 8, 8);
    }
  }

  lemma EncodedValue(layout: Layout, header: Header, values: seq<Value>, e: seq<byte>, i: nat)
    requires Packed(layout) && Typed(layout, values) && Encodes(layout, header, values, e) && |e| <= MAX_RAW_TUPLE_SIZE && i < |values|
    ensures |e| >= layout.payloadOffset && ValueAt(layout, e, i) == values[i]
  {
    hide Encodes, Typed, DescriptorAt, Payload, Slice, NullAt, ScalarImage, DecodeScalar;
    EncodedLength(layout, header, values, e);
    EncodedColumn(layout, header, values, e, i);
    if values[i].VarcharValue? {
      EncodedDescriptor(layout, header, values, e, i);
      EncodedPayload(layout, header, values, e, i);
    } else if !values[i].Null? {
      ScalarRoundTrip(layout.columns[i].kind, values[i]);
    }
  }

  lemma EncodedPayload(layout: Layout, header: Header, values: seq<Value>, e: seq<byte>, i: nat)
    requires Packed(layout) && Encodes(layout, header, values, e) && i < |values| && values[i].VarcharValue?
    ensures var cursor, length := Cursor(layout, values, i), |values[i].bytes|;
      cursor + length <= |e| && e[cursor..cursor + length] == values[i].bytes
  {
    hide Slice, NullAt, ColumnImage, HeaderFields;
    PayloadGrows(values, i, |values|);
    PayloadPiece(values, i, |values|);
    var from, length := |Payload(values, i)|, |values[i].bytes|;
    var p := e[layout.payloadOffset..];
    assert p[from..from + length] == e[layout.payloadOffset + from..layout.payloadOffset + from + length];
  }

  lemma {:induction false} PayloadPiece(values: seq<Value>, i: nat, n: nat)
    requires i < n <= |values| && values[i].VarcharValue?
    ensures var from, length := |Payload(values, i)|, |values[i].bytes|;
      from + length <= |Payload(values, n)| && Payload(values, n)[from..from + length] == values[i].bytes
  {
    if n > i + 1 {
      PayloadPiece(values, i, n - 1);
    }
  }

  lemma EncodingPasses(layout: Layout, header: Header, values: seq<Value>, e: seq<byte>)
    requires Packed(layout) && Typed(layout, values) && Encodes(layout, header, values, e) && |e| <= MAX_RAW_TUPLE_SIZE
    requires CheckHeader(header) == None && header.schema == layout.schema && header.bitmapBytes == layout.bitmapBytes
    requires (header.flags / 2 % 2 == 1) == (layout.varlenCount != 0) && (header.flags % 2 == 1) == HasNull(values)
    ensures CheckTuple(layout, e) == Ok(header)
  {
    hide HeaderFields, Typed, ScanNulls, ScanVarlens, UnusedBitsClear, CheckHeader;
    EncodedUnusedBits(layout, header, values, e) by { hide Encodes, Packed; }
    EncodedNulls(layout, header, values, e, 0, false) by { hide Encodes, Packed; }
    AnyNullIff(values, 0) by { hide Encodes, Packed; }
    EncodedVarlens(layout, header, values, e, 0) by { hide Encodes, Packed; }
    assert |e| >= HEADER_SIZE && HeaderFields(e) == header by { hide CheckTuple; }
    hide Encodes, Packed;
  }

  lemma EncodingAccepted(layout: Layout, meta: Metadata, values: seq<Value>, e: seq<byte>)
    requires Packed(layout) && EncodeError(layout, meta, values) == None
    requires Encodes(layout, HeaderFor(layout, meta, values), values, e)
    ensures Typed(layout, values) && |e| <= MAX_RAW_TUPLE_SIZE && CheckHeader(HeaderFor(layout, meta, values)) == None
    ensures |values| == |layout.columns| && |e| >= layout.payloadOffset
  {
    TypeErrorIff(layout, values, 0);
    PlanIsExact(layout, values);
    hide Plan, CheckHeader, HeaderFields, Packed;
  }

  /** Round trip: what EncodeTuple accepts and writes validates, and every column decodes to its value. */
  lemma EncodingValidates(layout: Layout, meta: Metadata, values: seq<Value>, e: seq<byte>)
    requires Packed(layout) && EncodeError(layout, meta, values) == None
    requires Encodes(layout, HeaderFor(layout, meta, values), values, e)
    ensures CheckTuple(layout, e) == Ok(HeaderFor(layout, meta, values))
    ensures forall i :: 0 <= i < |values| ==> DecodeTupleValue(layout, e, i) == Ok(values[i])
  {
    var header := HeaderFor(layout, meta, values);
    hide CheckTuple;
    EncodingAccepted(layout, meta, values, e);
    hide Encodes, EncodeError, CheckHeader, Packed;
    EncodingPasses(layout, header, values, e);
    forall i | 0 <= i < |values| ensures DecodeTupleValue(layout, e, i) == Ok(values[i]) {
      EncodedValue(layout, header, values, e, i);
    }
  }

  // ---- Every valid tuple is an encoding, up to the bytes nobody reads ----

  /** Byte `k` belongs to the fixed bytes of a NULL column that is not a VARCHAR. */
  predicate Unread(layout: Layout, t: seq<byte>, k: nat)
    requires Packed(layout) && |t| >= layout.payloadOffset
  {
    exists i :: 0 <= i < |layout.columns| && UnreadColumn(layout, t, i)
      && layout.columns[i].offset <= k < layout.columns[i].offset + layout.columns[i].width
  }

  predicate UnreadColumn(layout: Layout, t: seq<byte>, i: nat)
    requires Packed(layout) && |t| >= layout.payloadOffset && i < |layout.columns|
  {
    BitmapHolds(layout, i);
    NullAt(layout, t, i) && layout.columns[i].kind != Varchar
  }

  /** `t` and `e` differ at most in bytes nobody reads. */
  ghost predicate Agrees(layout: Layout, t: seq<byte>, e: seq<byte>)
    requires Packed(layout)
  {
    |t| == |e| >= layout.payloadOffset && forall k :: 0 <= k < |t| ==> t[k] == e[k] || Unread(layout, e, k)
  }

  /** The unread bytes lie in the fixed area. */
  lemma UnreadIsFixed(layout: Layout, t: seq<byte>, k: nat)
    requires Packed(layout) && |t| >= layout.payloadOffset && Unread(layout, t, k)
    ensures layout.fixedOffset <= k < layout.payloadOffset
  {
    var i :| 0 <= i < |layout.columns| && UnreadColumn(layout, t, i)
      && layout.columns[i].offset <= k < layout.columns[i].offset + layout.columns[i].width;
    assert Tiled(layout, i);
    StartsFromFirst(layout, i);
    StartsToLast(layout, i + 1);
  }

  /** A column that is read has no unread byte: columns do not overlap. */
  lemma ReadColumnIsRead(layout: Layout, t: seq<byte>, i: nat, k: nat)
    requires Packed(layout) && |t| >= layout.payloadOffset && i < |layout.columns| && !UnreadColumn(layout, t, i)
    requires layout.columns[i].offset <= k < layout.columns[i].offset + layout.columns[i].width
    ensures !Unread(layout, t, k)
  {
    forall j | 0 <= j < |layout.columns| && UnreadColumn(layout, t, j)
      ensures !(layout.columns[j].offset <= k < layout.columns[j].offset + layout.columns[j].width)
    {
      assert Tiled(layout, i) && Tiled(layout, j);
      if i < j { StartsOrdered(layout, i + 1, j); } else { StartsOrdered(layout, j + 1, i); }
    }
  }

  lemma AgreeingParts(layout: Layout, t: seq<byte>, e: seq<byte>)
    requires Packed(layout) && Agrees(layout, t, e)
    ensures t[..layout.fixedOffset] == e[..layout.fixedOffset] && t[layout.payloadOffset..] == e[layout.payloadOffset..]
    ensures HeaderFields(t) == HeaderFields(e)
    ensures forall i :: 0 <= i < 8 * layout.bitmapBytes ==> NullAt(layout, t, i) == NullAt(layout, e, i)
  {
    forall k | 0 <= k < |t| && !(layout.fixedOffset <= k < layout.payloadOffset) ensures t[k] == e[k] {
      if Unread(layout, e, k) { UnreadIsFixed(layout, e, k); }
    }
    assert t[..HEADER_SIZE] == e[..HEADER_SIZE];
    SameFront(t, e);
    hide HeaderFields, Unread;
  }

  lemma AgreeingColumn(layout: Layout, t: seq<byte>, e: seq<byte>, i: nat)
    requires Packed(layout) && Agrees(layout, t, e) && i < |layout.columns| && !UnreadColumn(layout, e, i)
    ensures Slice(layout, t, i) == Slice(layout, e, i)
  {
    StartsOrdered(layout, i, |layout.columns|);
    assert Tiled(layout, i);
    forall k | layout.columns[i].offset <= k < layout.columns[i].offset + layout.columns[i].width ensures t[k] == e[k] {
      ReadColumnIsRead(layout, e, i, k);
    }
  }

  lemma {:induction false} AgreeingNulls(layout: Layout, t: seq<byte>, e: seq<byte>, i: nat, hasNulls: bool)
    requires Packed(layout) && Agrees(layout, t, e) && i <= |layout.columns|
    ensures ScanNulls(layout, t, i, hasNulls) == ScanNulls(layout, e, i, hasNulls)
    decreases |layout.columns| - i
  {
    if i < |layout.columns| {
      AgreeingParts(layout, t, e);
      BitmapHolds(layout, i);
      if !NullAt(layout, e, i) { AgreeingColumn(layout, t, e, i); }
      AgreeingNulls(layout, t, e, i + 1, hasNulls);
      AgreeingNulls(layout, t, e, i + 1, true);
      hide Agrees, NullAt, Slice;
    }
  }

  lemma {:induction false} AgreeingVarlens(layout: Layout, t: seq<byte>, e: seq<byte>, i: nat, expected: nat)
    requires Packed(layout) && Agrees(layout, t, e) && i <= |layout.columns|
    ensures ScanVarlens(layout, t, i, expected) == ScanVarlens(layout, e, i, expected)
    decreases |layout.columns| - i
  {
    if i < |layout.columns| {
      AgreeingParts(layout, t, e);
      BitmapHolds(layout, i);
      if layout.columns[i].kind == Varchar {
        AgreeingColumn(layout, t, e, i);
        var d := DescriptorAt(layout, e, i);
        AgreeingVarlens(layout, t, e, i + 1, d.offset + d.length);
      }
      AgreeingVarlens(layout, t, e, i + 1, expected);
      hide Agrees, NullAt, Slice;
    }
  }

  /** The validator looks at no unread byte. */
  lemma AgreeingValidates(layout: Layout, t: seq<byte>, e: seq<byte>)
    requires Packed(layout) && Agrees(layout, t, e)
    ensures CheckTuple(layout, t) == CheckTuple(layout, e)
  {
    AgreeingParts(layout, t, e);
    AgreeingNulls(layout, t, e, 0, false);
    AgreeingVarlens(layout, t, e, 0, layout.payloadOffset);
    if |layout.columns| % 8 != 0 {
      assert t[layout.fixedOffset - 1] == t[..layout.fixedOffset][layout.fixedOffset - 1];
      assert e[layout.fixedOffset - 1] == e[..layout.fixedOffset][layout.fixedOffset - 1];
    }
    hide Agrees, HeaderFields, ScanNulls, ScanVarlens, CheckHeader, NullAt;
  }
}
