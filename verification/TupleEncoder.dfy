/** EncodeTuple writes its buffer column by column; the result is the tuple of its values. */
module TupleEncoder {
  import opened Basics
  import opened Bytes
  import opened Fields
  import opened TupleLayouts
  import opened TupleHeaders
  import opened TupleCodec

  // ---- One column's writes ----

  predicate Ready(layout: Layout, values: seq<Value>, b: seq<byte>)
  {
    && Packed(layout) && |values| == |layout.columns| && |b| == Cursor(layout, values, |values|)
    && forall j :: 0 <= j < |values| ==> Admits(layout.columns[j], values[j])
  }

  lemma {:induction false} PayloadGrows(values: seq<Value>, i: nat, j: nat)
    requires i <= j <= |values|
    ensures |Payload(values, i)| <= |Payload(values, j)|
    ensures i < j && values[i].VarcharValue? ==> |Payload(values, i)| + |values[i].bytes| <= |Payload(values, j)|
  {
    if i < j { PayloadGrows(values, i, j - 1); }
  }

  lemma ColumnFits(layout: Layout, values: seq<Value>, b: seq<byte>, i: nat)
    requires Ready(layout, values, b) && i < |values|
    ensures HEADER_SIZE <= layout.fixedOffset <= layout.columns[i].offset
    ensures layout.columns[i].offset + layout.columns[i].width == Start(layout, i + 1) <= layout.payloadOffset <= |b|
    ensures Cursor(layout, values, i) + (if values[i].VarcharValue? then |values[i].bytes| else 0) <= |b|
    ensures i / 8 < layout.bitmapBytes && layout.columns[i].width == Width(layout.columns[i].kind)
    ensures |ColumnImage(layout, values, i)| == layout.columns[i].width
    ensures values[i].VarcharValue? ==> layout.columns[i].kind == Varchar
  {
    assert Tiled(layout, i);
    assert Admits(layout.columns[i], values[i]);
    StartsFromFirst(layout, i);
    StartsToLast(layout, i + 1);
    PayloadGrows(values, i, |values|);
    if IsScalar(values[i]) { ScalarRoundTrip(layout.columns[i].kind, values[i]); }
  }

  /** The buffer after the writes for column `i`. */
  function Step(layout: Layout, values: seq<Value>, b: seq<byte>, i: nat): (r: seq<byte>)
    requires Ready(layout, values, b) && i < |values|
    ensures |r| == |b|
  {
    ColumnFits(layout, values, b, i);
    hide Payload, ColumnImage, Admits, Packed;
    var column := layout.columns[i];
    match values[i]
    case Null =>
      var marked := Write(b, HEADER_SIZE, Marked(b[HEADER_SIZE..layout.fixedOffset], i, true));
      if column.kind == Varchar then Write(marked, column.offset, DescriptorImage(0, 0)) else marked
    case VarcharValue(bytes) =>
      Write(Write(b, column.offset, ColumnImage(layout, values, i)), Cursor(layout, values, i), bytes)
    case _ => Write(b, column.offset, ColumnImage(layout, values, i))
  }

  /** The buffer once the first `i` columns are in place. */
  ghost predicate Prefix(layout: Layout, header: Header, values: seq<Value>, b: seq<byte>, i: nat)
    requires Ready(layout, values, b) && i <= |values|
  {
    && HeaderFields(b) == header
    && (forall k :: 0 <= k < 8 * layout.bitmapBytes ==> (NullAt(layout, b, k) <==> k < i && values[k].Null?))
    && (forall j :: 0 <= j < i ==> Slice(layout, b, j) == ColumnImage(layout, values, j))
    && (forall k :: Start(layout, i) <= k < layout.payloadOffset ==> b[k] == 0)
    && Cursor(layout, values, i) <= |b| && b[layout.payloadOffset..Cursor(layout, values, i)] == Payload(values, i)
  }

  /** Bytes of the header, the bitmap, other columns and earlier payload survive a column's writes. */
  lemma StepElsewhere(layout: Layout, values: seq<Value>, b: seq<byte>, i: nat, k: nat)
    requires Ready(layout, values, b) && i < |values| && k < |b|
    requires k != HEADER_SIZE + i / 8 || !values[i].Null?
    requires !(layout.columns[i].offset <= k < Start(layout, i + 1))
    requires !(Cursor(layout, values, i) <= k < Cursor(layout, values, i + 1))
    ensures Step(layout, values, b, i)[k] == b[k]
  {
    ColumnFits(layout, values, b, i);
    assert Tiled(layout, i);
  }

  lemma StepNullColumn(layout: Layout, values: seq<Value>, b: seq<byte>, i: nat)
    requires Ready(layout, values, b) && i < |values| && values[i].Null?
    requires forall k :: layout.columns[i].offset <= k < layout.payloadOffset ==> b[k] == 0
    ensures Slice(layout, Step(layout, values, b, i), i) == Zeros(layout.columns[i].width)
  {
    ColumnFits(layout, values, b, i);
    ZeroDescriptor();
    var r := Step(layout, values, b, i);
    var offset, width := layout.columns[i].offset, layout.columns[i].width;
    forall k | offset <= k < offset + width ensures r[k] == 0 {}
    hide DescriptorImage, ColumnImage, Payload;
  }

  lemma StepFullColumn(layout: Layout, values: seq<Value>, b: seq<byte>, i: nat)
    requires Ready(layout, values, b) && i < |values| && !values[i].Null?
    ensures Slice(layout, Step(layout, values, b, i), i) == ColumnImage(layout, values, i)
  {
    ColumnFits(layout, values, b, i);
    var image, offset := ColumnImage(layout, values, i), layout.columns[i].offset;
    var written := Write(b, offset, image);
    WrittenSlice(b, offset, image);
    match values[i] {
      case VarcharValue(bytes) =>
        BeforeWrite(written, Cursor(layout, values, i), bytes, offset, offset + |image|);
      case _ =>
    }
    hide ColumnImage, Payload, Admits, Write;
  }

  lemma WrittenSlice(b: seq<byte>, at: nat, v: seq<byte>)
    requires at + |v| <= |b|
    ensures Write(b, at, v)[at..at + |v|] == v
  {}

  lemma BeforeWrite(b: seq<byte>, at: nat, v: seq<byte>, from: nat, to: nat)
    requires from <= to <= at && at + |v| <= |b|
    ensures Write(b, at, v)[from..to] == b[from..to]
  {}

  lemma StepColumn(layout: Layout, values: seq<Value>, b: seq<byte>, i: nat)
    requires Ready(layout, values, b) && i < |values|
    requires forall k :: layout.columns[i].offset <= k < layout.payloadOffset ==> b[k] == 0
    ensures Slice(layout, Step(layout, values, b, i), i) == ColumnImage(layout, values, i)
  {
    if values[i].Null? { StepNullColumn(layout, values, b, i); } else { StepFullColumn(layout, values, b, i); }
    hide Step, Slice;
  }

  lemma ZeroDescriptor()
    ensures forall k :: 0 <= k < DESCRIPTOR_SIZE ==> DescriptorImage(0, 0)[k] == 0
  {
    forall k | 0 <= k < 4 ensures LittleEndian(0, 4)[k] == 0 { ZeroDigits(4, k); }
  }

  lemma {:induction false} ZeroDigits(width: nat, k: nat)
    requires k < width
    ensures LittleEndian(0, width)[k] == 0
  {
    if k > 0 { ZeroDigits(width - 1, k - 1); }
  }

  lemma StepBitmap(layout: Layout, values: seq<Value>, b: seq<byte>, i: nat, k: nat)
    requires Ready(layout, values, b) && i < |values| && k < 8 * layout.bitmapBytes
    ensures NullAt(layout, Step(layout, values, b, i), k) == if k == i && values[i].Null? then true else NullAt(layout, b, k)
  {
    ColumnFits(layout, values, b, i);
    assert Tiled(layout, i);
    var at := HEADER_SIZE + k / 8;
    if values[i].Null? && k / 8 == i / 8 {
      assert Step(layout, values, b, i)[at] == WithBit(b[at], i % 8, true);
      WithBitBits(b[at], i % 8, true, k % 8);
    } else {
      StepElsewhere(layout, values, b, i, at);
    }
  }

  lemma StepPayloadBytes(layout: Layout, values: seq<Value>, b: seq<byte>, i: nat)
    requires Ready(layout, values, b) && i < |values| && values[i].VarcharValue?
    ensures var cursor, r := Cursor(layout, values, i), Step(layout, values, b, i);
      cursor + |values[i].bytes| <= |r| && r[cursor..cursor + |values[i].bytes|] == values[i].bytes
  {
    ColumnFits(layout, values, b, i);
    hide ColumnImage;
  }

  lemma StepOldPayload(layout: Layout, values: seq<Value>, b: seq<byte>, i: nat)
    requires Ready(layout, values, b) && i < |values| && Cursor(layout, values, i) <= |b|
    ensures var from, cursor := layout.payloadOffset, Cursor(layout, values, i);
      Step(layout, values, b, i)[from..cursor] == b[from..cursor]
  {
    ColumnFits(layout, values, b, i);
    assert Tiled(layout, i);
    hide Step, Payload, ColumnImage;
    var r := Step(layout, values, b, i);
    forall k | layout.payloadOffset <= k < Cursor(layout, values, i) ensures r[k] == b[k] {
      StepElsewhere(layout, values, b, i, k);
    }
  }

  lemma SplitAt(r: seq<byte>, from: nat, cursor: nat, end: nat)
    requires from <= cursor <= end <= |r|
    ensures r[from..end] == r[from..cursor] + r[cursor..end]
  {}

  lemma NextPayload(layout: Layout, values: seq<Value>, i: nat)
    requires i < |values|
    ensures var bytes := if values[i].VarcharValue? then values[i].bytes else [];
      Payload(values, i + 1) == Payload(values, i) + bytes && Cursor(layout, values, i + 1) == Cursor(layout, values, i) + |bytes|
  {}

  lemma StepPayload(layout: Layout, values: seq<Value>, b: seq<byte>, i: nat)
    requires Ready(layout, values, b) && i < |values| && Cursor(layout, values, i) <= |b|
    requires b[layout.payloadOffset..Cursor(layout, values, i)] == Payload(values, i)
    ensures Cursor(layout, values, i + 1) <= |b|
    ensures Step(layout, values, b, i)[layout.payloadOffset..Cursor(layout, values, i + 1)] == Payload(values, i + 1)
  {
    assert |b| == Cursor(layout, values, |values|);
    PayloadGrows(values, i + 1, |values|);
    NextPayload(layout, values, i);
    hide Step, ColumnImage, Ready, Payload;
    StepOldPayload(layout, values, b, i);
    if values[i].VarcharValue? { StepPayloadBytes(layout, values, b, i); }
    SplitAt(Step(layout, values, b, i), layout.payloadOffset, Cursor(layout, values, i), Cursor(layout, values, i + 1));
  }

  lemma StepPrefix(layout: Layout, header: Header, values: seq<Value>, b: seq<byte>, i: nat)
    requires Ready(layout, values, b) && i < |values| && Prefix(layout, header, values, b, i)
    ensures Prefix(layout, header, values, Step(layout, values, b, i), i + 1)
  {
    hide Step, Slice, ColumnImage, HeaderFields, Payload, Admits, Bit;
    ColumnFits(layout, values, b, i);
    assert Tiled(layout, i);
    var r := Step(layout, values, b, i);
    forall k | 0 <= k < HEADER_SIZE ensures r[k] == b[k] { StepElsewhere(layout, values, b, i, k); }
    assert r[..HEADER_SIZE] == b[..HEADER_SIZE];
    SameFront(r, b);
    forall k | 0 <= k < 8 * layout.bitmapBytes ensures NullAt(layout, r, k) <==> k < i + 1 && values[k].Null? {
      StepBitmap(layout, values, b, i, k);
    }
    forall j | 0 <= j < i + 1 ensures Slice(layout, r, j) == ColumnImage(layout, values, j) {
      if j == i { StepColumn(layout, values, b, i); } else { StepOldColumn(layout, values, b, i, j); }
    }
    forall k | Start(layout, i + 1) <= k < layout.payloadOffset ensures r[k] == 0 {
      StepElsewhere(layout, values, b, i, k);
    }
    StepPayload(layout, values, b, i);
  }

  lemma StepOldColumn(layout: Layout, values: seq<Value>, b: seq<byte>, i: nat, j: nat)
    requires Ready(layout, values, b) && j < i < |values|
    ensures Slice(layout, Step(layout, values, b, i), j) == Slice(layout, b, j)
  {
    ColumnFits(layout, values, b, i);
    ColumnFits(layout, values, b, j);
    StartsOrdered(layout, j, i);
    assert Tiled(layout, i) && Tiled(layout, j);
    hide Step, Ready, ColumnImage;
    var r := Step(layout, values, b, i);
    var offset, width := layout.columns[j].offset, layout.columns[j].width;
    forall k | offset <= k < offset + width ensures r[k] == b[k] { StepElsewhere(layout, values, b, i, k); }
    assert r[offset..offset + width] == b[offset..offset + width];
  }

  // ---- The planned size ----

  function TotalLength(sizes: seq<VarlenSize>, i: nat): nat
    requires i <= |sizes|
    decreases |sizes| - i
  {
    if i == |sizes| then 0 else (if sizes[i].isNull then 0 else sizes[i].length) + TotalLength(sizes, i + 1)
  }

  lemma {:induction false} TotalAppend(a: seq<VarlenSize>, b: seq<VarlenSize>, i: nat)
    requires i <= |a|
    ensures TotalLength(a + b, i) == TotalLength(a, i) + TotalLength(b, 0)
    decreases |a| - i
  {
    if i < |a| { TotalAppend(a, b, i + 1); } else { TotalShift(a, b, 0); }
  }

  lemma {:induction false} TotalShift(a: seq<VarlenSize>, b: seq<VarlenSize>, i: nat)
    requires i <= |b|
    ensures TotalLength(a + b, |a| + i) == TotalLength(b, i)
    decreases |b| - i
  {
    if i < |b| { TotalShift(a, b, i + 1); }
  }

  lemma {:induction false} SizesAreLengths(layout: Layout, values: seq<Value>, i: nat)
    requires i <= |values| == |layout.columns| && forall j :: 0 <= j < |values| ==> Admits(layout.columns[j], values[j])
    ensures TotalLength(SizesUpTo(layout, values, i), 0) == |Payload(values, i)|
    ensures |SizesUpTo(layout, values, i)| == VarcharCount(SpecsOf(layout)[..i])
  {
    if i > 0 {
      SizesAreLengths(layout, values, i - 1);
      assert Admits(layout.columns[i - 1], values[i - 1]);
      TotalAppend(SizesUpTo(layout, values, i - 1), SizeOf(layout.columns[i - 1], values[i - 1]), 0);
      assert SpecsOf(layout)[..i][..i - 1] == SpecsOf(layout)[..i - 1];
    }
  }

  lemma {:induction false} PlanFromTotal(sizes: seq<VarlenSize>, i: nat, payload: nat)
    requires i <= |sizes| && payload + (|sizes| - i) * U32_MAX <= U64_MAX
    ensures match PlanFrom(sizes, i, payload)
      case Ok(total) => total == payload + TotalLength(sizes, i) <= payload + (|sizes| - i) * U32_MAX
      case Err(failure) => failure.code == LengthTooLarge && payload + TotalLength(sizes, i) > U32_MAX
    decreases |sizes| - i
  {
    if i < |sizes| {
      if sizes[i].isNull {
        PlanFromTotal(sizes, i + 1, payload);
      } else if sizes[i].length <= U32_MAX {
        assert (|sizes| - i) * U32_MAX == (|sizes| - i - 1) * U32_MAX + U32_MAX;
        PlanFromTotal(sizes, i + 1, payload + sizes[i].length);
      }
    }
  }

  /**
   * For values of the right types a size plan fails exactly if the tuple would be too large; it
   * never overflows or miscounts, and a successful plan is the encoded size.
   */
  lemma PlanIsExact(layout: Layout, values: seq<Value>)
    requires Packed(layout) && |values| == |layout.columns|
    requires forall j :: 0 <= j < |values| ==> Admits(layout.columns[j], values[j])
    ensures match Plan(layout, SizesUpTo(layout, values, |values|))
      case Ok(plan) => plan.payload == |Payload(values, |values|)| && plan.total == Cursor(layout, values, |values|) <= MAX_RAW_TUPLE_SIZE
      case Err(failure) =>
        Cursor(layout, values, |values|) > MAX_RAW_TUPLE_SIZE && failure.code in {LengthTooLarge, PlanTooLarge}
  {
    var n, specs := |values|, SpecsOf(layout);
    var sizes := SizesUpTo(layout, values, n);
    SizesAreLengths(layout, values, n);
    assert specs[..n] == specs;
    VarcharsFit(specs);
    StartIsWidth(layout, n);
    assert |sizes| <= 8135;
    assert |sizes| * U32_MAX <= 8135 * U32_MAX;
    PlanFromTotal(sizes, 0, 0);
  }

  lemma {:induction false} VarcharsFit(specs: seq<ColumnSpec>)
    ensures VarcharCount(specs) <= FixedWidth(specs)
  {
    if |specs| > 0 { VarcharsFit(specs[..|specs| - 1]); }
  }

  // ---- EncodeTuple ----

  method EncodeVarcharDescriptor(buffer: array<byte>, at: nat, size: nat, offset: u32, length: u32) returns (ok: bool)
    requires at + size <= buffer.Length
    modifies buffer
    ensures ok <==> size >= DESCRIPTOR_SIZE
    ensures buffer[..] == if ok then Write(old(buffer[..]), at, DescriptorImage(offset, length)) else old(buffer[..])
  {
    if size < DESCRIPTOR_SIZE {
      return false;
    }
    RadixValues();
    ghost var before := buffer[..];
    PutField(buffer, at, 4, offset);
    PutField(buffer, at + 4, 4, length);
    assert buffer[..] == Write(before, at, DescriptorImage(offset, length));
    return true;
  }

  /** EncodeFixedScalar into a destination of the column's width. */
  method EncodeFixedScalar(buffer: array<byte>, at: nat, size: nat, kind: PhysicalType, v: Value) returns (error: Option<CodecError>)
    requires at + size <= buffer.Length
    modifies buffer
    ensures error == None <==> kind != Varchar && Matches(kind, v) && Width(kind) <= size
    ensures buffer[..] == if error == None then Write(old(buffer[..]), at, ScalarImage(v)) else old(buffer[..])
  {
    if kind == Varchar {
      return Some(MalformedTuple);
    }
    if !Matches(kind, v) {
      return Some(TypeMismatch);
    }
    if size < Width(kind) {
      return Some(MalformedTuple);
    }
    RadixValues();
    match v {
      case BoolValue(on) => buffer[at] := if on then 1 else 0;
      case Int32Value(x) => PutField(buffer, at, 4, Unsigned(x, 4));
      case Int64Value(x) => PutField(buffer, at, 8, Unsigned(x, 8));
      case Float64Value(bits) => PutField(buffer, at, 8, bits);
      case DateValue(x) => PutField(buffer, at, 4, Unsigned(x, 4));
      case TimestampValue(x) => PutField(buffer, at, 8, Unsigned(x, 8));
      case _ =>
    }
    return None;
  }

  lemma BitmapFits(layout: Layout, values: seq<Value>, b: seq<byte>, i: nat)
    requires Ready(layout, values, b) && i < |values|
    ensures BitmapAccess(layout.bitmapBytes, |layout.columns|, i) == None && layout.fixedOffset == HEADER_SIZE + layout.bitmapBytes
  {}

  method EncodeNull(tuple: array<byte>, layout: Layout, values: seq<Value>, index: nat) returns (ok: bool)
    requires Ready(layout, values, tuple[..]) && index < |values| && values[index].Null?
    modifies tuple
    ensures ok && tuple[..] == Step(layout, values, old(tuple[..]), index)
  {
    hide Payload, Ready, Packed, Admits, Marked, Write, ColumnImage, DescriptorImage;
    ColumnFits(layout, values, tuple[..], index);
    BitmapFits(layout, values, tuple[..], index);
    var column := layout.columns[index];
    var error := MarkNull(tuple, HEADER_SIZE, layout.bitmapBytes, |layout.columns|, index, true);
    ok := error == None;
    if ok && column.kind == Varchar {
      ok := EncodeVarcharDescriptor(tuple, column.offset, column.width, 0, 0);
    }
  }

  method EncodeVarchar(tuple: array<byte>, layout: Layout, values: seq<Value>, index: nat, cursor: nat) returns (ok: bool)
    requires Ready(layout, values, tuple[..]) && index < |values| && values[index].VarcharValue?
    requires cursor == Cursor(layout, values, index) && tuple.Length <= MAX_RAW_TUPLE_SIZE
    modifies tuple
    ensures ok && tuple[..] == Step(layout, values, old(tuple[..]), index)
  {
    ColumnFits(layout, values, tuple[..], index);
    hide Payload, Ready, Packed, Admits;
    var column, bytes := layout.columns[index], values[index].bytes;
    ok := EncodeVarcharDescriptor(tuple, column.offset, column.width, cursor, |bytes|);
    if ok {
      CopyBytes(tuple, cursor, bytes);
    }
  }

  method EncodeScalar(tuple: array<byte>, layout: Layout, values: seq<Value>, index: nat) returns (ok: bool)
    requires Ready(layout, values, tuple[..]) && index < |values| && IsScalar(values[index])
    modifies tuple
    ensures ok && tuple[..] == Step(layout, values, old(tuple[..]), index)
  {
    ColumnFits(layout, values, tuple[..], index);
    var column := layout.columns[index];
    assert Admits(column, values[index]);
    hide Payload, Ready, Packed, ScalarImage;
    var error := EncodeFixedScalar(tuple, column.offset, column.width, column.kind, values[index]);
    ok := error == None;
  }

  /** The loop body that writes one column, and the payload cursor it leaves; it never fails. */
  method EncodeColumn(tuple: array<byte>, layout: Layout, values: seq<Value>, index: nat, cursor: nat) returns (ok: bool, next: nat)
    requires Ready(layout, values, tuple[..]) && index < |values| && cursor == Cursor(layout, values, index)
    requires tuple.Length <= MAX_RAW_TUPLE_SIZE
    modifies tuple
    ensures ok && next == Cursor(layout, values, index + 1)
    ensures tuple[..] == Step(layout, values, old(tuple[..]), index)
  {
    NextPayload(layout, values, index);
    hide Payload, Ready, Step;
    next := cursor;
    match values[index] {
      case Null => ok := EncodeNull(tuple, layout, values, index);
      case VarcharValue(bytes) =>
        ok := EncodeVarchar(tuple, layout, values, index, cursor);
        next := cursor + |bytes|;
      case _ => ok := EncodeScalar(tuple, layout, values, index);
    }
  }

  /** A zeroed buffer with its header in place is ready for the first column. */
  lemma PrefixStarts(layout: Layout, header: Header, values: seq<Value>, b: seq<byte>)
    requires Ready(layout, values, b) && HeaderFields(b) == header
    requires forall k :: HEADER_SIZE <= k < |b| ==> b[k] == 0
    ensures Prefix(layout, header, values, b, 0)
  {
    StartsToLast(layout, 0);
    forall k | 0 <= k < 8 * layout.bitmapBytes ensures !NullAt(layout, b, k) {
      ZeroBits(k % 8);
    }
    hide HeaderFields;
  }

  lemma PrefixEnds(layout: Layout, header: Header, values: seq<Value>, b: seq<byte>)
    requires Ready(layout, values, b) && Prefix(layout, header, values, b, |values|)
    ensures Encodes(layout, header, values, b)
  {
    assert b[layout.payloadOffset..Cursor(layout, values, |values|)] == b[layout.payloadOffset..];
    hide HeaderFields, Slice, ColumnImage, NullAt;
  }

  /** First pass: the types are checked and the VARCHAR sizes collected. */
  method CollectSizes(layout: Layout, values: seq<Value>) returns (error: Option<Failure>, hasNulls: bool, sizes: seq<VarlenSize>)
    requires |values| == |layout.columns|
    ensures error == TypeError(layout, values, 0)
    ensures error == None ==> hasNulls == HasNull(values) && sizes == SizesUpTo(layout, values, |values|)
  {
    hasNulls, sizes := false, [];
    for index := 0 to |values|
      invariant TypeError(layout, values, 0) == TypeError(layout, values, index)
      invariant hasNulls <==> exists i :: 0 <= i < index && values[i].Null?
      invariant sizes == SizesUpTo(layout, values, index)
    {
      var column := layout.columns[index];
      if values[index].Null? {
        if !column.nullable {
          return Some(Fail(NullNotAllowed, index)), hasNulls, sizes;
        }
        hasNulls := true;
        if column.kind == Varchar {
          sizes := sizes + [VarlenSize(0, true)];
        }
        continue;
      }
      if !Matches(column.kind, values[index]) {
        return Some(Fail(TypeMismatch, index)), hasNulls, sizes;
      }
      if column.kind == Varchar {
        sizes := sizes + [VarlenSize(|values[index].bytes|, false)];
      }
    }
    return None, hasNulls, sizes;
  }

  /** The result is exactly the specified refusal or the tuple of the values. */
  method EncodeTuple(layout: Layout, meta: Metadata, values: seq<Value>) returns (r: Result<seq<byte>, Failure>)
    requires Packed(layout)
    ensures r.Err? <==> EncodeError(layout, meta, values).Some?
    ensures r.Err? ==> EncodeError(layout, meta, values) == Some(r.error)
    ensures r.Ok? ==> Encodes(layout, HeaderFor(layout, meta, values), values, r.value) && |r.value| <= MAX_RAW_TUPLE_SIZE
  {
    hide HeaderFields, Slice, ColumnImage, NullAt, Step, CheckHeader;
    if |values| != |layout.columns| {
      return Err(Fail(ColumnCountMismatch, 0));
    }
    var typeError, hasNulls, sizes := CollectSizes(layout, values);
    if typeError != None {
      return Err(typeError.value);
    }
    var planned := PlanTupleSize(layout, sizes);
    if planned.Err? {
      return Err(Fail(PlanningError(planned.error.code), VarlenColumn(layout, planned.error.index, 0)));
    }
    TypeErrorIff(layout, values, 0);
    PlanIsExact(layout, values);
    var header := Header(meta.xmin, meta.xmax, meta.cmin, meta.cmax, meta.prevPage, meta.prevSlot,
      (if hasNulls then FLAG_HAS_NULLS else 0) + (if layout.varlenCount != 0 then FLAG_HAS_VARLEN else 0),
      HEADER_SIZE, layout.bitmapBytes, layout.schema, 0);
    var encodedHeader := new byte[HEADER_SIZE](_ => 0);
    var encoded := EncodeTupleHeader(encodedHeader, header);
    if !encoded {
      return Err(Fail(InvalidHeaderMetadata, 0));
    }
    var tuple := WriteColumns(layout, header, values, encodedHeader[..], planned.value.total);
    return Ok(tuple);
  }

  /** Second pass: no column is malformed, and the cursor ends at the planned size. */
  method WriteColumns(layout: Layout, header: Header, values: seq<Value>, front: seq<byte>, total: nat) returns (e: seq<byte>)
    requires Packed(layout) && |values| == |layout.columns| && |front| == HEADER_SIZE && HeaderFields(front) == header
    requires forall j :: 0 <= j < |values| ==> Admits(layout.columns[j], values[j])
    requires total == Cursor(layout, values, |values|) <= MAX_RAW_TUPLE_SIZE
    ensures Encodes(layout, header, values, e)
  {
    hide HeaderFields, Slice, ColumnImage, NullAt, Step;
    var tuple := new byte[total](_ => 0);
    CopyBytes(tuple, 0, front);
    assert tuple[..][..HEADER_SIZE] == front[..HEADER_SIZE];
    SameFront(tuple[..], front);
    PrefixStarts(layout, header, values, tuple[..]);
    var cursor := layout.payloadOffset;
    for index := 0 to |values|
      invariant cursor == Cursor(layout, values, index)
      invariant Ready(layout, values, tuple[..]) && Prefix(layout, header, values, tuple[..], index)
    {
      ghost var before := tuple[..];
      var ok, next := EncodeColumn(tuple, layout, values, index, cursor);
      assert ok;
      StepPrefix(layout, header, values, before, index);
      cursor := next;
    }
    assert cursor == total;
    PrefixEnds(layout, header, values, tuple[..]);
    return tuple[..];
  }
}
