/** ValidateTuple accepts exactly the encoder's outputs, up to bytes that no reader looks at. */
module TupleCanonical {
  import opened Basics
  import opened Bytes
  import opened Fields
  import opened TupleLayouts
  import opened TupleHeaders
  import opened TupleCodec
  import opened TupleEncoder
  import opened TupleDecoder

  function ValuesOf(layout: Layout, t: seq<byte>): (values: seq<Value>)
    requires Packed(layout) && |t| >= layout.payloadOffset
    ensures |values| == |layout.columns|
  {
    seq(|layout.columns|, i requires 0 <= i < |layout.columns| => ValueAt(layout, t, i))
  }

  function MetadataOf(h: Header): Metadata { Metadata(h.xmin, h.xmax, h.cmin, h.cmax, h.prevPage, h.prevSlot) }

  /** `t` with every unread byte zeroed. */
  function Canon(layout: Layout, t: seq<byte>): (e: seq<byte>)
    requires Packed(layout) && |t| >= layout.payloadOffset
    ensures |e| == |t|
  {
    seq(|t|, k requires 0 <= k < |t| => if Unread(layout, t, k) then 0 else t[k])
  }

  lemma CanonBitmap(layout: Layout, t: seq<byte>)
    requires Packed(layout) && |t| >= layout.payloadOffset
    ensures forall i :: 0 <= i < 8 * layout.bitmapBytes ==> NullAt(layout, Canon(layout, t), i) == NullAt(layout, t, i)
  {
    forall i | 0 <= i < 8 * layout.bitmapBytes ensures Canon(layout, t)[HEADER_SIZE + i / 8] == t[HEADER_SIZE + i / 8] {
      if Unread(layout, t, HEADER_SIZE + i / 8) { UnreadIsFixed(layout, t, HEADER_SIZE + i / 8); }
    }
  }

  lemma SameUnread(layout: Layout, t: seq<byte>, e: seq<byte>, k: nat)
    requires Packed(layout) && |t| == |e| >= layout.payloadOffset && Unread(layout, t, k)
    requires forall i :: 0 <= i < 8 * layout.bitmapBytes ==> NullAt(layout, e, i) == NullAt(layout, t, i)
    ensures Unread(layout, e, k)
  {
    var i :| 0 <= i < |layout.columns| && UnreadColumn(layout, t, i)
      && layout.columns[i].offset <= k < layout.columns[i].offset + layout.columns[i].width;
    assert UnreadColumn(layout, e, i);
  }

  lemma CanonAgrees(layout: Layout, t: seq<byte>)
    requires Packed(layout) && |t| >= layout.payloadOffset
    ensures Agrees(layout, t, Canon(layout, t))
  {
    var e := Canon(layout, t);
    CanonBitmap(layout, t);
    forall k | 0 <= k < |t| ensures t[k] == e[k] || Unread(layout, e, k) {
      if Unread(layout, t, k) { SameUnread(layout, t, e, k); }
    }
    hide Unread, NullAt;
  }

  // ---- What the scans establish ----

  lemma {:induction false} ScannedColumn(layout: Layout, t: seq<byte>, i: nat, hasNulls: bool, j: nat)
    requires Packed(layout) && |t| >= layout.payloadOffset && i <= j < |layout.columns|
    requires ScanNulls(layout, t, i, hasNulls).Ok?
    ensures j < 8 * layout.bitmapBytes
    ensures NullAt(layout, t, j) ==> layout.columns[j].nullable
    ensures !NullAt(layout, t, j) && layout.columns[j].kind == Boolean ==> DecodeScalar(Boolean, Slice(layout, t, j)).Some?
    decreases j - i
  {
    BitmapHolds(layout, i);
    if i < j { ScannedColumn(layout, t, i + 1, hasNulls || NullAt(layout, t, i), j); }
    hide NullAt, Slice, DecodeScalar;
  }

  lemma {:induction false} ScannedNulls(layout: Layout, t: seq<byte>, i: nat, hasNulls: bool)
    requires Packed(layout) && |t| >= layout.payloadOffset && i <= |layout.columns| && ScanNulls(layout, t, i, hasNulls).Ok?
    ensures ScanNulls(layout, t, i, hasNulls).value == (hasNulls || AnyNullFrom(ValuesOf(layout, t), i))
    decreases |layout.columns| - i
  {
    if i < |layout.columns| {
      BitmapHolds(layout, i);
      NullValue(layout, t, i);
      ScannedNulls(layout, t, i + 1, hasNulls || NullAt(layout, t, i));
    }
    hide NullAt, Slice, DecodeScalar, ValueAt;
  }

  lemma NullValue(layout: Layout, t: seq<byte>, i: nat)
    requires Packed(layout) && |t| >= layout.payloadOffset && i < |layout.columns|
    ensures i < 8 * layout.bitmapBytes && (ValuesOf(layout, t)[i].Null? <==> NullAt(layout, t, i))
  {
    BitmapHolds(layout, i);
    hide NullAt, Slice, DescriptorAt;
  }

  lemma AdmittedValue(layout: Layout, t: seq<byte>, i: nat)
    requires Packed(layout) && |t| >= layout.payloadOffset && i < |layout.columns| && ScanNulls(layout, t, 0, false).Ok?
    ensures Admits(layout.columns[i], ValuesOf(layout, t)[i])
  {
    ScannedColumn(layout, t, 0, false, i);
    hide NullAt, DescriptorAt, ScanNulls;
  }

  /** The descriptors chain: each starts where the payload of the earlier columns ends. */
  lemma {:induction false} ScannedChain(layout: Layout, t: seq<byte>, i: nat)
    requires Packed(layout) && |t| >= layout.payloadOffset && i <= |layout.columns|
    requires ScanVarlens(layout, t, 0, layout.payloadOffset).Ok?
    ensures var values := ValuesOf(layout, t);
      && Cursor(layout, values, i) <= |t|
      && t[layout.payloadOffset..Cursor(layout, values, i)] == Payload(values, i)
      && ScanVarlens(layout, t, i, Cursor(layout, values, i)) == ScanVarlens(layout, t, 0, layout.payloadOffset)
  {
    if i > 0 {
      ScannedChain(layout, t, i - 1);
      ScannedStep(layout, t, i - 1);
    }
    hide ScanVarlens;
  }

  lemma ScannedStep(layout: Layout, t: seq<byte>, i: nat)
    requires Packed(layout) && |t| >= layout.payloadOffset && i < |layout.columns|
    requires var values := ValuesOf(layout, t);
      && Cursor(layout, values, i) <= |t|
      && t[layout.payloadOffset..Cursor(layout, values, i)] == Payload(values, i)
      && ScanVarlens(layout, t, i, Cursor(layout, values, i)).Ok?
    ensures var values := ValuesOf(layout, t);
      && Cursor(layout, values, i + 1) <= |t|
      && t[layout.payloadOffset..Cursor(layout, values, i + 1)] == Payload(values, i + 1)
      && ScanVarlens(layout, t, i + 1, Cursor(layout, values, i + 1)) == ScanVarlens(layout, t, i, Cursor(layout, values, i))
    ensures layout.columns[i].kind == Varchar ==>
      var values, d := ValuesOf(layout, t), DescriptorAt(layout, t, i);
      if values[i].VarcharValue? then d.offset == Cursor(layout, values, i) && d.length == |values[i].bytes| else d == Descriptor(0, 0)
  {
    var values := ValuesOf(layout, t);
    BitmapHolds(layout, i);
    NextPayload(layout, values, i);
    ValueKind(layout, t, i);
    var from, cursor, next := layout.payloadOffset, Cursor(layout, values, i), Cursor(layout, values, i + 1);
    hide Payload, Slice, NullAt;
    if values[i].VarcharValue? {
      var d := DescriptorAt(layout, t, i);
      assert d.offset == cursor && d.offset + d.length <= |t|;
      assert values[i].bytes == t[cursor..next];
      SplitAt(t, from, cursor, next);
    }
  }

  lemma ValueKind(layout: Layout, t: seq<byte>, i: nat)
    requires Packed(layout) && |t| >= layout.payloadOffset && i < |layout.columns|
    ensures i < 8 * layout.bitmapBytes
    ensures ValuesOf(layout, t)[i].VarcharValue? <==> layout.columns[i].kind == Varchar && !NullAt(layout, t, i)
    ensures ValuesOf(layout, t)[i].Null? <==> NullAt(layout, t, i)
  {
    BitmapHolds(layout, i);
    hide NullAt, Slice, DescriptorAt;
  }

  // ---- The canonical form is the encoding of the decoded values ----

  lemma DescriptorDetermines(s: seq<byte>, offset: u32, length: u32)
    requires |s| == DESCRIPTOR_SIZE && U32At(s, 0) == offset && U32At(s, 4) == length
    ensures s == DescriptorImage(offset, length)
  {
    DescriptorRoundTrip(offset, length);
    ReadDetermines(s, DescriptorImage(offset, length), 0, 4);
    ReadDetermines(s, DescriptorImage(offset, length), 4, 4);
    assert s == s[0..4] + s[4..8];
    assert DescriptorImage(offset, length) == DescriptorImage(offset, length)[0..4] + DescriptorImage(offset, length)[4..8];
  }

  lemma CanonColumn(layout: Layout, t: seq<byte>, i: nat)
    requires Packed(layout) && |t| >= layout.payloadOffset && i < |layout.columns|
    requires ScanNulls(layout, t, 0, false).Ok? && ScanVarlens(layout, t, 0, layout.payloadOffset).Ok?
    ensures Slice(layout, Canon(layout, t), i) == ColumnImage(layout, ValuesOf(layout, t), i)
  {
    if UnreadColumn(layout, t, i) {
      CanonUnreadColumn(layout, t, i);
    } else {
      CanonReadColumn(layout, t, i);
      ReadColumnImage(layout, t, i);
    }
    hide Slice, ColumnImage;
  }

  lemma CanonUnreadColumn(layout: Layout, t: seq<byte>, i: nat)
    requires Packed(layout) && |t| >= layout.payloadOffset && i < |layout.columns| && UnreadColumn(layout, t, i)
    ensures Slice(layout, Canon(layout, t), i) == ColumnImage(layout, ValuesOf(layout, t), i)
  {
    ValueKind(layout, t, i);
    assert Tiled(layout, i);
    StartsToLast(layout, i + 1);
    var column := layout.columns[i];
    forall k | column.offset <= k < column.offset + column.width ensures Canon(layout, t)[k] == 0 {
      assert Unread(layout, t, k);
    }
  }

  lemma CanonReadColumn(layout: Layout, t: seq<byte>, i: nat)
    requires Packed(layout) && |t| >= layout.payloadOffset && i < |layout.columns| && !UnreadColumn(layout, t, i)
    ensures Slice(layout, Canon(layout, t), i) == Slice(layout, t, i)
  {
    assert Tiled(layout, i);
    StartsToLast(layout, i + 1);
    var column := layout.columns[i];
    forall k | column.offset <= k < column.offset + column.width ensures Canon(layout, t)[k] == t[k] {
      ReadColumnIsRead(layout, t, i, k);
    }
  }

  lemma ReadColumnImage(layout: Layout, t: seq<byte>, i: nat)
    requires Packed(layout) && |t| >= layout.payloadOffset && i < |layout.columns| && !UnreadColumn(layout, t, i)
    requires ScanNulls(layout, t, 0, false).Ok? && ScanVarlens(layout, t, 0, layout.payloadOffset).Ok?
    ensures Slice(layout, t, i) == ColumnImage(layout, ValuesOf(layout, t), i)
  {
    var values := ValuesOf(layout, t);
    ValueKind(layout, t, i);
    if layout.columns[i].kind == Varchar {
      ScannedChain(layout, t, i);
      ScannedStep(layout, t, i);
      var d := DescriptorAt(layout, t, i);
      DescriptorDetermines(Slice(layout, t, i), d.offset, d.length);
      ZeroIsDescriptor();
      hide Slice, NullAt, ScanNulls, ScanVarlens, Payload, DescriptorImage;
    } else {
      ScannedColumn(layout, t, 0, false, i);
      ScalarCanonical(layout.columns[i].kind, Slice(layout, t, i));
      hide Slice, NullAt, ScanNulls, ScanVarlens, Payload;
    }
  }

  lemma CanonBits(layout: Layout, t: seq<byte>, k: nat)
    requires Packed(layout) && |t| >= layout.payloadOffset && UnusedBitsClear(layout, t)
    requires |layout.columns| <= k < 8 * layout.bitmapBytes
    ensures !NullAt(layout, t, k)
  {
    var n := |layout.columns|;
    var last := t[layout.fixedOffset - 1];
    assert n % 8 != 0 && layout.bitmapBytes == n / 8 + 1 && k / 8 == n / 8;
    assert Pow2(8) == 256 by { assert Pow2(4) == 16; }
    HighBitsClear(last, n % 8, 8);
  }

  lemma CanonEncodes(layout: Layout, t: seq<byte>)
    requires Packed(layout) && CheckTuple(layout, t).Ok?
    ensures Encodes(layout, CheckTuple(layout, t).value, ValuesOf(layout, t), Canon(layout, t))
  {
    var e, values, n := Canon(layout, t), ValuesOf(layout, t), |layout.columns|;
    CanonAgrees(layout, t);
    AgreeingParts(layout, t, e);
    ScannedChain(layout, t, n);
    forall i | 0 <= i < 8 * layout.bitmapBytes ensures NullAt(layout, e, i) <==> i < |values| && values[i].Null? {
      if i < n { ValueKind(layout, t, i); } else { CanonBits(layout, t, i); }
    }
    forall i | 0 <= i < n ensures Slice(layout, e, i) == ColumnImage(layout, values, i) { CanonColumn(layout, t, i); }
    assert t[layout.payloadOffset..] == t[layout.payloadOffset..Cursor(layout, values, n)];
    hide Slice, ColumnImage, NullAt, HeaderFields, Payload, ScanNulls, Agrees, UnusedBitsClear;
  }

  lemma CanonHeader(layout: Layout, t: seq<byte>)
    requires Packed(layout) && CheckTuple(layout, t).Ok?
    ensures var h, values := CheckTuple(layout, t).value, ValuesOf(layout, t);
      HeaderFor(layout, MetadataOf(h), values) == h && CheckHeader(h) == None
  {
    ScannedNulls(layout, t, 0, false);
    AnyNullIff(ValuesOf(layout, t), 0);
    hide HeaderFields, ScanNulls, ScanVarlens, ValuesOf, UnusedBitsClear;
  }

  /** A valid tuple re-encodes from its own decoded values and header to its canonical form. */
  lemma ValidReencodes(layout: Layout, t: seq<byte>)
    requires Packed(layout) && CheckTuple(layout, t).Ok?
    ensures var meta, values, e := MetadataOf(CheckTuple(layout, t).value), ValuesOf(layout, t), Canon(layout, t);
      && EncodeError(layout, meta, values) == None && Encodes(layout, HeaderFor(layout, meta, values), values, e)
      && Agrees(layout, t, e) && forall i :: 0 <= i < |values| ==> DecodeTupleValue(layout, t, i) == Ok(values[i])
  {
    var values := ValuesOf(layout, t);
    CanonHeader(layout, t);
    CanonEncodes(layout, t);
    CanonAgrees(layout, t);
    forall i | 0 <= i < |values| ensures Admits(layout.columns[i], values[i]) { AdmittedValue(layout, t, i); }
    TypeErrorIff(layout, values, 0);
    PlanIsExact(layout, values);
    assert |t| <= MAX_RAW_TUPLE_SIZE;
    hide HeaderFields, ScanNulls, ScanVarlens, Agrees, Slice, NullAt, ColumnImage, Payload, Plan, SizesUpTo, CheckHeader;
  }

  /** The validator is exact: it accepts a byte string iff it agrees with some accepted encoding. */
  lemma ValidationIsExact(layout: Layout, t: seq<byte>)
    requires Packed(layout)
    ensures CheckTuple(layout, t).Ok? <==>
      exists meta, values, e ::
        EncodeError(layout, meta, values) == None && Encodes(layout, HeaderFor(layout, meta, values), values, e) && Agrees(layout, t, e)
  {
    if CheckTuple(layout, t).Ok? {
      ValidReencodes(layout, t);
    }
    if meta, values, e :|
      EncodeError(layout, meta, values) == None && Encodes(layout, HeaderFor(layout, meta, values), values, e) && Agrees(layout, t, e)
    {
      EncodingValidates(layout, meta, values, e);
      AgreeingValidates(layout, t, e);
    }
    hide CheckTuple, Agrees, Encodes, EncodeError;
  }

  /** Two encodings of the same values under the same header are equal: the encoder has one output. */
  lemma EncodingIsUnique(layout: Layout, header: Header, values: seq<Value>, a: seq<byte>, b: seq<byte>)
    requires Packed(layout) && Typed(layout, values) && Encodes(layout, header, values, a) && Encodes(layout, header, values, b)
    ensures a == b
  {
    assert |a| == |b|;
    forall k | 0 <= k < |a| ensures a[k] == b[k] {
      SameByte(layout, header, values, a, b, k);
    }
    hide Encodes, Typed;
  }

  lemma SameByte(layout: Layout, header: Header, values: seq<Value>, a: seq<byte>, b: seq<byte>, k: nat)
    requires Packed(layout) && Typed(layout, values) && Encodes(layout, header, values, a) && Encodes(layout, header, values, b)
    requires k < |a|
    ensures |a| == |b| && a[k] == b[k]
  {
    hide HeaderFields, NullAt, Payload, ColumnImage;
    if k < HEADER_SIZE {
      SameFront(a, b);
      assert a[..HEADER_SIZE][k] == b[..HEADER_SIZE][k];
    } else if k < layout.fixedOffset {
      SameBitmapByte(layout, header, values, a, b, k - HEADER_SIZE);
    } else if k < layout.payloadOffset {
      var i := ColumnOf(layout, k, 0);
      SameColumnByte(layout, header, values, a, b, i, k);
    } else {
      assert a[layout.payloadOffset..][k - layout.payloadOffset] == b[layout.payloadOffset..][k - layout.payloadOffset];
    }
  }

  lemma SameColumnByte(layout: Layout, header: Header, values: seq<Value>, a: seq<byte>, b: seq<byte>, i: nat, k: nat)
    requires Packed(layout) && Typed(layout, values) && Encodes(layout, header, values, a) && Encodes(layout, header, values, b)
    requires i < |layout.columns| && layout.columns[i].offset <= k < layout.columns[i].offset + layout.columns[i].width
    ensures k < |a| == |b| && a[k] == b[k]
  {
    hide HeaderFields, NullAt, Payload, ColumnImage;
    assert Tiled(layout, i);
    StartsToLast(layout, i + 1);
    EncodedColumn(layout, header, values, a, i);
    EncodedColumn(layout, header, values, b, i);
    assert Slice(layout, a, i)[k - layout.columns[i].offset] == a[k];
    assert Slice(layout, b, i)[k - layout.columns[i].offset] == b[k];
  }

  lemma SameBitmapByte(layout: Layout, header: Header, values: seq<Value>, a: seq<byte>, b: seq<byte>, k: nat)
    requires Packed(layout) && Encodes(layout, header, values, a) && Encodes(layout, header, values, b) && k < layout.bitmapBytes
    ensures |a| == |b| >= layout.payloadOffset && a[HEADER_SIZE + k] == b[HEADER_SIZE + k]
  {
    var x, y := a[HEADER_SIZE + k], b[HEADER_SIZE + k];
    forall j | 0 <= j < 8 ensures Bit(x, j) == Bit(y, j) {
      assert (8 * k + j) / 8 == k && (8 * k + j) % 8 == j;
      assert NullAt(layout, a, 8 * k + j) == NullAt(layout, b, 8 * k + j);
    }
    assert Pow2(8) == 256 by { assert Pow2(4) == 16; }
    BitsDetermine(x, y, 8);
    hide HeaderFields, Slice, Payload, ColumnImage;
  }

  /** The column that covers byte `k` of the fixed area. */
  lemma {:induction false} ColumnOf(layout: Layout, k: nat, i: nat) returns (j: nat)
    requires Packed(layout) && i <= |layout.columns| && Start(layout, i) <= k < layout.payloadOffset
    ensures j < |layout.columns| && layout.columns[j].offset <= k < layout.columns[j].offset + layout.columns[j].width
    decreases |layout.columns| - i
  {
    assert Tiled(layout, i);
    if k < Start(layout, i + 1) { j := i; } else { j := ColumnOf(layout, k, i + 1); }
  }
}
