/** Physical tuple layouts and null bitmaps (src/storage/tuple/tuple_layout.cpp). */
module TupleLayouts {
  import opened Basics
  import opened Bytes
  import opened TupleHeaders

  const MAX_RAW_TUPLE_SIZE: nat := 8135
  const DESCRIPTOR_SIZE: nat := 8

  datatype PhysicalType = Boolean | Int32 | Int64 | Float64 | Date | Timestamp | Varchar

  function Width(kind: PhysicalType): nat
  {
    match kind
    case Boolean => 1
    case Int32 => 4
    case Date => 4
    case Varchar => DESCRIPTOR_SIZE
    case _ => 8
  }

  datatype ColumnSpec = ColumnSpec(kind: PhysicalType, nullable: bool)

  datatype Column = Column(kind: PhysicalType, nullable: bool, offset: nat, width: nat, bit: nat)

  datatype Layout = Layout(
    schema: u32,
    columns: seq<Column>,
    bitmapBytes: nat,
    fixedOffset: nat,
    fixedSize: nat,
    payloadOffset: nat,
    varlenCount: nat,
    hasNullable: bool)

  datatype BuildError = NullBitmapTooLarge | SizeOverflow | LayoutTooLarge

  /** size_t addition: None where it would wrap. */
  function CheckedAdd(left: nat, right: nat): Option<nat>
  {
    if left + right > U64_MAX then None else Some(left + right)
  }

  function BitmapBytes(columnCount: nat): Option<nat>
  {
    var size := columnCount / 8 + (if columnCount % 8 != 0 then 1 else 0);
    if size > U16_MAX then None else Some(size)
  }

  /** The packed width of a column list. */
  function FixedWidth(specs: seq<ColumnSpec>): nat
  {
    if |specs| == 0 then 0 else FixedWidth(specs[..|specs| - 1]) + Width(specs[|specs| - 1].kind)
  }

  function VarcharCount(specs: seq<ColumnSpec>): nat
  {
    if |specs| == 0 then 0
    else VarcharCount(specs[..|specs| - 1]) + (if specs[|specs| - 1].kind == Varchar then 1 else 0)
  }

  predicate AnyNullable(specs: seq<ColumnSpec>) { exists i :: 0 <= i < |specs| && specs[i].nullable }

  /** Columns packed in order from `base`, without padding. */
  function Placed(specs: seq<ColumnSpec>, base: nat): (columns: seq<Column>)
    ensures |columns| == |specs|
  {
    seq(|specs|, i requires 0 <= i < |specs| =>
      Column(specs[i].kind, specs[i].nullable, base + FixedWidth(specs[..i]), Width(specs[i].kind), i))
  }

  function LayoutOf(specs: seq<ColumnSpec>, schema: u32, bitmapBytes: nat): Layout
  {
    var base := HEADER_SIZE + bitmapBytes;
    Layout(schema, Placed(specs, base), bitmapBytes, base, FixedWidth(specs), base + FixedWidth(specs),
           VarcharCount(specs), AnyNullable(specs))
  }

  /** What BuildTuplePhysicalLayout returns. */
  function Build(specs: seq<ColumnSpec>, schema: u32): Result<Layout, BuildError>
  {
    match BitmapBytes(|specs|)
    case None => Err(NullBitmapTooLarge)
    case Some(bitmapBytes) =>
      var layout := LayoutOf(specs, schema, bitmapBytes);
      if layout.payloadOffset > MAX_RAW_TUPLE_SIZE then Err(LayoutTooLarge) else Ok(layout)
  }

  lemma {:induction false} FixedWidthBound(specs: seq<ColumnSpec>)
    ensures FixedWidth(specs) <= 8 * |specs| && |specs| <= FixedWidth(specs)
  {
    if |specs| > 0 { FixedWidthBound(specs[..|specs| - 1]); }
  }

  /** The builder's loop; no size computation can overflow once the bitmap size is accepted. */
  method BuildTuplePhysicalLayout(specs: seq<ColumnSpec>, schema: u32) returns (r: Result<Layout, BuildError>)
    ensures r == Build(specs, schema)
  {
    var bitmapBytes := BitmapBytes(|specs|);
    if bitmapBytes == None {
      return Err(NullBitmapTooLarge);
    }
    var fixedOffset := CheckedAdd(HEADER_SIZE, bitmapBytes.value);
    if fixedOffset == None {
      return Err(SizeOverflow);
    }
    hide FixedWidth, VarcharCount, AnyNullable, Placed;
    EmptyPrefix(specs, fixedOffset.value);
    var columns: seq<Column> := [];
    var fixedSize, varlenCount, hasNullable := 0, 0, false;
    for index := 0 to |specs|
      invariant columns == Placed(specs[..index], fixedOffset.value)
      invariant fixedSize == FixedWidth(specs[..index]) && varlenCount == VarcharCount(specs[..index])
      invariant hasNullable == AnyNullable(specs[..index])
    {
      NextPrefix(specs, index, fixedOffset.value);
      FixedWidthBound(specs[..index + 1]);
      var width := Width(specs[index].kind);
      var offset, size := CheckedAdd(fixedOffset.value, fixedSize), CheckedAdd(fixedSize, width);
      if offset == None || size == None {
        return Err(SizeOverflow);
      }
      columns := columns + [Column(specs[index].kind, specs[index].nullable, offset.value, width, index)];
      fixedSize := size.value;
      hasNullable := hasNullable || specs[index].nullable;
      if specs[index].kind == Varchar {
        varlenCount := varlenCount + 1;
      }
    }
    assert specs[..|specs|] == specs;
    FixedWidthBound(specs);
    var payloadOffset := CheckedAdd(fixedOffset.value, fixedSize);
    if payloadOffset == None {
      return Err(SizeOverflow);
    }
    if payloadOffset.value > MAX_RAW_TUPLE_SIZE {
      return Err(LayoutTooLarge);
    }
    return Ok(Layout(schema, columns, bitmapBytes.value, fixedOffset.value, fixedSize, payloadOffset.value, varlenCount, hasNullable));
  }

  lemma EmptyPrefix(specs: seq<ColumnSpec>, base: nat)
    ensures Placed(specs[..0], base) == [] && FixedWidth(specs[..0]) == 0 && VarcharCount(specs[..0]) == 0 && !AnyNullable(specs[..0])
  {}

  lemma NextPrefix(specs: seq<ColumnSpec>, n: nat, base: nat)
    requires n < |specs|
    ensures FixedWidth(specs[..n + 1]) == FixedWidth(specs[..n]) + Width(specs[n].kind)
    ensures VarcharCount(specs[..n + 1]) == VarcharCount(specs[..n]) + (if specs[n].kind == Varchar then 1 else 0)
    ensures AnyNullable(specs[..n + 1]) <==> AnyNullable(specs[..n]) || specs[n].nullable
    ensures Placed(specs[..n + 1], base) ==
      Placed(specs[..n], base) + [Column(specs[n].kind, specs[n].nullable, base + FixedWidth(specs[..n]), Width(specs[n].kind), n)]
  {
    assert specs[..n + 1][..n] == specs[..n];
    PlacedPrefix(specs, n, base);
    NullablePrefix(specs, n);
  }

  lemma PlacedPrefix(specs: seq<ColumnSpec>, n: nat, base: nat)
    requires n < |specs|
    ensures Placed(specs[..n + 1], base) ==
      Placed(specs[..n], base) + [Column(specs[n].kind, specs[n].nullable, base + FixedWidth(specs[..n]), Width(specs[n].kind), n)]
  {
    forall i | 0 <= i < n ensures specs[..n + 1][..i] == specs[..n][..i] {}
    assert specs[..n + 1][..n] == specs[..n];
  }

  lemma NullablePrefix(specs: seq<ColumnSpec>, n: nat)
    requires n < |specs|
    ensures AnyNullable(specs[..n + 1]) <==> AnyNullable(specs[..n]) || specs[n].nullable
  {
    if i :| 0 <= i < |specs[..n]| && specs[..n][i].nullable { assert specs[..n + 1][i].nullable; }
    if specs[n].nullable { assert specs[..n + 1][n].nullable; }
  }

  // ---- What every built layout satisfies ----

  /** Where column `i` starts, or the payload after the last one. */
  function Start(layout: Layout, i: nat): nat
    requires i <= |layout.columns|
  {
    if i == |layout.columns| then layout.payloadOffset else layout.columns[i].offset
  }

  function SpecsOf(layout: Layout): seq<ColumnSpec>
  {
    seq(|layout.columns|, i requires 0 <= i < |layout.columns| => ColumnSpec(layout.columns[i].kind, layout.columns[i].nullable))
  }

  /** Column `i` ends where the next one starts. */
  predicate Tiled(layout: Layout, i: nat)
    requires i < |layout.columns|
  {
    && Start(layout, i + 1) == layout.columns[i].offset + layout.columns[i].width
    && layout.columns[i].width == Width(layout.columns[i].kind) && layout.columns[i].bit == i
  }

  /** The columns tile the fixed area between the null bitmap and the payload. */
  predicate Packed(layout: Layout)
  {
    && BitmapBytes(|layout.columns|) == Some(layout.bitmapBytes)
    && layout.fixedOffset == HEADER_SIZE + layout.bitmapBytes
    && layout.payloadOffset == layout.fixedOffset + layout.fixedSize <= MAX_RAW_TUPLE_SIZE
    && Start(layout, 0) == layout.fixedOffset
    && (forall i :: 0 <= i < |layout.columns| ==> Tiled(layout, i))
    && layout.varlenCount == VarcharCount(SpecsOf(layout))
    && layout.hasNullable == AnyNullable(SpecsOf(layout))
  }

  lemma PlacedTiled(specs: seq<ColumnSpec>, schema: u32, bitmapBytes: nat, i: nat)
    requires i < |specs|
    ensures Tiled(LayoutOf(specs, schema, bitmapBytes), i)
  {
    assert specs[..i + 1][..i] == specs[..i];
    assert specs[..|specs|] == specs;
  }

  /** Exactly the packed layouts are built, each from its own column list. */
  lemma BuildsPacked(specs: seq<ColumnSpec>, schema: u32)
    ensures Build(specs, schema).Ok? ==> Packed(Build(specs, schema).value) && SpecsOf(Build(specs, schema).value) == specs
    ensures Build(specs, schema).Ok? <==>
      BitmapBytes(|specs|).Some? && HEADER_SIZE + BitmapBytes(|specs|).value + FixedWidth(specs) <= MAX_RAW_TUPLE_SIZE
  {
    if Build(specs, schema).Ok? {
      hide Tiled;
      var layout := Build(specs, schema).value;
      assert SpecsOf(layout) == specs;
      assert specs[..0] == [];
      forall i | 0 <= i < |specs| ensures Tiled(layout, i) { PlacedTiled(specs, schema, layout.bitmapBytes, i); }
    }
  }

  lemma {:induction false} StartIsWidth(layout: Layout, i: nat)
    requires Packed(layout) && i <= |layout.columns|
    ensures Start(layout, i) == layout.fixedOffset + FixedWidth(SpecsOf(layout)[..i])
  {
    if i > 0 {
      StartIsWidth(layout, i - 1);
      assert SpecsOf(layout)[..i][..i - 1] == SpecsOf(layout)[..i - 1];
      assert Tiled(layout, i - 1);
    }
  }

  lemma PackedIsBuilt(layout: Layout)
    requires Packed(layout)
    ensures Build(SpecsOf(layout), layout.schema) == Ok(layout)
  {
    var specs, n := SpecsOf(layout), |layout.columns|;
    StartIsWidth(layout, n);
    assert specs[..n] == specs;
    forall i | 0 <= i < n ensures Placed(specs, layout.fixedOffset)[i] == layout.columns[i] {
      StartIsWidth(layout, i);
      assert Tiled(layout, i);
    }
    assert Placed(specs, layout.fixedOffset) == layout.columns;
  }

  /** Columns are ordered, disjoint and inside the fixed area. */
  lemma {:induction false} StartsOrdered(layout: Layout, i: nat, j: nat)
    requires Packed(layout) && i <= j <= |layout.columns|
    ensures layout.fixedOffset <= Start(layout, i) <= Start(layout, j) <= layout.payloadOffset
    ensures i < j ==> layout.columns[i].offset + layout.columns[i].width <= Start(layout, j)
    decreases j - i, i, |layout.columns| - j
  {
    if i < j {
      assert Tiled(layout, i);
      StartsOrdered(layout, i + 1, j);
      if i > 0 { StartsFromFirst(layout, i); }
    } else {
      StartsFromFirst(layout, i);
      StartsToLast(layout, i);
    }
  }

  lemma {:induction false} StartsFromFirst(layout: Layout, i: nat)
    requires Packed(layout) && i <= |layout.columns|
    ensures layout.fixedOffset <= Start(layout, i)
  {
    if i > 0 {
      StartsFromFirst(layout, i - 1);
      assert Tiled(layout, i - 1);
    }
  }

  lemma {:induction false} StartsToLast(layout: Layout, i: nat)
    requires Packed(layout) && i <= |layout.columns|
    ensures Start(layout, i) <= layout.payloadOffset
    decreases |layout.columns| - i
  {
    if i < |layout.columns| {
      assert Tiled(layout, i);
      StartsToLast(layout, i + 1);
    }
  }

  // ---- Bits ----

  function Pow2(k: nat): nat { if k == 0 then 1 else 2 * Pow2(k - 1) }

  /** Bit `k` of `n`. */
  predicate Bit(n: nat, k: nat)
  {
    if k == 0 then n % 2 == 1 else Bit(n / 2, k - 1)
  }

  /** Bit `k` set (or with the mask) or cleared (and with its complement). */
  function WithBit(n: nat, k: nat, on: bool): nat
  {
    if k == 0 then 2 * (n / 2) + (if on then 1 else 0) else 2 * WithBit(n / 2, k - 1, on) + n % 2
  }

  lemma {:induction false} WithBitRange(n: nat, k: nat, on: bool, m: nat)
    requires k < m && n < Pow2(m)
    ensures WithBit(n, k, on) < Pow2(m)
  {
    if k > 0 { WithBitRange(n / 2, k - 1, on, m - 1); }
  }

  lemma {:induction false} WithBitBits(n: nat, k: nat, on: bool, j: nat)
    ensures Bit(WithBit(n, k, on), j) == if j == k then on else Bit(n, j)
  {
    if j > 0 && k > 0 { WithBitBits(n / 2, k - 1, on, j - 1); }
  }

  /** A number is determined by its bits. */
  lemma {:induction false} BitsDetermine(a: nat, b: nat, m: nat)
    requires a < Pow2(m) && b < Pow2(m) && forall k :: 0 <= k < m ==> Bit(a, k) == Bit(b, k)
    ensures a == b
  {
    if m > 0 {
      assert Bit(a, 0) == Bit(b, 0);
      forall k | 0 <= k < m - 1 ensures Bit(a / 2, k) == Bit(b / 2, k) {
        assert Bit(a, k + 1) == Bit(b, k + 1);
      }
      BitsDetermine(a / 2, b / 2, m - 1);
    }
  }

  /** `n` without its `k` low bits. */
  function Shifted(n: nat, k: nat): nat { if k == 0 then n else Shifted(n / 2, k - 1) }

  lemma {:induction false} ZeroBits(j: nat)
    ensures !Bit(0, j)
  {
    if j > 0 { ZeroBits(j - 1); }
  }

  lemma {:induction false} SomeBit(n: nat, m: nat)
    requires 0 < n < Pow2(m)
    ensures exists j :: 0 <= j < m && Bit(n, j)
  {
    if n % 2 == 1 {
      assert Bit(n, 0);
    } else {
      SomeBit(n / 2, m - 1);
      var j :| 0 <= j < m - 1 && Bit(n / 2, j);
      assert Bit(n, j + 1);
    }
  }

  /** The high bits from `k` on are clear exactly if nothing is left above them. */
  lemma {:induction false} HighBitsClear(n: nat, k: nat, m: nat)
    requires k <= m && n < Pow2(m)
    ensures Shifted(n, k) == 0 ==> forall j :: k <= j < m ==> !Bit(n, j)
    ensures Shifted(n, k) != 0 ==> exists j :: k <= j < m && Bit(n, j)
    decreases m
  {
    if k > 0 {
      HighBitsClear(n / 2, k - 1, m - 1);
      if Shifted(n, k) == 0 {
        forall j | k <= j < m ensures !Bit(n, j) { assert !Bit(n / 2, j - 1); }
      } else {
        var j :| k - 1 <= j < m - 1 && Bit(n / 2, j);
        assert Bit(n, j + 1);
      }
    } else if n == 0 {
      forall j | 0 <= j < m ensures !Bit(0, j) { ZeroBits(j); }
    } else {
      SomeBit(n, m);
    }
  }

  // ---- Null bitmaps ----

  datatype BitmapError = ColumnCountTooLarge | ColumnOutOfRange | BitmapTooSmall

  function BitmapAccess(size: nat, columnCount: nat, column: nat): Option<BitmapError>
  {
    match BitmapBytes(columnCount)
    case None => Some(ColumnCountTooLarge)
    case Some(required) =>
      if column >= columnCount then Some(ColumnOutOfRange) else if size < required then Some(BitmapTooSmall) else None
  }

  function IsNull(bitmap: seq<byte>, columnCount: nat, column: nat): Result<bool, BitmapError>
  {
    match BitmapAccess(|bitmap|, columnCount, column)
    case Some(error) => Err(error)
    case None => Ok(Bit(bitmap[column / 8], column % 8))
  }

  /** The bitmap with the column's bit set or cleared. */
  function Marked(bitmap: seq<byte>, column: nat, isNull: bool): (r: seq<byte>)
    requires column / 8 < |bitmap|
    ensures |r| == |bitmap|
  {
    WithBitRange(bitmap[column / 8], column % 8, isNull, 8);
    Write(bitmap, column / 8, [WithBit(bitmap[column / 8], column % 8, isNull)])
  }

  /** SetNull (`isNull`) and ClearNull, over the sub-span `[at, at + size)` of a buffer. */
  method MarkNull(buffer: array<byte>, at: nat, size: nat, columnCount: nat, column: nat, isNull: bool) returns (error: Option<BitmapError>)
    requires at + size <= buffer.Length
    modifies buffer
    ensures error == BitmapAccess(size, columnCount, column)
    ensures error != None ==> buffer[..] == old(buffer[..])
    ensures error == None ==>
      column / 8 < size && buffer[..] == Write(old(buffer[..]), at, Marked(old(buffer[at..at + size]), column, isNull))
  {
    error := BitmapAccess(size, columnCount, column);
    if error == None {
      ghost var before := buffer[..];
      ghost var bitmap := buffer[at..at + size];
      WithBitRange(buffer[at + column / 8], column % 8, isNull, 8);
      buffer[at + column / 8] := WithBit(buffer[at + column / 8], column % 8, isNull);
      assert buffer[..] == Write(before, at, Marked(bitmap, column, isNull));
    }
  }

  /** Marking one column changes what IsNull says of that column only. */
  lemma MarkedIsNull(bitmap: seq<byte>, columnCount: nat, column: nat, isNull: bool, other: nat)
    requires BitmapAccess(|bitmap|, columnCount, column) == None && other < columnCount
    ensures IsNull(Marked(bitmap, column, isNull), columnCount, other)
      == if other == column then Ok(isNull) else IsNull(bitmap, columnCount, other)
  {
    WithBitBits(bitmap[column / 8], column % 8, isNull, other % 8);
  }
}
