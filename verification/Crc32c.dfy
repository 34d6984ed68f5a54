/** Conversions between integers and bit vectors. */
module BitWidths {
  lemma WidenRoundTrip(x: int)
    requires 0 <= x < 256
    ensures (x as bv8) as int == x
  {}
}

/** The bit-at-a-time CRC32C of src/common/crc32c.cpp as a linear map over GF(2). */
module Crc32c {
  import opened Bytes
  import opened BitWidths

  const POLYNOMIAL: bv32 := 0x82F63B78
  const INITIAL: bv32 := 0xFFFFFFFF

  predicate Odd(r: bv32) { r & 1 != 0 }

  function Shift(r: bv32): bv32 { r >> 1 }

  function Xor(a: bv32, b: bv32): bv32 { a ^ b }

  /** One iteration of the inner loop. */
  function BitStep(r: bv32): bv32
  {
    if Odd(r) then Xor(Shift(r), POLYNOMIAL) else Shift(r)
  }

  function BitSteps(r: bv32, n: nat): bv32
  {
    if n == 0 then r else BitStep(BitSteps(r, n - 1))
  }

  function Widen(b: byte): bv32 { (b as bv8) as bv32 }

  /** One iteration of the outer loop. */
  function ByteStep(r: bv32, b: byte): bv32 { BitSteps(Xor(r, Widen(b)), 8) }

  /** The remainder after consuming `s`, starting from `r`. */
  function Remainder(r: bv32, s: seq<byte>): bv32
  {
    if |s| == 0 then r else ByteStep(Remainder(r, s[..|s| - 1]), s[|s| - 1])
  }

  function Crc(s: seq<byte>): bv32 { Xor(Remainder(INITIAL, s), INITIAL) }

  method ComputeCrc32c(bytes: seq<byte>) returns (crc: bv32)
    ensures crc == Crc(bytes)
  {
    var remainder := INITIAL;
    var i := 0;
    while i < |bytes|
      invariant 0 <= i <= |bytes|
      invariant remainder == Remainder(INITIAL, bytes[..i])
    {
      ghost var before := remainder;
      remainder := remainder ^ ((bytes[i] as bv8) as bv32);
      ghost var mixed := Xor(before, Widen(bytes[i]));
      assert remainder == mixed;
      remainder := ConsumeBits(remainder);
      assert bytes[..i + 1][..i] == bytes[..i];
      assert remainder == ByteStep(before, bytes[i]) by { hide Xor, Widen, BitSteps, Remainder; }
      assert remainder == Remainder(INITIAL, bytes[..i + 1]) by { hide Xor, ByteStep; }
      i := i + 1;
    }
    assert bytes[..i] == bytes;
    return remainder ^ INITIAL;
  }

  /** The inner loop: eight conditional shifts. */
  method ConsumeBits(mixed: bv32) returns (remainder: bv32)
    ensures remainder == BitSteps(mixed, 8)
  {
    remainder := mixed;
    var bit := 0;
    while bit < 8
      invariant 0 <= bit <= 8
      invariant remainder == BitSteps(mixed, bit)
    {
      ghost var before := remainder;
      if remainder & 1 != 0 {
        remainder := (remainder >> 1) ^ POLYNOMIAL;
      } else {
        remainder := remainder >> 1;
      }
      assert remainder == BitStep(before);
      assert BitSteps(mixed, bit + 1) == BitStep(BitSteps(mixed, bit)) by { hide BitStep; }
      bit := bit + 1;
    }
  }

  // ---- Bit-vector facts, each left to the bit-level solver on its own ----

  lemma OddXor(a: bv32, b: bv32)
    ensures Odd(Xor(a, b)) == (Odd(a) != Odd(b))
  {}

  lemma ShiftXor(a: bv32, b: bv32)
    ensures Shift(Xor(a, b)) == Xor(Shift(a), Shift(b))
  {}

  lemma XorAlgebra(a: bv32, b: bv32, c: bv32, d: bv32)
    ensures Xor(Xor(a, b), Xor(c, d)) == Xor(Xor(a, c), Xor(b, d))
    ensures Xor(Xor(a, b), Xor(c, b)) == Xor(a, c)
    ensures Xor(Xor(a, b), c) == Xor(Xor(a, c), b) == Xor(a, Xor(b, c)) == Xor(a, Xor(c, b))
  {}

  lemma XorSelf(a: bv32)
    ensures Xor(a, a) == 0 && Xor(a, 0) == a && Xor(0, a) == a
  {}

  lemma XorDistinct(a: bv32, b: bv32)
    requires a != b
    ensures Xor(a, b) != 0
  {}

  lemma OddPreimage(r: bv32)
    requires Odd(r)
    ensures Xor(Shift(r), POLYNOMIAL) != 0
  {}

  lemma EvenPreimage(r: bv32)
    requires !Odd(r) && r != 0
    ensures Shift(r) != 0
  {}

  lemma SmallXor(a: bv32, b: bv32)
    requires a < 256 && b < 256
    ensures Xor(a, b) < 256
  {}

  lemma WidenNarrow(x: bv8)
    ensures (x as bv32) as bv8 == x && (x as bv32) < 256
  {}

  // ---- One bit step is an injective linear map ----

  lemma BitStepLinear(a: bv32, b: bv32)
    ensures BitStep(Xor(a, b)) == Xor(BitStep(a), BitStep(b))
  {
    OddXor(a, b);
    ShiftXor(a, b);
    XorAlgebra(Shift(a), POLYNOMIAL, Shift(b), POLYNOMIAL);
    XorAlgebra(Shift(a), Shift(b), POLYNOMIAL, POLYNOMIAL);
    hide Xor, Odd, Shift;
  }

  lemma BitStepKernel(r: bv32)
    requires r != 0
    ensures BitStep(r) != 0
  {
    if Odd(r) { OddPreimage(r); } else { EvenPreimage(r); }
    hide Xor, Odd, Shift;
  }

  lemma {:induction false} BitStepsLinear(a: bv32, b: bv32, n: nat)
    ensures BitSteps(Xor(a, b), n) == Xor(BitSteps(a, n), BitSteps(b, n))
  {
    hide Xor, BitStep;
    if n > 0 {
      BitStepsLinear(a, b, n - 1);
      BitStepLinear(BitSteps(a, n - 1), BitSteps(b, n - 1));
    }
  }

  lemma {:induction false} BitStepsKernel(r: bv32, n: nat)
    requires r != 0
    ensures BitSteps(r, n) != 0
  {
    hide BitStep;
    if n > 0 {
      BitStepsKernel(r, n - 1);
      BitStepKernel(BitSteps(r, n - 1));
    }
  }

  // ---- Differences of two runs ----

  function Difference(x: byte, y: byte): bv32 { Xor(Widen(x), Widen(y)) }

  lemma ByteStepDifference(r: bv32, q: bv32, x: byte, y: byte)
    ensures Xor(ByteStep(r, x), ByteStep(q, y)) == BitSteps(Xor(Xor(r, q), Difference(x, y)), 8)
  {
    hide Xor, BitSteps, Widen;
    BitStepsLinear(Xor(r, Widen(x)), Xor(q, Widen(y)), 8);
    XorAlgebra(r, Widen(x), q, Widen(y));
  }

  /** The remainder of the byte-wise difference of two strings, from remainder `d`. */
  function DifferenceRemainder(d: bv32, s: seq<byte>, t: seq<byte>): bv32
    requires |s| == |t|
  {
    if |s| == 0 then d
    else BitSteps(Xor(DifferenceRemainder(d, s[..|s| - 1], t[..|s| - 1]), Difference(s[|s| - 1], t[|s| - 1])), 8)
  }

  lemma {:induction false} RemainderDifference(r: bv32, q: bv32, s: seq<byte>, t: seq<byte>)
    requires |s| == |t|
    ensures Xor(Remainder(r, s), Remainder(q, t)) == DifferenceRemainder(Xor(r, q), s, t)
  {
    hide Xor, BitSteps, ByteStep, Difference;
    if |s| > 0 {
      var n := |s| - 1;
      RemainderDifference(r, q, s[..n], t[..n]);
      ByteStepDifference(Remainder(r, s[..n]), Remainder(q, t[..n]), s[n], t[n]);
    }
  }

  lemma CrcDifference(s: seq<byte>, t: seq<byte>)
    requires |s| == |t|
    ensures Xor(Crc(s), Crc(t)) == DifferenceRemainder(0, s, t)
  {
    RemainderDifference(INITIAL, INITIAL, s, t);
    XorAlgebra(Remainder(INITIAL, s), INITIAL, Remainder(INITIAL, t), INITIAL);
    XorSelf(INITIAL);
    hide Xor, DifferenceRemainder, Remainder;
  }

  lemma {:induction false} SameDifference(d: bv32, s: seq<byte>, t: seq<byte>, u: seq<byte>, w: seq<byte>)
    requires |s| == |t| == |u| == |w|
    requires forall i :: 0 <= i < |s| ==> Difference(s[i], t[i]) == Difference(u[i], w[i])
    ensures DifferenceRemainder(d, s, t) == DifferenceRemainder(d, u, w)
  {
    hide Xor, BitSteps, Difference;
    if |s| > 0 {
      var n := |s| - 1;
      SameDifference(d, s[..n], t[..n], u[..n], w[..n]);
    }
  }

  /**
   * CRC is affine over XOR: whenever two pairs of strings have the same byte-wise XOR, their CRCs
   * have the same XOR.
   */
  lemma CrcAffine(s: seq<byte>, t: seq<byte>, u: seq<byte>, w: seq<byte>)
    requires |s| == |t| == |u| == |w|
    requires forall i :: 0 <= i < |s| ==> Difference(s[i], t[i]) == Difference(u[i], w[i])
    ensures Xor(Crc(s), Crc(t)) == Xor(Crc(u), Crc(w))
  {
    CrcDifference(s, t);
    CrcDifference(u, w);
    SameDifference(0, s, t, u, w);
    hide Xor, Crc;
  }

  // ---- Bursts of at most four bytes ----

  lemma DifferenceIsByte(x: byte, y: byte)
    ensures Difference(x, y) < 256
    ensures Difference(x, y) == 0 <==> x == y
  {
    WidenRoundTrip(x);
    WidenRoundTrip(y);
    WidenNarrow(x as bv8);
    WidenNarrow(y as bv8);
    SmallXor(Widen(x), Widen(y));
    if x == y { XorSelf(Widen(x)); } else { XorDistinct(Widen(x), Widen(y)); }
    hide Xor;
  }

  /** Eight steps on a remainder whose low byte is zero only shift it. */
  lemma ShiftDown(x: bv32)
    requires x < 0x1000000
    ensures BitSteps(x << 8, 8) == x
  {
    ShiftDownUnrolled(x);
    Unrolled(x << 8);
    hide BitStep;
  }

  lemma ShiftDownUnrolled(x: bv32)
    requires x < 0x1000000
    ensures BitStep(BitStep(BitStep(BitStep(BitStep(BitStep(BitStep(BitStep(x << 8)))))))) == x
  {}

  lemma Unrolled(r: bv32)
    ensures BitSteps(r, 8) == BitStep(BitStep(BitStep(BitStep(BitStep(BitStep(BitStep(BitStep(r))))))))
  {
    hide BitStep;
    assert BitSteps(r, 1) == BitStep(r) by { assert BitSteps(r, 0) == r; }
    assert BitSteps(r, 2) == BitStep(BitSteps(r, 1));
    assert BitSteps(r, 3) == BitStep(BitSteps(r, 2));
    assert BitSteps(r, 4) == BitStep(BitSteps(r, 3));
    assert BitSteps(r, 5) == BitStep(BitSteps(r, 4));
    assert BitSteps(r, 6) == BitStep(BitSteps(r, 5));
    assert BitSteps(r, 7) == BitStep(BitSteps(r, 6));
  }

  lemma {:induction false} DifferenceAppend(d: bv32, a: seq<byte>, b: seq<byte>, s: seq<byte>, t: seq<byte>)
    requires |a| == |b| && |s| == |t|
    ensures DifferenceRemainder(d, a + s, b + t) == DifferenceRemainder(DifferenceRemainder(d, a, b), s, t)
    decreases |s|
  {
    hide Xor, BitSteps, Difference;
    if |s| == 0 {
      assert a + s == a && b + t == b;
    } else {
      var n := |s| - 1;
      DifferenceAppend(d, a, b, s[..n], t[..n]);
      assert (a + s)[..|a| + n] == a + s[..n] && (b + t)[..|b| + n] == b + t[..n];
    }
  }

  /** Equal bytes neither create a difference nor cancel one. */
  lemma {:induction false} EqualBytesKeepDifference(d: bv32, s: seq<byte>)
    ensures d == 0 <==> DifferenceRemainder(d, s, s) == 0
  {
    hide Xor, Difference, BitSteps;
    if |s| > 0 {
      var n := |s| - 1;
      EqualBytesKeepDifference(d, s[..n]);
      var e := DifferenceRemainder(d, s[..n], s[..n]);
      DifferenceIsByte(s[n], s[n]);
      XorSelf(e);
      if e == 0 { ZeroSteps(8); } else { BitStepsKernel(e, 8); }
    }
  }

  lemma {:induction false} ZeroSteps(n: nat)
    ensures BitSteps(0, n) == 0
  {
    if n > 0 { ZeroSteps(n - 1); }
  }

  /** The only remainder that eight steps take to a value below 2^24 is that value shifted up. */
  lemma ShiftDownOnly(x: bv32, y: bv32)
    requires y < 0x1000000 && BitSteps(x, 8) == y
    ensures x == y << 8
  {
    ShiftDown(y);
    if x != y << 8 {
      BitStepsLinear(x, y << 8, 8);
      XorDistinct(x, y << 8);
      BitStepsKernel(Xor(x, y << 8), 8);
      XorSelf(y);
      hide BitSteps;
      assert false;
    }
  }

  lemma XorCancel(a: bv32, b: bv32, c: bv32)
    requires Xor(a, b) == c
    ensures a == Xor(c, b)
  {}

  lemma ShiftBounds(a: bv32, b: bv32)
    requires b < 256
    ensures a < 256 ==> Xor(a << 8, b) < 0x10000
    ensures a < 0x10000 ==> Xor(a << 8, b) < 0x1000000
  {}

  lemma StackedBytes(e0: bv32, e1: bv32, e2: bv32, e3: bv32)
    requires e0 < 256 && e1 < 256 && e2 < 256 && e3 < 256
    requires e0 == Xor(Xor(e3 << 8, e2) << 8, e1) << 8
    ensures e0 == 0 && e1 == 0 && e2 == 0 && e3 == 0
  {}

  /** Four byte differences, not all zero, leave a nonzero remainder. */
  lemma FourBytes(e0: bv32, e1: bv32, e2: bv32, e3: bv32)
    requires e0 < 256 && e1 < 256 && e2 < 256 && e3 < 256
    requires e0 != 0 || e1 != 0 || e2 != 0 || e3 != 0
    ensures BitSteps(Xor(BitSteps(Xor(BitSteps(Xor(BitSteps(e0, 8), e1), 8), e2), 8), e3), 8) != 0
  {
    hide Xor, BitSteps;
    var z1 := Xor(BitSteps(e0, 8), e1);
    var z2 := Xor(BitSteps(z1, 8), e2);
    var z3 := Xor(BitSteps(z2, 8), e3);
    if z3 != 0 {
      BitStepsKernel(z3, 8);
    } else {
      XorCancel(BitSteps(z2, 8), e3, 0);
      XorSelf(e3);
      ShiftDownOnly(z2, e3);
      XorCancel(BitSteps(z1, 8), e2, z2);
      ShiftBounds(e3, e2);
      ShiftDownOnly(z1, Xor(e3 << 8, e2));
      XorCancel(BitSteps(e0, 8), e1, z1);
      ShiftBounds(Xor(e3 << 8, e2), e1);
      ShiftDownOnly(e0, Xor(Xor(e3 << 8, e2) << 8, e1));
      StackedBytes(e0, e1, e2, e3);
    }
  }

  lemma WindowDifference(s: seq<byte>, t: seq<byte>)
    requires |s| == |t| == 4 && s != t
    ensures DifferenceRemainder(0, s, t) != 0
  {
    hide Xor, BitSteps, Difference;
    DifferenceIsByte(s[0], t[0]);
    DifferenceIsByte(s[1], t[1]);
    DifferenceIsByte(s[2], t[2]);
    DifferenceIsByte(s[3], t[3]);
    FourBytes(Difference(s[0], t[0]), Difference(s[1], t[1]), Difference(s[2], t[2]), Difference(s[3], t[3]));
    assert s[..3][..2] == s[..2] && t[..3][..2] == t[..2] && s[..2][..1] == s[..1] && t[..2][..1] == t[..1];
    assert s[..1][..0] == [] && t[..1][..0] == [];
    assert DifferenceRemainder(0, s[..1][..0], t[..1][..0]) == 0;
    XorSelf(Difference(s[0], t[0]));
    assert DifferenceRemainder(0, s[..1], t[..1]) == BitSteps(Difference(s[0], t[0]), 8);
    assert DifferenceRemainder(0, s[..2], t[..2])
        == BitSteps(Xor(DifferenceRemainder(0, s[..1], t[..1]), Difference(s[1], t[1])), 8);
    assert DifferenceRemainder(0, s[..3], t[..3])
        == BitSteps(Xor(DifferenceRemainder(0, s[..2], t[..2]), Difference(s[2], t[2])), 8);
    assert s[..|s| - 1] == s[..3] && t[..|t| - 1] == t[..3];
  }

  lemma WindowInside(s: seq<byte>, t: seq<byte>, k: nat)
    requires |s| == |t| && k + 4 <= |s| && s != t
    requires s[..k] == t[..k] && s[k + 4..] == t[k + 4..]
    ensures DifferenceRemainder(0, s, t) != 0
  {
    hide Xor, DifferenceRemainder;
    var e := k + 4;
    assert s == (s[..k] + s[k..e]) + s[e..] && t == (t[..k] + t[k..e]) + t[e..];
    DifferenceAppend(0, s[..k] + s[k..e], t[..k] + t[k..e], s[e..], t[e..]);
    DifferenceAppend(0, s[..k], t[..k], s[k..e], t[k..e]);
    EqualBytesKeepDifference(0, s[..k]);
    WindowDifference(s[k..e], t[k..e]);
    EqualBytesKeepDifference(DifferenceRemainder(0, s[k..e], t[k..e]), s[e..]);
  }

  /**
   * Two different strings of one length that differ only inside four consecutive positions have
   * different CRCs. (Leading zeros do not change a difference, so short strings are padded.)
   */
  lemma BurstDetected(s: seq<byte>, t: seq<byte>, k: nat)
    requires |s| == |t| && s != t
    requires forall i :: 0 <= i < |s| && s[i] != t[i] ==> k <= i < k + 4
    ensures Crc(s) != Crc(t)
  {
    hide Xor, Crc, DifferenceRemainder;
    var z := Zeros(4);
    var at := if k <= |s| then k else |s|;
    var p, q := z + s, z + t;
    assert s == p[4..] && t == q[4..];
    if k + 4 <= |s| {
      WindowInside(p, q, k + 4);
    } else {
      WindowInside(p, q, |s|);
    }
    DifferenceAppend(0, z, z, s, t);
    EqualBytesKeepDifference(0, z);
    CrcDifference(s, t);
    if Crc(s) == Crc(t) { XorSelf(Crc(s)); }
  }

  /** The first vector of section B.4 of RFC 3720: thirty-two bytes of zeroes. */
  lemma VectorThirtyTwoZeroes()
    ensures Crc(Zeros(32)) == 0x8A9136AA
  {
    assert Zeros(0) == [];
    ZeroByte(0, 0xFFFFFFFF, 0xAD82ACAE);
    ZeroByte(1, 0xAD82ACAE, 0x0E9E882D);
    ZeroByte(2, 0x0E9E882D, 0x9F9B5C85);
    ZeroByte(3, 0x9F9B5C85, 0xB798B438);
    ZeroByte(4, 0xB798B438, 0xBA8D89CA);
    ZeroByte(5, 0xBA8D89CA, 0xA8D58375);
    ZeroByte(6, 0xA8D58375, 0x44C19592);
    ZeroByte(7, 0x44C19592, 0x73D74D75);
    ZeroByte(8, 0x73D74D75, 0x441A975C);
    ZeroByte(9, 0x441A975C, 0x1C220F94);
    ZeroByte(10, 0x1C220F94, 0x552E4907);
    ZeroByte(11, 0x552E4907, 0xD49F4AA2);
    ZeroByte(12, 0xD49F4AA2, 0x43A45A1B);
    ZeroByte(13, 0x43A45A1B, 0x8994C80E);
    ZeroByte(14, 0x8994C80E, 0xACF12BEF);
    ZeroByte(15, 0xACF12BEF, 0xBD8F6515);
    ZeroByte(16, 0xBD8F6515, 0x25125C16);
    ZeroByte(17, 0x25125C16, 0x36DA32DB);
    ZeroByte(18, 0x36DA32DB, 0x4A6C90A2);
    ZeroByte(19, 0x4A6C90A2, 0x433AA9C1);
    ZeroByte(20, 0x433AA9C1, 0x31A59F6E);
    ZeroByte(21, 0x31A59F6E, 0xCD8F89DA);
    ZeroByte(22, 0xCD8F89DA, 0xB8FC461A);
    ZeroByte(23, 0xB8FC461A, 0x7B041311);
    ZeroByte(24, 0x7B041311, 0xE24E407F);
    ZeroByte(25, 0xE24E407F, 0x2F692669);
    ZeroByte(26, 0x2F692669, 0x195B2188);
    ZeroByte(27, 0x195B2188, 0x08363896);
    ZeroByte(28, 0x08363896, 0xB4012DC7);
    ZeroByte(29, 0xB4012DC7, 0x17F34302);
    ZeroByte(30, 0x17F34302, 0xE12C83B4);
    ZeroByte(31, 0xE12C83B4, 0x756EC955);
    hide Remainder;
  }

  lemma ZeroByte(n: nat, r: bv32, q: bv32)
    requires Remainder(INITIAL, Zeros(n)) == r
    requires BitStep(BitStep(BitStep(BitStep(BitStep(BitStep(BitStep(BitStep(r)))))))) == q
    ensures Remainder(INITIAL, Zeros(n + 1)) == q
  {
    assert Zeros(n + 1)[..n] == Zeros(n);
    Unrolled(r);
    WidenZero(r);
    hide BitStep, BitSteps, Xor, Widen;
  }

  lemma WidenZero(r: bv32)
    ensures Xor(r, Widen(0)) == r
  {}
}
