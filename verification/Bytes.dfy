/** Bytes, fixed-width unsigned integers and the little-endian codec of src/common/encoding.h. */
module Bytes {
  type byte = x: int | 0 <= x < 256
  type u16 = x: int | 0 <= x < 0x1_0000
  type u32 = x: int | 0 <= x < 0x1_0000_0000
  type u64 = x: int | 0 <= x < 0x1_0000_0000_0000_0000
  type i32 = x: int | -0x8000_0000 <= x < 0x8000_0000
  type i64 = x: int | -0x8000_0000_0000_0000 <= x < 0x8000_0000_0000_0000

  const U16_MAX: u16 := 0xFFFF
  const U32_MAX: u32 := 0xFFFF_FFFF
  const U64_MAX: u64 := 0xFFFF_FFFF_FFFF_FFFF

  /** The number of values a field of `width` bytes can hold. */
  function Radix(width: nat): (r: int)
    ensures r >= 1
  {
    if width == 0 then 1 else 256 * Radix(width - 1)
  }

  lemma RadixValues()
    ensures Radix(1) == 0x100 && Radix(2) == 0x1_0000 && Radix(4) == 0x1_0000_0000
    ensures Radix(8) == 0x1_0000_0000_0000_0000
  {
    assert Radix(1) == 0x100 by { assert Radix(0) == 1; }
    assert Radix(2) == 0x1_0000;
    assert Radix(3) == 0x100_0000;
    assert Radix(4) == 0x1_0000_0000;
    assert Radix(5) == 0x100_0000_0000;
    assert Radix(6) == 0x1_0000_0000_0000;
    assert Radix(7) == 0x100_0000_0000_0000;
  }

  /** The low `width` base-256 digits of `n`, least significant first. */
  function LittleEndian(n: nat, width: nat): (s: seq<byte>)
    ensures |s| == width
    decreases width
  {
    if width == 0 then [] else [n % 256] + LittleEndian(n / 256, width - 1)
  }

  /** The number whose base-256 digits are `s`, least significant first. */
  function FromLittleEndian(s: seq<byte>): nat
  {
    if |s| == 0 then 0 else s[0] + 256 * FromLittleEndian(s[1..])
  }

  lemma {:induction false} DecodeEncode(n: nat, width: nat)
    requires n < Radix(width)
    ensures FromLittleEndian(LittleEndian(n, width)) == n
    decreases width
  {
    if width > 0 {
      DecodeEncode(n / 256, width - 1);
      assert LittleEndian(n, width)[1..] == LittleEndian(n / 256, width - 1);
    }
  }

  lemma {:induction false} EncodeDecode(s: seq<byte>)
    ensures FromLittleEndian(s) < Radix(|s|)
    ensures LittleEndian(FromLittleEndian(s), |s|) == s
  {
    if |s| > 0 {
      EncodeDecode(s[1..]);
      assert FromLittleEndian(s) / 256 == FromLittleEndian(s[1..]);
      assert [s[0]] + s[1..] == s;
    }
  }

  /** Field `[at, at + width)` of a buffer, read as an unsigned integer. */
  function Read(b: seq<byte>, at: nat, width: nat): nat
    requires at + width <= |b|
  {
    FromLittleEndian(b[at..at + width])
  }

  lemma ReadBound(b: seq<byte>, at: nat, width: nat)
    requires at + width <= |b|
    ensures Read(b, at, width) < Radix(width)
  {
    EncodeDecode(b[at..at + width]);
  }

  /** Two's complement: the unsigned pattern of a signed value, as static_cast writes it. */
  function Unsigned(value: int, width: nat): (n: nat)
    requires -Radix(width) <= 2 * value < Radix(width)
    ensures n < Radix(width)
  {
    if value < 0 then value + Radix(width) else value
  }

  /** The signed value of an unsigned pattern, as bit_cast reads it. */
  function Signed(n: nat, width: nat): (value: int)
    requires n < Radix(width)
    ensures -Radix(width) <= 2 * value < Radix(width)
    ensures Unsigned(value, width) == n
  {
    if 2 * n < Radix(width) then n else n - Radix(width)
  }

  lemma SignedUnsigned(value: int, width: nat)
    requires -Radix(width) <= 2 * value < Radix(width)
    ensures Signed(Unsigned(value, width), width) == value
  {}

  /** `v` written over `b` at `at`. */
  function Write(b: seq<byte>, at: nat, v: seq<byte>): (r: seq<byte>)
    requires at + |v| <= |b|
    ensures |r| == |b|
    ensures forall i {:trigger r[i]} :: 0 <= i < |b| ==>
      r[i] == if at <= i < at + |v| then v[i - at] else b[i]
  {
    b[..at] + v + b[at + |v|..]
  }

  function Zeros(n: nat): (s: seq<byte>)
    ensures |s| == n && forall i :: 0 <= i < n ==> s[i] == 0
  {
    seq(n, _ => 0)
  }

  /** EncodeLittleEndian over the sub-span `[at, at + size)` of a buffer. */
  method EncodeLittleEndian(buffer: array<byte>, at: nat, size: nat, width: nat, value: nat) returns (ok: bool)
    requires at + size <= buffer.Length
    requires value < Radix(width)
    modifies buffer
    ensures ok == (width <= size)
    ensures buffer[..] == if ok then Write(old(buffer[..]), at, LittleEndian(value, width)) else old(buffer[..])
  {
    if size < width {
      return false;
    }
    ghost var digits := LittleEndian(value, width);
    var bits := value;
    var offset := 0;
    while offset < width
      invariant 0 <= offset <= width && bits >= 0
      invariant digits[offset..] == LittleEndian(bits, width - offset)
      invariant forall i :: 0 <= i < offset ==> buffer[at + i] == digits[i]
      invariant forall i :: 0 <= i < buffer.Length && !(at <= i < at + offset) ==> buffer[i] == old(buffer[i])
    {
      assert digits[offset..][0] == bits % 256;
      assert digits[offset..][1..] == digits[offset + 1..];
      buffer[at + offset] := bits % 256;
      bits := bits / 256;
      offset := offset + 1;
    }
    return true;
  }

  /** DecodeLittleEndian: shift and or from the most significant byte down. */
  method DecodeLittleEndian(source: seq<byte>, width: nat) returns (ok: bool, value: nat)
    ensures ok == (width <= |source|)
    ensures ok ==> value == Read(source, 0, width) && value < Radix(width)
  {
    if |source| < width {
      return false, 0;
    }
    var bits: int := 0;
    var offset := width;
    while offset > 0
      invariant 0 <= offset <= width && bits >= 0
      invariant bits == FromLittleEndian(source[offset..width])
    {
      assert source[offset - 1..width][1..] == source[offset..width];
      bits := bits * 256 + (source[offset - 1] as int);
      offset := offset - 1;
    }
    ReadBound(source, 0, width);
    return true, bits;
  }
}
