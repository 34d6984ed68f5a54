/** Fixed-offset fields of a buffer: what one write changes, and what the reads determine. */
module Fields {
  import opened Bytes

  function U16At(b: seq<byte>, at: nat): u16
    requires at + 2 <= |b|
  {
    ReadBound(b, at, 2);
    RadixValues();
    Read(b, at, 2)
  }

  function U32At(b: seq<byte>, at: nat): u32
    requires at + 4 <= |b|
  {
    ReadBound(b, at, 4);
    RadixValues();
    Read(b, at, 4)
  }

  function U64At(b: seq<byte>, at: nat): u64
    requires at + 8 <= |b|
  {
    ReadBound(b, at, 8);
    RadixValues();
    Read(b, at, 8)
  }

  lemma ReadWritten(b: seq<byte>, at: nat, width: nat, value: nat)
    requires at + width <= |b| && value < Radix(width)
    ensures Read(Write(b, at, LittleEndian(value, width)), at, width) == value
  {
    DecodeEncode(value, width);
    assert Write(b, at, LittleEndian(value, width))[at..at + width] == LittleEndian(value, width);
  }

  lemma ReadElsewhere(b: seq<byte>, at: nat, v: seq<byte>, from: nat, width: nat)
    requires at + |v| <= |b| && from + width <= |b| && (from + width <= at || at + |v| <= from)
    ensures Read(Write(b, at, v), from, width) == Read(b, from, width)
  {
    assert Write(b, at, v)[from..from + width] == b[from..from + width];
  }

  /** A field determines its bytes. */
  lemma ReadDetermines(a: seq<byte>, b: seq<byte>, at: nat, width: nat)
    requires at + width <= |a| && at + width <= |b| && Read(a, at, width) == Read(b, at, width)
    ensures a[at..at + width] == b[at..at + width]
  {
    EncodeDecode(a[at..at + width]);
    EncodeDecode(b[at..at + width]);
  }

  /** EncodeLittleEndian at a fixed place of a buffer that has the room. */
  method PutField(buffer: array<byte>, at: nat, width: nat, value: nat)
    requires at + width <= buffer.Length && value < Radix(width)
    modifies buffer
    ensures buffer[..] == Write(old(buffer[..]), at, LittleEndian(value, width))
    ensures Read(buffer[..], at, width) == value
    ensures forall from: nat, size: nat {:trigger Read(buffer[..], from, size)} ::
      from + size <= buffer.Length && (from + size <= at || at + width <= from) ==>
        Read(buffer[..], from, size) == Read(old(buffer[..]), from, size)
  {
    ghost var before := buffer[..];
    var ok := EncodeLittleEndian(buffer, at, width, width, value);
    ReadWritten(before, at, width, value);
    forall from: nat, size: nat | from + size <= buffer.Length && (from + size <= at || at + width <= from)
      ensures Read(buffer[..], from, size) == Read(before, from, size)
    {
      ReadElsewhere(before, at, LittleEndian(value, width), from, size);
    }
  }

  /** std::ranges::copy into a buffer. */
  method CopyBytes(destination: array<byte>, at: nat, bytes: seq<byte>)
    requires at + |bytes| <= destination.Length
    modifies destination
    ensures destination[..] == Write(old(destination[..]), at, bytes)
  {
    for i := 0 to |bytes|
      invariant forall k :: 0 <= k < i ==> destination[at + k] == bytes[k]
      invariant forall k :: 0 <= k < destination.Length && !(at <= k < at + i) ==> destination[k] == old(destination[k])
    {
      destination[at + i] := bytes[i];
    }
  }
}
