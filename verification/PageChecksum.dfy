/** The page checksum of src/storage/page/page_checksum.cpp. */
module PageChecksum {
  import opened Bytes
  import opened Crc32c

  const PAGE_SIZE: nat := 8192
  const CHECKSUM_OFFSET: nat := 16
  const CHECKSUM_SIZE: nat := 4

  type Image = s: seq<byte> | |s| == PAGE_SIZE witness Zeros(PAGE_SIZE)

  /** The page with its checksum field zeroed: what the checksum covers. */
  function Cleared(page: Image): Image { Write(page, CHECKSUM_OFFSET, Zeros(CHECKSUM_SIZE)) }

  function Checksum(page: Image): nat { Crc(Cleared(page)) as int }

  function Finalized(page: Image): Image
  {
    RadixValues();
    Write(page, CHECKSUM_OFFSET, LittleEndian(Checksum(page), CHECKSUM_SIZE))
  }

  predicate Verifies(page: Image) { Read(page, CHECKSUM_OFFSET, CHECKSUM_SIZE) == Checksum(page) }

  /** Equality up to bytes 16..19. */
  predicate SameContent(p: Image, q: Image) { Cleared(p) == Cleared(q) }

  method ComputePageChecksum(page: seq<byte>) returns (checksum: u32)
    requires |page| == PAGE_SIZE
    ensures checksum == Checksum(page)
  {
    var input := new byte[PAGE_SIZE](i requires 0 <= i < PAGE_SIZE => page[i]);
    var i := 0;
    while i < CHECKSUM_SIZE
      invariant 0 <= i <= CHECKSUM_SIZE
      invariant forall k :: 0 <= k < PAGE_SIZE ==>
        input[k] == if CHECKSUM_OFFSET <= k < CHECKSUM_OFFSET + i then 0 else page[k]
    {
      input[CHECKSUM_OFFSET + i] := 0;
      i := i + 1;
    }
    assert input[..] == Cleared(page);
    var crc := ComputeCrc32c(input[..]);
    return crc as int;
  }

  method FinalizePageChecksum(page: array<byte>)
    requires page.Length == PAGE_SIZE
    modifies page
    ensures page[..] == Finalized(old(page[..]))
  {
    var checksum := ComputePageChecksum(page[..]);
    RadixValues();
    var encoded := EncodeLittleEndian(page, CHECKSUM_OFFSET, CHECKSUM_SIZE, CHECKSUM_SIZE, checksum);
    assert encoded;
  }

  method VerifyPageChecksum(page: seq<byte>) returns (ok: bool)
    requires |page| == PAGE_SIZE
    ensures ok == Verifies(page)
  {
    var decoded, stored := DecodeLittleEndian(page[CHECKSUM_OFFSET..CHECKSUM_OFFSET + CHECKSUM_SIZE], CHECKSUM_SIZE);
    var computed := ComputePageChecksum(page);
    assert page[CHECKSUM_OFFSET..CHECKSUM_OFFSET + CHECKSUM_SIZE][0..CHECKSUM_SIZE]
        == page[CHECKSUM_OFFSET..CHECKSUM_OFFSET + CHECKSUM_SIZE];
    return stored == computed;
  }

  /** The checksum ignores its own four bytes. */
  lemma ChecksumIgnoresField(p: Image, q: Image)
    requires SameContent(p, q)
    ensures Checksum(p) == Checksum(q)
  {}

  lemma SameContentPointwise(p: Image, q: Image)
    ensures SameContent(p, q) <==>
      forall i :: 0 <= i < PAGE_SIZE && !(CHECKSUM_OFFSET <= i < CHECKSUM_OFFSET + CHECKSUM_SIZE) ==> p[i] == q[i]
  {
    if SameContent(p, q) {
      forall i | 0 <= i < PAGE_SIZE && !(CHECKSUM_OFFSET <= i < CHECKSUM_OFFSET + CHECKSUM_SIZE)
        ensures p[i] == q[i]
      {
        assert Cleared(p)[i] == p[i] && Cleared(q)[i] == q[i];
      }
    }
  }

  /** Finalizing writes only the field, and the result verifies. */
  lemma FinalizeVerifies(p: Image)
    ensures SameContent(Finalized(p), p)
    ensures Verifies(Finalized(p))
  {
    RadixValues();
    var f := Finalized(p);
    assert Cleared(f) == Cleared(p);
    assert f[CHECKSUM_OFFSET..CHECKSUM_OFFSET + CHECKSUM_SIZE] == LittleEndian(Checksum(p), CHECKSUM_SIZE);
    DecodeEncode(Checksum(p), CHECKSUM_SIZE);
  }

  lemma WordToInt(x: bv32, y: bv32)
    requires x as int == y as int
    ensures x == y
  {
    assert (x as int) as bv32 == x;
    assert (y as int) as bv32 == y;
  }

  /**
   * A page that verifies stops verifying after any change confined to four consecutive bytes and
   * sparing the checksum field.
   */
  lemma BurstFailsVerification(p: Image, q: Image, k: nat)
    requires Verifies(p) && p != q
    requires forall i :: 0 <= i < PAGE_SIZE && p[i] != q[i] ==> k <= i < k + 4
    requires forall i :: CHECKSUM_OFFSET <= i < CHECKSUM_OFFSET + CHECKSUM_SIZE ==> p[i] == q[i]
    ensures !Verifies(q)
  {
    hide Crc, Read;
    var c, d := Cleared(p), Cleared(q);
    var i :| 0 <= i < PAGE_SIZE && p[i] != q[i];
    assert c[i] != d[i];
    BurstDetected(c, d, k);
    SameField(p, q);
    if Verifies(q) { WordToInt(Crc(c), Crc(d)); }
  }

  lemma SameField(p: Image, q: Image)
    requires forall i :: CHECKSUM_OFFSET <= i < CHECKSUM_OFFSET + CHECKSUM_SIZE ==> p[i] == q[i]
    ensures Read(p, CHECKSUM_OFFSET, CHECKSUM_SIZE) == Read(q, CHECKSUM_OFFSET, CHECKSUM_SIZE)
  {
    assert p[CHECKSUM_OFFSET..CHECKSUM_OFFSET + CHECKSUM_SIZE] == q[CHECKSUM_OFFSET..CHECKSUM_OFFSET + CHECKSUM_SIZE];
  }
}
