/** The FSM page (src/storage/heap/fsm_page.cpp): one category byte per heap page of its range. */
module FsmPages {
  import opened Basics
  import opened Bytes
  import opened Fields
  import opened PageChecksum
  import opened HeapFormat
  import opened FsmCategories

  const FSM_DATA: u16 := 2
  const ENTRIES: nat := 48

  datatype FsmHeader = FsmHeader(first: u64, count: u16, reserved16: u16, reserved32: u32)

  datatype FsmError =
    | FsmWrongPageType | FsmWrongPageNumber | FsmWrongHeaderSize | FsmUnsupportedVersion | FsmNonzeroFlags
    | FsmNonzeroCommonReserved | NonzeroFsmReserved | InvalidFsmPageNumber | FirstHeapPageOverflow
    | FirstHeapPageMismatch | EntryCountOutOfRange | HeapRangeOverflow | NonzeroUninitializedEntry(entry: nat)

  function FsmHeaderAt(b: Image): FsmHeader { FsmHeader(U64At(b, 32), U16At(b, 40), U16At(b, 42), U32At(b, 44)) }

  function FsmHeaderImage(h: FsmHeader): (s: seq<byte>)
    ensures |s| == 16
  {
    LittleEndian(h.first, 8) + LittleEndian(h.count, 2) + LittleEndian(h.reserved16, 2) + LittleEndian(h.reserved32, 4)
  }

  /** The first entry from `i` on that should be zero and is not. */
  function NonzeroEntry(b: Image, i: nat): Option<nat>
    requires i <= ENTRY_CAPACITY
    decreases ENTRY_CAPACITY - i
  {
    if i == ENTRY_CAPACITY then None else if b[ENTRIES + i] != 0 then Some(i) else NonzeroEntry(b, i + 1)
  }

  lemma {:induction false} NonzeroEntryIff(b: Image, i: nat)
    requires i <= ENTRY_CAPACITY
    ensures NonzeroEntry(b, i) == None <==> forall k :: ENTRIES + i <= k < PAGE_SIZE ==> b[k] == 0
    decreases ENTRY_CAPACITY - i
  {
    if i < ENTRY_CAPACITY { NonzeroEntryIff(b, i + 1); }
  }

  function CheckFsm(b: Image, pageNo: u64): Result<FsmHeader, FsmError>
  {
    var c, h := CommonAt(b), FsmHeaderAt(b);
    if c.pageType != FSM_DATA then Err(FsmWrongPageType)
    else if c.pageNo != pageNo then Err(FsmWrongPageNumber)
    else if c.headerSize != ENTRIES then Err(FsmWrongHeaderSize)
    else if c.formatVersion != 1 then Err(FsmUnsupportedVersion)
    else if c.flags != 0 then Err(FsmNonzeroFlags)
    else if c.reserved16 != 0 then Err(FsmNonzeroCommonReserved)
    else if h.reserved16 != 0 || h.reserved32 != 0 then Err(NonzeroFsmReserved)
    else if pageNo == 0 || pageNo == U64_MAX then Err(InvalidFsmPageNumber)
    else match FirstHeapPage(pageNo)
      case None => Err(FirstHeapPageOverflow)
      case Some(first) =>
        if h.first != first then Err(FirstHeapPageMismatch)
        else if h.count > ENTRY_CAPACITY then Err(EntryCountOutOfRange)
        else if !RangeFits(h.first, h.count) then Err(HeapRangeOverflow)
        else match NonzeroEntry(b, h.count)
          case Some(i) => Err(NonzeroUninitializedEntry(i))
          case None => Ok(h)
  }

  datatype EntryError = EntryPageInvalid(page: FsmError) | EntryOutOfRange

  /** What Category and SetCategory check. */
  function EntryOutcome(b: Image, pageNo: u64, i: nat): Option<EntryError>
  {
    match CheckFsm(b, pageNo)
    case Err(error) => Some(EntryPageInvalid(error))
    case Ok(h) => if i >= h.count then Some(EntryOutOfRange) else None
  }

  /** A valid page tracks no more entries than it has room for. */
  lemma TrackedInPage(b: Image, pageNo: u64)
    requires CheckFsm(b, pageNo).Ok?
    ensures CheckFsm(b, pageNo).value.count <= ENTRY_CAPACITY
  {
    hide CommonAt, FsmHeaderAt, FirstHeapPage, NonzeroEntry;
  }

  datatype InitializeError = InitInvalidPageNumber | InitRangeOverflow | InitCountOutOfRange

  function InitializeOutcome(pageNo: u64, count: u16): Option<InitializeError>
  {
    if pageNo == 0 || pageNo == U64_MAX then Some(InitInvalidPageNumber)
    else match FirstHeapPage(pageNo)
      case None => Some(InitRangeOverflow)
      case Some(first) =>
        if count > ENTRY_CAPACITY then Some(InitCountOutOfRange)
        else if !RangeFits(first, count) then Some(InitRangeOverflow) else None
  }

  function FreshFsm(pageNo: u64, lsn: u64, count: u16): Image
    requires FirstHeapPage(pageNo).Some?
  {
    Write(PutCommon(Zeros(PAGE_SIZE), CommonHeader(FSM_DATA, 1, 0, lsn, 0, ENTRIES, 0, pageNo)), 32,
          FsmHeaderImage(FsmHeader(FirstHeapPage(pageNo).value, count, 0, 0)))
  }

  lemma FsmHeaderReadsBack(b: Image, h: FsmHeader)
    ensures FsmHeaderAt(Write(b, 32, FsmHeaderImage(h))) == h
  {
    var r, image := Write(b, 32, FsmHeaderImage(h)), FsmHeaderImage(h);
    RadixValues();
    hide LittleEndian, Read, Write;
    assert r[32..40] == image[0..8] == LittleEndian(h.first, 8);
    assert r[40..42] == image[8..10] == LittleEndian(h.count, 2);
    assert r[42..44] == image[10..12] == LittleEndian(h.reserved16, 2);
    assert r[44..48] == image[12..16] == LittleEndian(h.reserved32, 4);
    PieceReads(r, 32, h.first, 8);
    PieceReads(r, 40, h.count, 2);
    PieceReads(r, 42, h.reserved16, 2);
    PieceReads(r, 44, h.reserved32, 4);
  }

  /** A fresh page validates, and every category it tracks is zero. */
  lemma FreshFsmIsValid(pageNo: u64, lsn: u64, count: u16)
    requires InitializeOutcome(pageNo, count) == None
    ensures CheckFsm(FreshFsm(pageNo, lsn, count), pageNo) == Ok(FsmHeader(FirstHeapPage(pageNo).value, count, 0, 0))
    ensures forall k :: ENTRIES <= k < PAGE_SIZE ==> FreshFsm(pageNo, lsn, count)[k] == 0
  {
    var c := CommonHeader(FSM_DATA, 1, 0, lsn, 0, ENTRIES, 0, pageNo);
    var page := PutCommon(Zeros(PAGE_SIZE), c);
    hide CommonAt, FsmHeaderAt, CommonImage, FsmHeaderImage;
    CommonReadsBack(Zeros(PAGE_SIZE), c);
    SameCommon(FreshFsm(pageNo, lsn, count), page);
    FsmHeaderReadsBack(page, FsmHeader(FirstHeapPage(pageNo).value, count, 0, 0));
    NonzeroEntryIff(FreshFsm(pageNo, lsn, count), count);
  }

  /** Setting one tracked category keeps the page valid and every other category. */
  lemma SetCategoryKeeps(b: Image, pageNo: u64, i: nat, category: byte)
    requires CheckFsm(b, pageNo).Ok? && i < CheckFsm(b, pageNo).value.count
    ensures ENTRIES + i < PAGE_SIZE && CheckFsm(b[ENTRIES + i := category], pageNo) == CheckFsm(b, pageNo)
  {
    var r: Image := b[ENTRIES + i := category];
    var count := CheckFsm(b, pageNo).value.count;
    NonzeroEntryIff(b, count);
    NonzeroEntryIff(r, count);
    SameCommon(r, b);
    assert r[32..40] == b[32..40] && r[40..42] == b[40..42] && r[42..44] == b[42..44] && r[44..48] == b[44..48];
    hide CommonAt, NonzeroEntry, Read;
  }

  class FsmPage {
    const pageNo: u64
    const bytes: array<byte>

    predicate Valid() { bytes.Length == PAGE_SIZE }

    ghost function Page(): Image
      requires Valid()
      reads bytes
    {
      bytes[..]
    }

    constructor (bytes: array<byte>, pageNo: u64)
      requires bytes.Length == PAGE_SIZE
      ensures Valid() && this.bytes == bytes && this.pageNo == pageNo
    {
      this.bytes := bytes;
      this.pageNo := pageNo;
    }

    method Initialize(count: u16, lsn: u64) returns (error: Option<InitializeError>)
      requires Valid()
      modifies bytes
      ensures error == InitializeOutcome(pageNo, count)
      ensures Page() == if error == None then FreshFsm(pageNo, lsn, count) else old(Page())
    {
      error := InitializeOutcome(pageNo, count);
      if error == None {
        hide CommonImage, FsmHeaderImage;
        var image := FreshFsm(pageNo, lsn, count);
        for i := 0 to PAGE_SIZE
          invariant bytes[..i] == image[..i]
        {
          bytes[i] := image[i];
        }
        assert bytes[..PAGE_SIZE] == bytes[..];
      }
    }

    /** The headers, then a scan of the entries past the count. */
    method Validate() returns (r: Result<FsmHeader, FsmError>)
      requires Valid()
      ensures r == CheckFsm(Page(), pageNo)
    {
      ghost var b := Page();
      var c, h := CommonAt(bytes[..]), FsmHeaderAt(bytes[..]);
      hide CommonAt, FsmHeaderAt;
      if c.pageType != FSM_DATA { return Err(FsmWrongPageType); }
      if c.pageNo != pageNo { return Err(FsmWrongPageNumber); }
      if c.headerSize != ENTRIES { return Err(FsmWrongHeaderSize); }
      if c.formatVersion != 1 { return Err(FsmUnsupportedVersion); }
      if c.flags != 0 { return Err(FsmNonzeroFlags); }
      if c.reserved16 != 0 { return Err(FsmNonzeroCommonReserved); }
      if h.reserved16 != 0 || h.reserved32 != 0 { return Err(NonzeroFsmReserved); }
      if pageNo == 0 || pageNo == U64_MAX { return Err(InvalidFsmPageNumber); }
      var first := FirstHeapPage(pageNo);
      if first == None { return Err(FirstHeapPageOverflow); }
      if h.first != first.value { return Err(FirstHeapPageMismatch); }
      if h.count > ENTRY_CAPACITY { return Err(EntryCountOutOfRange); }
      if !RangeFits(h.first, h.count) { return Err(HeapRangeOverflow); }
      var index: nat := h.count;
      while index < ENTRY_CAPACITY
        invariant h.count <= index <= ENTRY_CAPACITY
        invariant NonzeroEntry(b, h.count) == NonzeroEntry(b, index)
      {
        if bytes[ENTRIES + index] != 0 {
          return Err(NonzeroUninitializedEntry(index));
        }
        index := index + 1;
      }
      return Ok(h);
    }

    method Category(i: nat) returns (r: Result<byte, EntryError>)
      requires Valid()
      ensures r.Ok? <==> EntryOutcome(Page(), pageNo, i) == None
      ensures r.Ok? ==> ENTRIES + i < PAGE_SIZE && r.value == Page()[ENTRIES + i]
      ensures r.Err? ==> Some(r.error) == EntryOutcome(Page(), pageNo, i)
    {
      var validation := Validate();
      if validation.Err? {
        return Err(EntryPageInvalid(validation.error));
      }
      if i >= validation.value.count {
        return Err(EntryOutOfRange);
      }
      TrackedInPage(Page(), pageNo);
      return Ok(bytes[ENTRIES + i]);
    }

    method SetCategory(i: nat, category: byte) returns (error: Option<EntryError>)
      requires Valid()
      modifies bytes
      ensures error == EntryOutcome(old(Page()), pageNo, i)
      ensures error == None ==> ENTRIES + i < PAGE_SIZE
      ensures Page() == if error == None then old(Page())[ENTRIES + i := category] else old(Page())
    {
      var validation := Validate();
      if validation.Err? {
        return Some(EntryPageInvalid(validation.error));
      }
      if i >= validation.value.count {
        return Some(EntryOutOfRange);
      }
      TrackedInPage(Page(), pageNo);
      bytes[ENTRIES + i] := category;
      return None;
    }
  }
}
