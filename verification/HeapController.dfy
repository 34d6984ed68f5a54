/** HeapPage's methods: the page buffer is updated in place, and a refusal changes no byte. */
module HeapController {
  import opened Basics
  import opened Bytes
  import opened Fields
  import opened PageChecksum
  import opened TupleLayouts
  import opened HeapFormat
  import opened HeapStructure
  import opened HeapCompaction
  import opened HeapCompacted
  import opened HeapValidator
  import opened HeapPages

  datatype CompactError = CompactPageInvalid(page: PageError) | UnsupportedSlotState(slot: nat)

  /** The first slot from `i` on that compaction does not support. */
  function Unsupported(slots: seq<Slot>, i: nat): Option<nat>
    requires i <= |slots|
    decreases |slots| - i
  {
    if i == |slots| then None
    else if slots[i].state in {Normal, Dead} then Unsupported(slots, i + 1) else Some(i)
  }

  lemma {:induction false} UnsupportedIff(slots: seq<Slot>, i: nat)
    requires i <= |slots|
    ensures Unsupported(slots, i) == None <==> forall j :: i <= j < |slots| ==> slots[j].state in {Normal, Dead}
    decreases |slots| - i
  {
    if i < |slots| { UnsupportedIff(slots, i + 1); }
  }

  function CompactOutcome(b: Image, pageNo: u64): Option<CompactError>
  {
    match CheckStructure(b, pageNo)
    case Err(failure) => Some(CompactPageInvalid(failure.code))
    case Ok(h) =>
      if h.slotCount > MAX_SLOTS then Some(CompactPageInvalid(SlotDirectoryOutOfBounds))
      else match Unsupported(Slots(b, h.slotCount), 0)
        case Some(i) => Some(UnsupportedSlotState(i))
        case None => None
  }

  /** A structurally valid page is compacted, or has an unsupported slot. */
  lemma AcceptedIsPlannable(b: Image, pageNo: u64)
    requires CompactOutcome(b, pageNo) == None
    ensures Compactable(b, pageNo) && HeaderAt(b).slotCount <= MAX_SLOTS && Plannable(Directory(b), HeaderAt(b).upper)
  {
    hide CheckStructure, HeaderAt, Sound, Plannable, SlotAt;
    StructureIsExact(b, pageNo);
    UnsupportedIff(Slots(b, HeaderAt(b).slotCount), 0);
    SoundSlots(b, pageNo);
    forall i | 0 <= i < HeaderAt(b).slotCount ensures SlotAt(b, i).value.state in {Normal, Dead} {
      assert Slots(b, HeaderAt(b).slotCount)[i] == SlotAt(b, i).value;
    }
    DirectoryPlannable(b, pageNo);
  }

  lemma SoundSlots(b: Image, pageNo: u64)
    requires Sound(b, pageNo)
    ensures HeaderAt(b).slotCount <= MAX_SLOTS && forall i :: 0 <= i < HeaderAt(b).slotCount ==> SlotAt(b, i).Some?
  {
    hide HeaderAt, SlotAt, CommonAt, CheckSlot, PairwiseDisjoint, ChainOk;
    forall i | 0 <= i < HeaderAt(b).slotCount ensures SlotAt(b, i).Some? { assert SlotOk(SlotAt(b, i), HeaderAt(b).upper); }
  }

  /** Compaction never meets an unsupported slot on a page the operations produced. */
  lemma GoodPagesCompact(b: Image, pageNo: u64, history: seq<Layout>)
    requires Good(b, pageNo, history)
    ensures CompactOutcome(b, pageNo) == None
  {
    hide SlotAt, HeaderAt, CommonAt, CheckCommon, StoredOk, Compactable, CheckStructure, Good;
    GoodParts(b, pageNo, history);
    UnsupportedIff(Slots(b, HeaderAt(b).slotCount), 0);
    forall i | 0 <= i < |Directory(b)| ensures Directory(b)[i].state in {Normal, Dead} {
      PlannableState(Directory(b), HeaderAt(b).upper, i);
    }
  }

  method Memmove(page: array<byte>, destination: nat, source: nat, length: nat)
    requires destination + length <= page.Length && source + length <= page.Length
    modifies page
    ensures page[..] == Write(old(page[..]), destination, old(page[..])[source..source + length])
  {
    var piece := page[source..source + length];
    for i := 0 to length
      invariant forall k :: 0 <= k < i ==> page[destination + k] == piece[k]
      invariant forall k :: 0 <= k < page.Length && !(destination <= k < destination + i) ==> page[k] == old(page[k])
    {
      page[destination + i] := piece[i];
    }
  }

  // ---- PlanCompaction ----

  /** Decodes the directory, empties DEAD slots and collects the NORMAL ones. */
  method CollectLive(b: Image, n: nat) returns (unsupported: Option<nat>, sources: seq<Slot>, planned: seq<Slot>, live: seq<nat>)
    requires n <= MAX_SLOTS && forall i :: 0 <= i < n ==> SlotAt(b, i).Some?
    ensures unsupported == Unsupported(Slots(b, n), 0)
    ensures unsupported == None ==> sources == Slots(b, n) && planned == Reclaimed(sources) && live == NormalUpTo(sources, n)
  {
    hide SlotAt;
    ghost var slots := Slots(b, n);
    sources, planned, live := [], [], [];
    for index := 0 to n
      invariant Unsupported(slots, 0) == Unsupported(slots, index)
      invariant sources == slots[..index] && planned == Reclaimed(sources) && live == NormalUpTo(slots, index)
    {
      var s := SlotAt(b, index).value;
      assert s == slots[index];
      match s.state {
        case Normal =>
          planned := planned + [s];
          live := live + [index];
        case Dead => planned := planned + [s.(offset := 0, length := 0)];
        case _ => return Some(index), sources, planned, live;
      }
      sources := sources + [s];
      assert sources == slots[..index + 1];
      ReclaimedPrefix(slots, index);
    }
    assert slots[..n] == slots;
    return None, sources, planned, live;
  }

  lemma ReclaimedPrefix(slots: seq<Slot>, n: nat)
    requires n < |slots|
    ensures Reclaimed(slots[..n + 1]) ==
      Reclaimed(slots[..n]) + [if slots[n].state == Dead then slots[n].(offset := 0, length := 0) else slots[n]]
  {}

  lemma PlannableUpper(slots: seq<Slot>, upper: u16)
    requires Plannable(slots, upper)
    ensures upper <= PAGE_SIZE
  {}

  /** Packs the live tuples against the page end; each moves towards it, as the source asserts. */
  method PackLive(sources: seq<Slot>, reclaimed: seq<Slot>, order: seq<nat>, ghost upper: u16) returns (planned: seq<Slot>, newUpper: nat)
    requires Plannable(sources, upper) && reclaimed == Reclaimed(sources) && order == LiveOrder(sources)
    ensures InPage(sources, order) && planned == Planned(sources, order) && newUpper == NewUpper(sources, order)
  {
    hide Plannable, LiveOrder, Descends, Reclaimed, Movable;
    PlannedPlannable(sources, upper);
    PlannableUpper(sources, upper);
    StaysInPage(sources, upper, order);
    planned, newUpper := reclaimed, PAGE_SIZE;
    for k := 0 to |order|
      invariant newUpper == Top(sources, order, k)
      invariant planned == PlannedUpTo(sources, order, k)
    {
      var id := order[k];
      TopAboveSource(sources, upper, order, k);
      newUpper := newUpper - sources[id].length;
      assert newUpper >= sources[id].offset;
      planned := planned[id := sources[id].(offset := newUpper)];
    }
  }

  // ---- ApplyCompaction ----

  /** Moves in descending source order, then the directory, then the header. */
  method ApplyCompaction(page: array<byte>, sources: seq<Slot>, planned: seq<Slot>, order: seq<nat>, header: HeapHeader, ghost upper: u16)
    requires page.Length == PAGE_SIZE && |sources| <= MAX_SLOTS
    requires Descends(sources, upper, order) && Movable(sources, order) && planned == Planned(sources, order)
    requires header == HeaderAt(page[..]).(upper := NewUpper(sources, order))
    modifies page
    ensures page[..] == Compacted(old(page[..]), sources, order)
  {
    hide Moved, Planned, SlotImage, HeaderImage, HeaderAt, NewUpper, Movable, Descends, Write;
    ghost var b: Image := page[..];
    MoveTuples(page, sources, planned, order, upper);
    ghost var moved: Image := page[..];
    for index := 0 to |planned|
      invariant page[..] == PutSlots(moved, planned, index)
    {
      var ok := EncodeHeapSlotEntry(page, SLOT_BASE + SLOT_SIZE * index, SLOT_SIZE, planned[index]);
    }
    var ok := EncodeHeapPageHeader(page, HEAP_HEADER_OFFSET, HEAP_HEADER_SIZE, header);
  }

  /** One move copies the tuple to its planned place; a tuple already there stays. */
  lemma NextMove(b: Image, sources: seq<Slot>, order: seq<nat>, upper: u16, k: nat)
    requires Descends(sources, upper, order) && Movable(sources, order) && k < |order|
    ensures InPage(sources, order)
    ensures var s, destination, p := sources[order[k]], Planned(sources, order)[order[k]].offset, Moved(b, sources, order, k);
      && destination + s.length <= PAGE_SIZE && End(s) <= PAGE_SIZE
      && Moved(b, sources, order, k + 1) == Write(p, destination, p[s.offset..s.offset + s.length])
      && (s.length == 0 || destination == s.offset ==> Moved(b, sources, order, k + 1) == p)
  {
    PlannedPlace(sources, upper, order, k);
    hide Planned, Descends;
    var s, p := sources[order[k]], Moved(b, sources, order, k);
    if s.length == 0 || Top(sources, order, k + 1) == s.offset { Overwritten(p, Top(sources, order, k + 1), Source(p, s)); }
  }

  method MoveTuples(page: array<byte>, sources: seq<Slot>, planned: seq<Slot>, order: seq<nat>, ghost upper: u16)
    requires page.Length == PAGE_SIZE && Descends(sources, upper, order) && Movable(sources, order) && planned == Planned(sources, order)
    modifies page
    ensures page[..] == Moved(old(page[..]), sources, order, |order|)
  {
    ghost var b: Image := page[..];
    hide Planned, Descends, Top;
    for k := 0 to |order|
      invariant page[..] == Moved(b, sources, order, k)
    {
      hide Moved;
      NextMove(b, sources, order, upper, k);
      var length, destination, source := sources[order[k]].length, planned[order[k]].offset, sources[order[k]].offset;
      if length > 0 && destination != source {
        Memmove(page, destination, source, length);
      }
    }
  }

  // ---- Insert's writes ----

  lemma AcceptedHeader(b: Image, pageNo: u64)
    requires CheckStructure(b, pageNo).Ok?
    ensures CheckStructure(b, pageNo).value == HeaderAt(b) && CheckGeometry(HeaderAt(b)) == None
  {
    hide CheckStructure;
    StructureIsExact(b, pageNo);
  }

  /** The tuple below upper, its slot at lower, then the header. */
  method WriteTuple(page: array<byte>, h: HeapHeader, tuple: seq<byte>)
    requires page.Length == PAGE_SIZE && h == HeaderAt(page[..]) && HasRoom(h, |tuple|)
    modifies page
    ensures page[..] == Inserted(old(page[..]), tuple)
  {
    hide SlotImage, HeaderImage, HeaderAt, Write;
    CopyBytes(page, h.upper - |tuple|, tuple);
    var slotEncoded := EncodeHeapSlotEntry(page, h.lower, SLOT_SIZE, NewSlot(h, |tuple|));
    var headerEncoded := EncodeHeapPageHeader(page, HEAP_HEADER_OFFSET, HEAP_HEADER_SIZE, NewHeader(h, |tuple|));
  }

  // ---- The controller ----

  /** A controller over one page buffer; it keeps no state of its own. */
  class HeapPage {
    const pageNo: u64
    const history: seq<Layout>
    const bytes: array<byte>

    predicate Valid() { bytes.Length == PAGE_SIZE && AllPacked(history) }

    ghost function Page(): Image
      requires Valid()
      reads bytes
    {
      bytes[..]
    }

    constructor (bytes: array<byte>, pageNo: u64, history: seq<Layout>)
      requires bytes.Length == PAGE_SIZE && AllPacked(history)
      ensures Valid() && this.bytes == bytes && this.pageNo == pageNo && this.history == history
    {
      this.bytes := bytes;
      this.pageNo := pageNo;
      this.history := history;
    }

    method Initialize(lsn: u64) returns (ok: bool)
      requires Valid()
      modifies bytes
      ensures ok <==> pageNo != 0 && pageNo != U64_MAX
      ensures Page() == if ok then Initialized(pageNo, lsn) else old(Page())
    {
      if pageNo == 0 || pageNo == U64_MAX {
        return false;
      }
      Fill(bytes);
      hide CommonImage, HeaderImage;
      CopyBytes(bytes, 0, CommonImage(InitialCommon(pageNo, lsn)));
      var encoded := EncodeHeapPageHeader(bytes, HEAP_HEADER_OFFSET, HEAP_HEADER_SIZE, EMPTY_HEADER);
      return true;
    }

    method Validate() returns (r: Result<PageHeaders, PageFailure>)
      requires Valid()
      ensures r == WithCommon(Page(), CheckPage(Page(), pageNo, history))
    {
      r := ValidateWith(bytes[..], pageNo, Some(history));
    }

    method ValidateStructure() returns (r: Result<PageHeaders, PageFailure>)
      requires Valid()
      ensures r == WithCommon(Page(), CheckStructure(Page(), pageNo))
    {
      r := ValidateWith(bytes[..], pageNo, None);
    }

    method Insert(tuple: seq<byte>) returns (r: Result<nat, InsertError>)
      requires Valid()
      modifies bytes
      ensures r == InsertOutcome(old(Page()), pageNo, history, tuple)
      ensures r.Ok? ==> HasRoom(HeaderAt(old(Page())), |tuple|)
      ensures Page() == if r.Ok? then Inserted(old(Page()), tuple) else old(Page())
    {
      hide CheckStructure, CheckStored, HeaderAt, Inserted;
      ghost var b := Page();
      var validation := ValidateStructure();
      if validation.Err? {
        return Err(PageInvalid(validation.error.code));
      }
      AcceptedHeader(b, pageNo);
      var h := validation.value.heap;
      if |tuple| > MAX_RAW_TUPLE_SIZE {
        return Err(TupleTooLarge);
      }
      if h.slotCount == U16_MAX {
        return Err(SlotIdExhausted);
      }
      var tupleError := CheckStored(tuple, history, pageNo, h.slotCount, h.slotCount + 1);
      if tupleError != None {
        return Err(TupleInvalid(tupleError.value.error));
      }
      if |tuple| + SLOT_SIZE > h.upper - h.lower {
        return Err(InsufficientSpace);
      }
      WriteTuple(bytes, h, tuple);
      return Ok(h.slotCount);
    }

    method MarkDead(i: nat) returns (error: Option<MarkDeadError>)
      requires Valid()
      modifies bytes
      ensures error == MarkDeadOutcome(old(Page()), pageNo, i)
      ensures error == None ==> i < MAX_SLOTS && SlotAt(old(Page()), i).Some?
      ensures Page() == if error == None then MarkedDead(old(Page()), i) else old(Page())
    {
      ghost var b := Page();
      var validation := ValidateStructure();
      hide CheckStructure, SlotAt, SlotImage;
      if validation.Err? {
        return Some(MarkPageInvalid(validation.error.code));
      }
      if i >= validation.value.heap.slotCount {
        return Some(SlotOutOfRange);
      }
      if i >= MAX_SLOTS {
        return Some(MarkPageInvalid(InvalidSlotState));
      }
      var decoded := SlotAt(bytes[..], i);
      if decoded == None {
        return Some(MarkPageInvalid(InvalidSlotState));
      }
      match decoded.value.state {
        case Normal =>
        case Dead => return Some(AlreadyDead);
        case _ => return Some(NotNormal);
      }
      var encoded := EncodeHeapSlotEntry(bytes, SLOT_BASE + SLOT_SIZE * i, SLOT_SIZE, decoded.value.(state := Dead));
      return None;
    }

    method Compact() returns (error: Option<CompactError>)
      requires Valid()
      modifies bytes
      ensures error == CompactOutcome(old(Page()), pageNo)
      ensures error == None ==>
        HeaderAt(old(Page())).slotCount <= MAX_SLOTS && Plannable(Directory(old(Page())), HeaderAt(old(Page())).upper)
      ensures Page() == if error == None then CompactedPage(old(Page())) else old(Page())
    {
      ghost var b := Page();
      var validation := ValidateStructure();
      if validation.Err? {
        return Some(CompactPageInvalid(validation.error.code));
      }
      StructureIsExact(b, pageNo);
      SoundSlots(b, pageNo);
      hide CheckStructure, HeaderAt, Sound, Plannable, SlotAt, Compactable, Planned, LiveOrder, Moved;
      var h := validation.value.heap;
      var unsupported, sources, reclaimed, live := CollectLive(bytes[..], h.slotCount);
      if unsupported != None {
        return Some(UnsupportedSlotState(unsupported.value));
      }
      AcceptedIsPlannable(b, pageNo);
      PlannedPlannable(sources, h.upper);
      var order := SortLive(sources, live);
      var planned, newUpper := PackLive(sources, reclaimed, order, h.upper);
      ApplyCompaction(bytes, sources, planned, order, h.(upper := newUpper), h.upper);
      return None;
    }

    method TupleBytes(i: nat) returns (r: Option<seq<byte>>)
      requires Valid()
      ensures r == StoredBytes(Page(), pageNo, i)
    {
      var validation := ValidateStructure();
      hide CheckStructure, SlotAt;
      if validation.Err? || i >= validation.value.heap.slotCount || i >= MAX_SLOTS {
        return None;
      }
      var decoded := SlotAt(bytes[..], i);
      if decoded == None || decoded.value.state != Normal || End(decoded.value) > PAGE_SIZE {
        return None;
      }
      return Some(Source(bytes[..], decoded.value));
    }
  }

  method SortLive(sources: seq<Slot>, live: seq<nat>) returns (order: seq<nat>)
    requires live == NormalUpTo(sources, |sources|)
    ensures order == LiveOrder(sources)
  {
    order := Sort(BySource(sources), live);
  }

  method Fill(page: array<byte>)
    modifies page
    ensures page[..] == Zeros(page.Length)
  {
    for i := 0 to page.Length
      invariant forall k :: 0 <= k < i ==> page[k] == 0
    {
      page[i] := 0;
    }
  }
}
