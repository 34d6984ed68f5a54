/**
 * The heap page controller (src/storage/heap/heap_page.cpp): its operations on the page bytes, and
 * the append-only list with tombstones that they refine.
 */
module HeapPages {
  import opened Basics
  import opened Bytes
  import opened PageChecksum
  import opened TupleLayouts
  import opened HeapFormat
  import opened HeapStructure
  import opened HeapCompaction
  import opened HeapCompacted
  import opened HeapValidator

  // ---- What each operation does to the page bytes ----

  datatype InsertError = PageInvalid(page: PageError) | TupleTooLarge | TupleInvalid(tuple: PageError) | InsufficientSpace | SlotIdExhausted

  function InsertOutcome(b: Image, pageNo: u64, history: seq<Layout>, tuple: seq<byte>): Result<nat, InsertError>
    requires AllPacked(history)
  {
    match CheckStructure(b, pageNo)
    case Err(failure) => Err(PageInvalid(failure.code))
    case Ok(h) =>
      if |tuple| > MAX_RAW_TUPLE_SIZE then Err(TupleTooLarge)
      else if h.slotCount == U16_MAX then Err(SlotIdExhausted)
      else match CheckStored(tuple, history, pageNo, h.slotCount, h.slotCount + 1)
        case Some(check) => Err(TupleInvalid(check.error))
        case None => if |tuple| + SLOT_SIZE > h.upper - h.lower then Err(InsufficientSpace) else Ok(h.slotCount)
  }

  predicate HasRoom(h: HeapHeader, size: nat)
  {
    CheckGeometry(h) == None && size + SLOT_SIZE <= h.upper - h.lower
  }

  function NewSlot(h: HeapHeader, size: nat): Slot
    requires HasRoom(h, size)
  {
    Slot(h.upper - size, size, Normal, 0)
  }

  function NewHeader(h: HeapHeader, size: nat): HeapHeader
    requires HasRoom(h, size)
  {
    h.(slotCount := h.slotCount + 1, lower := h.lower + SLOT_SIZE, upper := h.upper - size)
  }

  function Inserted(b: Image, tuple: seq<byte>): Image
    requires HasRoom(HeaderAt(b), |tuple|)
  {
    var h := HeaderAt(b);
    PutHeader(PutSlot(Write(b, h.upper - |tuple|, tuple), h.slotCount, NewSlot(h, |tuple|)), NewHeader(h, |tuple|))
  }

  datatype MarkDeadError = MarkPageInvalid(page: PageError) | SlotOutOfRange | NotNormal | AlreadyDead

  function MarkDeadOutcome(b: Image, pageNo: u64, i: nat): Option<MarkDeadError>
  {
    match CheckStructure(b, pageNo)
    case Err(failure) => Some(MarkPageInvalid(failure.code))
    case Ok(h) =>
      if i >= h.slotCount then Some(SlotOutOfRange)
      else if i >= MAX_SLOTS || SlotAt(b, i) == None then Some(MarkPageInvalid(InvalidSlotState))
      else match SlotAt(b, i).value.state
        case Normal => None
        case Dead => Some(AlreadyDead)
        case _ => Some(NotNormal)
  }

  function MarkedDead(b: Image, i: nat): Image
    requires i < MAX_SLOTS && SlotAt(b, i).Some?
  {
    PutSlot(b, i, SlotAt(b, i).value.(state := Dead))
  }

  function StoredBytes(b: Image, pageNo: u64, i: nat): Option<seq<byte>>
  {
    match CheckStructure(b, pageNo)
    case Err(_) => None
    case Ok(h) =>
      if i >= h.slotCount || i >= MAX_SLOTS then None
      else match SlotAt(b, i)
        case Some(s) => if s.state == Normal && End(s) <= PAGE_SIZE then Some(Source(b, s)) else None
        case None => None
  }

  // ---- Insert keeps the page ----

  lemma InsertedElsewhere(b: Image, tuple: seq<byte>, x: nat)
    requires HasRoom(HeaderAt(b), |tuple|) && x < PAGE_SIZE
    requires !(HEAP_HEADER_OFFSET <= x < SLOT_BASE) && !(HeaderAt(b).lower <= x < HeaderAt(b).lower + SLOT_SIZE)
    requires !(HeaderAt(b).upper - |tuple| <= x < HeaderAt(b).upper)
    ensures Inserted(b, tuple)[x] == b[x]
  {
    hide HeaderImage, SlotImage;
  }

  lemma InsertedTuple(b: Image, tuple: seq<byte>)
    requires HasRoom(HeaderAt(b), |tuple|)
    ensures Source(Inserted(b, tuple), NewSlot(HeaderAt(b), |tuple|)) == tuple
  {
    hide HeaderImage, SlotImage, HeaderAt;
    var h := HeaderAt(b);
    forall x | h.upper - |tuple| <= x < h.upper ensures Inserted(b, tuple)[x] == tuple[x - (h.upper - |tuple|)] {}
  }

  lemma InsertedReads(b: Image, tuple: seq<byte>, i: nat)
    requires HasRoom(HeaderAt(b), |tuple|) && i < MAX_SLOTS
    ensures HeaderAt(Inserted(b, tuple)) == NewHeader(HeaderAt(b), |tuple|) && CommonAt(Inserted(b, tuple)) == CommonAt(b)
    ensures i < HeaderAt(b).slotCount ==> SlotAt(Inserted(b, tuple), i) == SlotAt(b, i)
    ensures HeaderAt(b).slotCount < MAX_SLOTS && SlotAt(Inserted(b, tuple), HeaderAt(b).slotCount) == Some(NewSlot(HeaderAt(b), |tuple|))
  {
    hide HeaderImage, SlotImage, HeaderAt, SlotAt, CommonAt, Inserted;
    var h, r := HeaderAt(b), Inserted(b, tuple);
    var page := Write(b, h.upper - |tuple|, tuple);
    HeaderOfInserted(b, tuple);
    forall x | 0 <= x < COMMON_HEADER_SIZE ensures r[x] == b[x] { InsertedElsewhere(b, tuple, x); }
    SameCommon(r, b);
    SlotOfInserted(b, tuple);
    if i < h.slotCount {
      forall x | SLOT_BASE + SLOT_SIZE * i <= x < SLOT_BASE + SLOT_SIZE * i + SLOT_SIZE ensures r[x] == b[x] {
        InsertedElsewhere(b, tuple, x);
      }
      SameSlot(r, b, i);
    }
  }

  lemma HeaderOfInserted(b: Image, tuple: seq<byte>)
    requires HasRoom(HeaderAt(b), |tuple|)
    ensures HeaderAt(Inserted(b, tuple)) == NewHeader(HeaderAt(b), |tuple|)
  {
    hide HeaderImage, SlotImage, HeaderAt;
    var h := HeaderAt(b);
    HeaderReadsBack(PutSlot(Write(b, h.upper - |tuple|, tuple), h.slotCount, NewSlot(h, |tuple|)), NewHeader(h, |tuple|));
  }

  lemma SlotOfInserted(b: Image, tuple: seq<byte>)
    requires HasRoom(HeaderAt(b), |tuple|)
    ensures HeaderAt(b).slotCount < MAX_SLOTS && SlotAt(Inserted(b, tuple), HeaderAt(b).slotCount) == Some(NewSlot(HeaderAt(b), |tuple|))
  {
    hide HeaderImage, SlotImage, HeaderAt, SlotAt;
    var h := HeaderAt(b);
    var page := PutSlot(Write(b, h.upper - |tuple|, tuple), h.slotCount, NewSlot(h, |tuple|));
    SlotReadsBack(Write(b, h.upper - |tuple|, tuple), h.slotCount, NewSlot(h, |tuple|));
    SameSlot(Inserted(b, tuple), page, h.slotCount);
  }

  // ---- The list with tombstones ----

  datatype Item = Live(tuple: seq<byte>) | Tombstone

  /** Full validation succeeds and no slot is UNUSED or reserved: what Initialize and the operations produce. */
  ghost predicate Good(b: Image, pageNo: u64, history: seq<Layout>)
  {
    && AllPacked(history) && Compactable(b, pageNo) && HeaderAt(b).slotCount <= MAX_SLOTS
    && forall i :: 0 <= i < HeaderAt(b).slotCount ==>
         StoredOk(b, Directory(b)[i], history, pageNo, i, HeaderAt(b).slotCount)
  }

  function ItemAt(b: Image, s: Slot): Item
  {
    if s.state == Normal && End(s) <= PAGE_SIZE then Live(Source(b, s)) else Tombstone
  }

  /** The slots in order: slot ids are positions. */
  function View(b: Image): (items: seq<Item>)
    requires HeaderAt(b).slotCount <= MAX_SLOTS
    ensures |items| == HeaderAt(b).slotCount
  {
    seq(HeaderAt(b).slotCount, i requires 0 <= i < HeaderAt(b).slotCount => ItemAt(b, Directory(b)[i]))
  }

  /** Full validation succeeds on a good page. */
  lemma GoodValidates(b: Image, pageNo: u64, history: seq<Layout>)
    requires Good(b, pageNo, history)
    ensures CheckStructure(b, pageNo) == Ok(HeaderAt(b)) && CheckPage(b, pageNo, history) == Ok(HeaderAt(b))
  {
    hide CheckStructure, CheckPage, HeaderAt, SlotAt, Slots, StoredOk, Sound;
    StructureIsExact(b, pageNo);
    PageCheckIsExact(b, pageNo, history);
    var n := HeaderAt(b).slotCount;
    forall i | 0 <= i < n ensures StoredOk(b, Slots(b, n)[i], history, pageNo, i, n) {
      assert Directory(b)[i] == Slots(b, n)[i];
    }
  }

  /** A page is good once its headers, its directory and its stored tuples are. */
  lemma GoodFrom(r: Image, pageNo: u64, history: seq<Layout>, slots: seq<Slot>)
    requires AllPacked(history) && CheckCommon(CommonAt(r), pageNo) == None && CheckGeometry(HeaderAt(r)) == None
    requires |slots| == HeaderAt(r).slotCount <= MAX_SLOTS && HeaderAt(r).freeHead == INVALID_SLOT
    requires forall i :: 0 <= i < |slots| ==> SlotAt(r, i) == Some(slots[i])
    requires Plannable(slots, HeaderAt(r).upper)
    requires forall i :: 0 <= i < |slots| ==> StoredOk(r, slots[i], history, pageNo, i, |slots|)
    ensures Good(r, pageNo, history) && Directory(r) == slots
  {
    hide SlotAt, HeaderAt, CommonAt, CheckCommon, CheckGeometry, Plannable, StoredOk, Compactable;
    CompactableFrom(r, pageNo, slots);
  }

  /** What the good page gives each operation. */
  lemma GoodParts(b: Image, pageNo: u64, history: seq<Layout>)
    requires Good(b, pageNo, history)
    ensures AllPacked(history)
    ensures CheckCommon(CommonAt(b), pageNo) == None && CheckGeometry(HeaderAt(b)) == None && HeaderAt(b).freeHead == INVALID_SLOT
    ensures HeaderAt(b).slotCount <= MAX_SLOTS && Plannable(Directory(b), HeaderAt(b).upper)
    ensures HeaderAt(b).lower == SLOT_BASE + SLOT_SIZE * HeaderAt(b).slotCount <= HeaderAt(b).upper <= PAGE_SIZE
    ensures forall i :: 0 <= i < |Directory(b)| ==> SlotAt(b, i) == Some(Directory(b)[i])
    ensures CheckStructure(b, pageNo) == Ok(HeaderAt(b))
  {
    hide SlotAt, HeaderAt, CommonAt, CheckCommon, Plannable, StoredOk, Compactable, CheckStructure;
    CompactableParts(b, pageNo);
    DirectoryPlannable(b, pageNo);
    GoodValidates(b, pageNo, history);
  }

  lemma GoodStored(b: Image, pageNo: u64, history: seq<Layout>, i: nat)
    requires Good(b, pageNo, history) && i < HeaderAt(b).slotCount
    ensures StoredOk(b, Directory(b)[i], history, pageNo, i, HeaderAt(b).slotCount)
  {
    hide SlotAt, HeaderAt, StoredOk, Compactable;
  }

  /** Retained ranges lie above the directory, so writes below upper leave them alone. */
  lemma SameStored(a: Image, b: Image, s: Slot, history: seq<Layout>, pageNo: u64, i: nat, count: nat, more: nat)
    requires AllPacked(history) && StoredOk(b, s, history, pageNo, i, count) && count <= more
    requires Retains(s) ==> forall x :: s.offset <= x < End(s) && x < PAGE_SIZE ==> a[x] == b[x]
    ensures StoredOk(a, s, history, pageNo, i, more)
  {
    if Retains(s) {
      assert Source(a, s) == Source(b, s);
      CheckStoredGrows(Source(b, s), history, pageNo, i, count, more);
    }
    hide CheckStored;
  }

  lemma PlannableAppend(slots: seq<Slot>, upper: u16, s: Slot)
    requires Plannable(slots, upper) && |slots| < MAX_SLOTS && s.state == Normal && s.aux == 0 && 0 < s.length && End(s) == upper
    ensures Plannable(slots + [s], s.offset)
  {
    var more := slots + [s];
    forall i | 0 <= i < |slots| ensures CheckSlot(slots[i], s.offset) == None && (Retains(slots[i]) ==> upper <= slots[i].offset) {
      assert CheckSlot(slots[i], upper) == None;
    }
    forall i, j | 0 <= i < j < |more| && Retains(more[i]) && Retains(more[j]) ensures Apart(more[i], more[j]) {
      if j < |slots| { assert Apart(slots[i], slots[j]); } else { assert upper <= slots[i].offset; }
    }
  }

  /** Insert appends one live item; its slot id is the number of slots before. */
  lemma InsertAppends(b: Image, pageNo: u64, history: seq<Layout>, tuple: seq<byte>)
    requires Good(b, pageNo, history) && InsertOutcome(b, pageNo, history, tuple).Ok?
    ensures HeaderAt(b).slotCount <= MAX_SLOTS && HasRoom(HeaderAt(b), |tuple|)
    ensures InsertOutcome(b, pageNo, history, tuple).value == |View(b)|
    ensures Good(Inserted(b, tuple), pageNo, history) && View(Inserted(b, tuple)) == View(b) + [Live(tuple)]
  {
    hide SlotAt, HeaderAt, CommonAt, CheckCommon, Plannable, StoredOk, Compactable, CheckStructure, CheckStored, Inserted, Good;
    GoodParts(b, pageNo, history);
    var h, r, n := HeaderAt(b), Inserted(b, tuple), HeaderAt(b).slotCount;
    CheckStoredGrows(tuple, history, pageNo, n, n + 1, n + 1);
    var s := NewSlot(h, |tuple|);
    InsertedReads(b, tuple, 0);
    InsertedTuple(b, tuple);
    PlannableAppend(Directory(b), h.upper, s);
    var slots := Directory(b) + [s];
    forall i | 0 <= i < n + 1
      ensures SlotAt(r, i) == Some(slots[i]) && StoredOk(r, slots[i], history, pageNo, i, n + 1)
      ensures i < n ==> ItemAt(r, slots[i]) == ItemAt(b, slots[i])
    {
      InsertedReads(b, tuple, i);
      if i < n { InsertedKeepsSlot(b, pageNo, history, tuple, i); } else { NewStored(r, s, tuple, history, pageNo, n); }
    }
    GoodFrom(r, pageNo, history, slots);
    assert ItemAt(r, s) == Live(tuple);
    assert View(r) == View(b) + [Live(tuple)];
  }

  lemma NewStored(r: Image, s: Slot, tuple: seq<byte>, history: seq<Layout>, pageNo: u64, n: nat)
    requires AllPacked(history) && End(s) <= PAGE_SIZE && Source(r, s) == tuple && CheckStored(tuple, history, pageNo, n, n + 1) == None
    ensures StoredOk(r, s, history, pageNo, n, n + 1)
  {
    hide CheckStored;
  }

  lemma InsertedKeepsSlot(b: Image, pageNo: u64, history: seq<Layout>, tuple: seq<byte>, i: nat)
    requires Good(b, pageNo, history) && HasRoom(HeaderAt(b), |tuple|) && i < HeaderAt(b).slotCount
    ensures AllPacked(history) && i < |Directory(b)|
    ensures StoredOk(Inserted(b, tuple), Directory(b)[i], history, pageNo, i, HeaderAt(b).slotCount + 1)
    ensures ItemAt(Inserted(b, tuple), Directory(b)[i]) == ItemAt(b, Directory(b)[i])
  {
    hide SlotAt, HeaderAt, CommonAt, CheckCommon, StoredOk, Compactable, CheckStructure, CheckStored, Inserted, PairwiseDisjoint;
    GoodParts(b, pageNo, history);
    GoodStored(b, pageNo, history, i);
    var s, r, h := Directory(b)[i], Inserted(b, tuple), HeaderAt(b);
    assert CheckSlot(s, h.upper) == None;
    forall x | s.offset <= x < End(s) && x < PAGE_SIZE && Retains(s) ensures r[x] == b[x] { InsertedElsewhere(b, tuple, x); }
    SameStored(r, b, s, history, pageNo, i, h.slotCount, h.slotCount + 1);
    if s.state == Normal { assert Source(r, s) == Source(b, s); }
  }

  // ---- MarkDead turns one live item into a tombstone ----

  lemma MarkedDeadReads(b: Image, i: nat, j: nat)
    requires i < MAX_SLOTS && j < MAX_SLOTS && SlotAt(b, i).Some?
    ensures HeaderAt(MarkedDead(b, i)) == HeaderAt(b) && CommonAt(MarkedDead(b, i)) == CommonAt(b)
    ensures SlotAt(MarkedDead(b, i), j) == if j == i then Some(SlotAt(b, i).value.(state := Dead)) else SlotAt(b, j)
    ensures forall x :: SLOT_BASE + SLOT_SIZE * i + SLOT_SIZE <= x < PAGE_SIZE ==> MarkedDead(b, i)[x] == b[x]
  {
    hide SlotAt, HeaderAt, CommonAt, SlotImage;
    SameHeader(MarkedDead(b, i), b);
    SameCommon(MarkedDead(b, i), b);
    if j == i { SlotReadsBack(b, i, SlotAt(b, i).value.(state := Dead)); } else { OtherSlot(b, i, SlotAt(b, i).value.(state := Dead), j); }
  }

  lemma PlannableDead(slots: seq<Slot>, upper: u16, i: nat)
    requires Plannable(slots, upper) && i < |slots| && slots[i].state == Normal && 0 < upper
    ensures Plannable(slots[i := slots[i].(state := Dead)], upper)
  {
    var r := slots[i := slots[i].(state := Dead)];
    assert CheckSlot(slots[i], upper) == None;
    forall j, k | 0 <= j < k < |r| && Retains(r[j]) && Retains(r[k]) ensures Apart(r[j], r[k]) {
      assert Apart(slots[j], slots[k]);
    }
    forall j | 0 <= j < |r| ensures CheckSlot(r[j], upper) == None { assert CheckSlot(slots[j], upper) == None; }
  }

  lemma MarkDeadBuries(b: Image, pageNo: u64, history: seq<Layout>, i: nat)
    requires Good(b, pageNo, history) && MarkDeadOutcome(b, pageNo, i) == None
    ensures HeaderAt(b).slotCount <= MAX_SLOTS && i < |View(b)| && View(b)[i].Live? && i < MAX_SLOTS && SlotAt(b, i).Some?
    ensures Good(MarkedDead(b, i), pageNo, history) && View(MarkedDead(b, i)) == View(b)[i := Tombstone]
  {
    hide SlotAt, HeaderAt, CommonAt, CheckCommon, Plannable, StoredOk, Compactable, CheckStructure, MarkedDead, Good;
    GoodParts(b, pageNo, history);
    var h, r := HeaderAt(b), MarkedDead(b, i);
    var slots := Directory(b)[i := Directory(b)[i].(state := Dead)];
    MarkedDeadReads(b, i, 0);
    PlannableDead(Directory(b), h.upper, i);
    forall j | 0 <= j < |slots|
      ensures SlotAt(r, j) == Some(slots[j]) && StoredOk(r, slots[j], history, pageNo, j, |slots|)
      ensures ItemAt(r, slots[j]) == if j == i then Tombstone else ItemAt(b, slots[j])
    {
      MarkedDeadReads(b, i, j);
      MarkedDeadStored(b, pageNo, history, i, j);
    }
    GoodFrom(r, pageNo, history, slots);
    LiveInBounds(Directory(b), h.upper, i);
    assert View(r) == View(b)[i := Tombstone];
  }

  lemma LiveInBounds(slots: seq<Slot>, upper: u16, i: nat)
    requires Plannable(slots, upper) && i < |slots| && slots[i].state == Normal
    ensures End(slots[i]) <= PAGE_SIZE && upper <= slots[i].offset
  {
    assert CheckSlot(slots[i], upper) == None;
  }

  lemma RetainedInBounds(slots: seq<Slot>, upper: u16, i: nat)
    requires Plannable(slots, upper) && i < |slots| && Retains(slots[i])
    ensures End(slots[i]) <= PAGE_SIZE && upper <= slots[i].offset
  {
    assert CheckSlot(slots[i], upper) == None;
  }

  lemma MarkedDeadStored(b: Image, pageNo: u64, history: seq<Layout>, i: nat, j: nat)
    requires Good(b, pageNo, history) && i < HeaderAt(b).slotCount <= MAX_SLOTS && j < HeaderAt(b).slotCount && SlotAt(b, i).Some?
    ensures AllPacked(history)
    ensures var s := Directory(b)[j];
      && StoredOk(MarkedDead(b, i), if j == i then s.(state := Dead) else s, history, pageNo, j, HeaderAt(b).slotCount)
      && ItemAt(MarkedDead(b, i), s) == ItemAt(b, s)
  {
    hide SlotAt, HeaderAt, CommonAt, CheckCommon, StoredOk, Compactable, CheckStructure, MarkedDead, Good, Plannable;
    GoodParts(b, pageNo, history);
    GoodStored(b, pageNo, history, j);
    var s, r, h := Directory(b)[j], MarkedDead(b, i), HeaderAt(b);
    MarkedDeadReads(b, i, 0);
    if Retains(s) { RetainedInBounds(Directory(b), h.upper, j); }
    SameStored(r, b, s, history, pageNo, j, h.slotCount, h.slotCount);
    PlannableState(Directory(b), h.upper, j);
    SameDeadStored(r, s, history, pageNo, j, h.slotCount);
    if s.state == Normal {
      LiveInBounds(Directory(b), h.upper, j);
      assert Source(r, s) == Source(b, s);
    }
  }

  lemma SameDeadStored(r: Image, s: Slot, history: seq<Layout>, pageNo: u64, i: nat, count: nat)
    requires AllPacked(history) && StoredOk(r, s, history, pageNo, i, count) && s.state in {Normal, Dead}
    ensures StoredOk(r, s.(state := Dead), history, pageNo, i, count)
  {
    hide CheckStored;
  }

  // ---- Compact changes no item ----

  lemma CompactChangesNothing(b: Image, pageNo: u64, history: seq<Layout>)
    requires Good(b, pageNo, history)
    ensures HeaderAt(b).slotCount <= MAX_SLOTS && Plannable(Directory(b), HeaderAt(b).upper)
    ensures Good(CompactedPage(b), pageNo, history) && View(CompactedPage(b)) == View(b)
  {
    hide SlotAt, HeaderAt, CommonAt, CheckCommon, Plannable, StoredOk, Compactable, CheckStructure, CompactedPage, Planned;
    GoodParts(b, pageNo, history);
    CompactedReads(b, pageNo);
    CompactionKeepsSound(b, pageNo);
    var r, n := CompactedPage(b), HeaderAt(b).slotCount;
    forall i | 0 <= i < n
      ensures StoredOk(r, Directory(r)[i], history, pageNo, i, n) && ItemAt(r, Directory(r)[i]) == ItemAt(b, Directory(b)[i])
    {
      CompactedItem(b, pageNo, history, i);
    }
    assert View(r) == View(b);
  }

  lemma CompactedItem(b: Image, pageNo: u64, history: seq<Layout>, i: nat)
    requires Good(b, pageNo, history) && i < HeaderAt(b).slotCount <= MAX_SLOTS && Plannable(Directory(b), HeaderAt(b).upper)
    ensures var r, n := CompactedPage(b), HeaderAt(b).slotCount;
      && HeaderAt(r).slotCount == n && AllPacked(history)
      && StoredOk(r, Directory(r)[i], history, pageNo, i, n) && ItemAt(r, Directory(r)[i]) == ItemAt(b, Directory(b)[i])
  {
    hide SlotAt, HeaderAt, CommonAt, CheckCommon, Plannable, Compactable, CheckStructure, CompactedPage, Planned, CheckStored, LiveOrder;
    GoodParts(b, pageNo, history);
    CompactedReads(b, pageNo);
    GoodStored(b, pageNo, history, i);
    var slots, order := Directory(b), LiveOrder(Directory(b));
    PlannedPlannable(slots, HeaderAt(b).upper);
    PlannedCases(slots, HeaderAt(b).upper, order, i);
    PlannableState(slots, HeaderAt(b).upper, i);
    if slots[i].state == Normal {
      CompactionKeepsTuple(b, pageNo, i);
      LiveInBounds(slots, HeaderAt(b).upper, i);
    }
  }

  // ---- Initialize ----

  function InitialCommon(pageNo: u64, lsn: u64): CommonHeader { CommonHeader(HEAP_DATA, 1, 0, lsn, 0, SLOT_BASE, 0, pageNo) }

  const EMPTY_HEADER: HeapHeader := HeapHeader(0, U16_MAX, SLOT_BASE, PAGE_SIZE, 0, 0)

  function Initialized(pageNo: u64, lsn: u64): Image
  {
    PutHeader(PutCommon(Zeros(PAGE_SIZE), InitialCommon(pageNo, lsn)), EMPTY_HEADER)
  }

  /** A fresh page is valid and empty. */
  lemma InitializeIsEmpty(pageNo: u64, lsn: u64, history: seq<Layout>)
    requires AllPacked(history) && pageNo != 0 && pageNo != U64_MAX
    ensures Good(Initialized(pageNo, lsn), pageNo, history)
    ensures HeaderAt(Initialized(pageNo, lsn)) == EMPTY_HEADER && View(Initialized(pageNo, lsn)) == []
  {
    hide HeaderAt, CommonAt, SlotAt, HeaderImage, CommonImage;
    var page := PutCommon(Zeros(PAGE_SIZE), InitialCommon(pageNo, lsn));
    HeaderReadsBack(page, EMPTY_HEADER);
    CommonReadsBack(Zeros(PAGE_SIZE), InitialCommon(pageNo, lsn));
    SameCommon(Initialized(pageNo, lsn), page);
    hide Initialized, StoredOk;
    GoodFrom(Initialized(pageNo, lsn), pageNo, history, []);
  }

  // ---- Runs ----

  datatype Op = Insert(tuple: seq<byte>) | MarkDead(slot: nat) | Compact

  /** One operation: a rejected one changes no byte. */
  function Run1(b: Image, pageNo: u64, history: seq<Layout>, op: Op): Image
    requires AllPacked(history)
  {
    match op
    case Insert(tuple) =>
      if InsertOutcome(b, pageNo, history, tuple).Ok? && HasRoom(HeaderAt(b), |tuple|) then Inserted(b, tuple) else b
    case MarkDead(i) => if MarkDeadOutcome(b, pageNo, i) == None then MarkedDead(b, i) else b
    case Compact =>
      if CheckStructure(b, pageNo).Ok? && HeaderAt(b).slotCount <= MAX_SLOTS && Plannable(Directory(b), HeaderAt(b).upper)
      then CompactedPage(b) else b
  }

  function RunAll(b: Image, pageNo: u64, history: seq<Layout>, ops: seq<Op>): Image
    requires AllPacked(history)
    decreases |ops|
  {
    if |ops| == 0 then b else RunAll(Run1(b, pageNo, history, ops[0]), pageNo, history, ops[1..])
  }

  /** Later views keep every item or bury it, and only append. */
  predicate Extends(before: seq<Item>, after: seq<Item>)
  {
    |before| <= |after| && forall i :: 0 <= i < |before| ==> after[i] == before[i] || after[i] == Tombstone
  }

  /** The abstract list after one operation, given whether the page accepted it. */
  function ListStep(items: seq<Item>, op: Op, accepted: bool): seq<Item>
  {
    match op
    case Insert(tuple) => if accepted then items + [Live(tuple)] else items
    case MarkDead(i) => if accepted && i < |items| then items[i := Tombstone] else items
    case Compact => items
  }

  predicate Accepts(b: Image, pageNo: u64, history: seq<Layout>, op: Op)
    requires AllPacked(history)
  {
    match op
    case Insert(tuple) => InsertOutcome(b, pageNo, history, tuple).Ok?
    case MarkDead(i) => MarkDeadOutcome(b, pageNo, i) == None
    case Compact => true
  }

  /** MarkDead is accepted exactly for the live positions of the list. */
  lemma MarkDeadAcceptsLive(b: Image, pageNo: u64, history: seq<Layout>, i: nat)
    requires Good(b, pageNo, history)
    ensures HeaderAt(b).slotCount <= MAX_SLOTS
    ensures MarkDeadOutcome(b, pageNo, i) ==
      if i >= |View(b)| then Some(SlotOutOfRange) else if View(b)[i].Live? then None else Some(AlreadyDead)
  {
    hide SlotAt, HeaderAt, CommonAt, CheckCommon, Plannable, StoredOk, Compactable, CheckStructure, Good;
    GoodParts(b, pageNo, history);
    if i < |View(b)| {
      PlannableState(Directory(b), HeaderAt(b).upper, i);
      if Directory(b)[i].state == Normal { LiveInBounds(Directory(b), HeaderAt(b).upper, i); }
    }
  }

  /** One operation on a good page is one step of the list. */
  lemma StepRefines(b: Image, pageNo: u64, history: seq<Layout>, op: Op)
    requires Good(b, pageNo, history)
    ensures AllPacked(history) && HeaderAt(b).slotCount <= MAX_SLOTS
    ensures var r := Run1(b, pageNo, history, op);
      Good(r, pageNo, history) && HeaderAt(r).slotCount <= MAX_SLOTS && View(r) == ListStep(View(b), op, Accepts(b, pageNo, history, op))
    ensures op.Compact? ==> Plannable(Directory(b), HeaderAt(b).upper) && Run1(b, pageNo, history, op) == CompactedPage(b)
  {
    hide SlotAt, HeaderAt, CommonAt, CheckCommon, Plannable, StoredOk, Compactable, CheckStructure, CompactedPage, Inserted, MarkedDead,
         InsertOutcome, MarkDeadOutcome, Good;
    GoodParts(b, pageNo, history);
    match op {
      case Insert(tuple) => if InsertOutcome(b, pageNo, history, tuple).Ok? { InsertAppends(b, pageNo, history, tuple); }
      case MarkDead(i) => if MarkDeadOutcome(b, pageNo, i) == None { MarkDeadBuries(b, pageNo, history, i); }
      case Compact => CompactChangesNothing(b, pageNo, history);
    }
    GoodParts(Run1(b, pageNo, history, op), pageNo, history);
  }

  lemma ListStepExtends(items: seq<Item>, op: Op, accepted: bool)
    ensures Extends(items, ListStep(items, op, accepted))
  {}

  /** TupleBytes reads the list: the live tuple at the slot, and nothing for a tombstone or past the end. */
  lemma TupleBytesReadsList(b: Image, pageNo: u64, history: seq<Layout>, i: nat)
    requires Good(b, pageNo, history)
    ensures HeaderAt(b).slotCount <= MAX_SLOTS
    ensures StoredBytes(b, pageNo, i) == if i < |View(b)| && View(b)[i].Live? then Some(View(b)[i].tuple) else None
  {
    hide SlotAt, HeaderAt, CommonAt, CheckCommon, StoredOk, Compactable, CheckStructure, Good, Plannable;
    GoodParts(b, pageNo, history);
  }

  /** Which operations of a run the page accepts. */
  function Outcomes(b: Image, pageNo: u64, history: seq<Layout>, ops: seq<Op>): (accepted: seq<bool>)
    requires AllPacked(history)
    ensures |accepted| == |ops|
    decreases |ops|
  {
    if |ops| == 0 then []
    else [Accepts(b, pageNo, history, ops[0])] + Outcomes(Run1(b, pageNo, history, ops[0]), pageNo, history, ops[1..])
  }

  /** The list after a run. */
  function ListRun(items: seq<Item>, ops: seq<Op>, accepted: seq<bool>): seq<Item>
    requires |accepted| == |ops|
    decreases |ops|
  {
    if |ops| == 0 then items else ListRun(ListStep(items, ops[0], accepted[0]), ops[1..], accepted[1..])
  }

  /**
   * Over every run full validation keeps succeeding, and the page is the list after the same
   * operations: accepted inserts append in order, accepted MarkDeads bury, Compact changes nothing.
   */
  lemma {:induction false} RunsRefine(b: Image, pageNo: u64, history: seq<Layout>, ops: seq<Op>)
    requires Good(b, pageNo, history)
    ensures AllPacked(history) && HeaderAt(b).slotCount <= MAX_SLOTS
    ensures var r := RunAll(b, pageNo, history, ops);
      && Good(r, pageNo, history) && CheckPage(r, pageNo, history).Ok? && HeaderAt(r).slotCount <= MAX_SLOTS
      && View(r) == ListRun(View(b), ops, Outcomes(b, pageNo, history, ops))
      && Extends(View(b), View(r))
    decreases |ops|
  {
    hide SlotAt, HeaderAt, CommonAt, CheckPage, Good, View, Run1, ListStep, Accepts;
    GoodParts(b, pageNo, history);
    if |ops| == 0 {
      GoodValidates(b, pageNo, history);
    } else {
      StepRefines(b, pageNo, history, ops[0]);
      ListStepExtends(View(b), ops[0], Accepts(b, pageNo, history, ops[0]));
      RunsRefine(Run1(b, pageNo, history, ops[0]), pageNo, history, ops[1..]);
      assert Outcomes(b, pageNo, history, ops)[1..] == Outcomes(Run1(b, pageNo, history, ops[0]), pageNo, history, ops[1..]);
    }
  }

  /** A slot id never changes meaning: over a run a live item stays itself exactly until a MarkDead names it. */
  lemma {:induction false} LiveUntilMarkedDead(b: Image, pageNo: u64, history: seq<Layout>, ops: seq<Op>, i: nat)
    requires Good(b, pageNo, history)
    requires HeaderAt(b).slotCount <= MAX_SLOTS && i < |View(b)| && View(b)[i].Live?
    ensures AllPacked(history)
    ensures var r := RunAll(b, pageNo, history, ops);
      && Good(r, pageNo, history) && HeaderAt(r).slotCount <= MAX_SLOTS && i < |View(r)|
      && View(r)[i] == if MarkDead(i) in ops then Tombstone else View(b)[i]
    decreases |ops|
  {
    hide SlotAt, HeaderAt, CommonAt, CheckPage, Good, View, Run1, MarkDeadOutcome, InsertOutcome;
    GoodParts(b, pageNo, history);
    if |ops| > 0 {
      StepRefines(b, pageNo, history, ops[0]);
      MarkDeadAcceptsLive(b, pageNo, history, i);
      var next := Run1(b, pageNo, history, ops[0]);
      assert MarkDead(i) in ops <==> ops[0] == MarkDead(i) || MarkDead(i) in ops[1..];
      if ops[0] == MarkDead(i) {
        RunsRefine(next, pageNo, history, ops[1..]);
      } else {
        LiveUntilMarkedDead(next, pageNo, history, ops[1..], i);
      }
    }
  }

  /** Whatever follows an accepted insert, TupleBytes returns the tuple exactly until a MarkDead names its slot. */
  lemma InsertedUntilMarkedDead(b: Image, pageNo: u64, history: seq<Layout>, tuple: seq<byte>, ops: seq<Op>)
    requires Good(b, pageNo, history) && InsertOutcome(b, pageNo, history, tuple).Ok?
    ensures AllPacked(history)
    ensures var slot := InsertOutcome(b, pageNo, history, tuple).value;
      StoredBytes(RunAll(b, pageNo, history, [Insert(tuple)] + ops), pageNo, slot)
        == if MarkDead(slot) in ops then None else Some(tuple)
  {
    hide SlotAt, HeaderAt, CommonAt, CheckPage, Good, View, InsertOutcome, HasRoom, Inserted, StoredBytes;
    GoodParts(b, pageNo, history);
    InsertAppends(b, pageNo, history, tuple);
    GoodParts(Inserted(b, tuple), pageNo, history);
    var slot := InsertOutcome(b, pageNo, history, tuple).value;
    var all := [Insert(tuple)] + ops;
    assert all[0] == Insert(tuple) && all[1..] == ops;
    LiveUntilMarkedDead(Inserted(b, tuple), pageNo, history, ops, slot);
    TupleBytesReadsList(RunAll(Inserted(b, tuple), pageNo, history, ops), pageNo, history, slot);
  }
}
