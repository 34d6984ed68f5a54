/** Free-space categories and the heap-page to FSM-entry mapping (src/storage/heap/fsm_page.cpp). */
module FsmCategories {
  import opened Basics
  import opened Bytes
  import opened TupleLayouts
  import opened HeapFormat

  const MAX_CONTIGUOUS_FREE: nat := 8144
  const CATEGORY_MAX: nat := 255
  const ENTRY_CAPACITY: nat := 8144

  function Min(a: nat, b: nat): nat { if a < b then a else b }

  /** Tuple bytes that fit in a gap once the mandatory slot entry is paid for, capped. */
  function UsableBytes(free: nat): (usable: nat)
    ensures usable <= MAX_RAW_TUPLE_SIZE
  {
    var bounded := Min(free, MAX_CONTIGUOUS_FREE);
    if bounded <= SLOT_SIZE then 0 else Min(bounded - SLOT_SIZE, MAX_RAW_TUPLE_SIZE)
  }

  function CategoryForFreeBytes(free: nat): byte
  {
    var bounded := Min(free, MAX_CONTIGUOUS_FREE);
    if bounded <= SLOT_SIZE then 0
    else
      var usable := Min(bounded - SLOT_SIZE, MAX_RAW_TUPLE_SIZE);
      usable * CATEGORY_MAX / MAX_RAW_TUPLE_SIZE
  }

  function MinimumUsableBytes(category: byte): nat
  {
    (category * MAX_RAW_TUPLE_SIZE + CATEGORY_MAX - 1) / CATEGORY_MAX
  }

  /** The smallest category that can promise `required` tuple bytes; None if no tuple is that large. */
  function MinimumCategory(required: nat): Option<byte>
  {
    if required > MAX_RAW_TUPLE_SIZE then None
    else if required == 0 then Some(0)
    else Some((required - 1) * CATEGORY_MAX / MAX_RAW_TUPLE_SIZE + 1)
  }

  /** Rounding down to a category and up to its bytes are adjoint. */
  lemma CategoriesAdjoint(category: byte, free: nat)
    ensures category <= CategoryForFreeBytes(free) <==> MinimumUsableBytes(category) <= UsableBytes(free)
  {}

  lemma RequestsAdjoint(category: byte, required: nat)
    requires required <= MAX_RAW_TUPLE_SIZE
    ensures MinimumCategory(required).Some?
    ensures MinimumCategory(required).value <= category <==> required <= MinimumUsableBytes(category)
  {}

  /** Categories and their byte bounds invert each other from the category side. */
  lemma CategoryRoundTrip(category: byte)
    ensures MinimumUsableBytes(category) <= MAX_RAW_TUPLE_SIZE
    ensures MinimumCategory(MinimumUsableBytes(category)) == Some(category)
    ensures CategoryForFreeBytes(MinimumUsableBytes(category) + SLOT_SIZE) == category
  {}

  /** A sufficient category means that the tuple and its slot fit the gap the category came from. */
  lemma SufficientCategoryFits(required: nat, free: nat)
    requires 1 <= required <= MAX_RAW_TUPLE_SIZE && MinimumCategory(required).value <= CategoryForFreeBytes(free)
    ensures required + SLOT_SIZE <= free
  {
    CategoriesAdjoint(MinimumCategory(required).value, free);
    RequestsAdjoint(MinimumCategory(required).value, required);
  }

  /** A gap with 31 usable bytes to spare always has a sufficient category. */
  lemma SpaciousGapIsFound(required: nat, free: nat)
    requires required + 31 <= UsableBytes(free)
    ensures MinimumCategory(required).Some? && MinimumCategory(required).value <= CategoryForFreeBytes(free)
  {
    var usable := UsableBytes(free);
    assert CategoryForFreeBytes(free) == usable * CATEGORY_MAX / MAX_RAW_TUPLE_SIZE;
    if required > 0 {
      assert usable * CATEGORY_MAX >= (required - 1) * CATEGORY_MAX + MAX_RAW_TUPLE_SIZE;
    }
  }

  /** With 30 bytes to spare it may be missed: the margin is tight. */
  lemma MarginIsTight()
    ensures exists required: nat, free: nat :: MinimumCategory(required).Some? && required + 30 <= UsableBytes(free) && MinimumCategory(required).value > CategoryForFreeBytes(free)
  {
    assert UsableBytes(71) == 63 && MinimumCategory(33) == Some(2) && CategoryForFreeBytes(71) == 1;
  }

  // ---- Heap pages and FSM entries ----

  datatype Location = Location(fsmPage: u64, entry: u16)

  datatype MappingError = InvalidHeapPageNumber | MappingOverflow

  function FsmLocation(heapPage: u64): Result<Location, MappingError>
  {
    if heapPage == 0 || heapPage == U64_MAX then Err(InvalidHeapPageNumber)
    else
      var index := heapPage - 1;
      var fsmIndex := index / ENTRY_CAPACITY;
      if fsmIndex == U64_MAX then Err(MappingOverflow) else Ok(Location(1 + fsmIndex, index % ENTRY_CAPACITY))
  }

  /** FirstHeapPageForFsmPage. */
  function FirstHeapPage(fsmPage: u64): (first: Option<u64>)
  {
    if fsmPage == 0 || fsmPage == U64_MAX then None
    else
      var index := fsmPage - 1;
      if index > (U64_MAX - 1) / ENTRY_CAPACITY then None
      else
        var first := 1 + index * ENTRY_CAPACITY;
        if first == U64_MAX then None else Some(first)
  }

  /** InitializedRangeFits. */
  predicate RangeFits(first: u64, entryCount: nat)
  {
    entryCount == 0 || first <= U64_MAX - 1 - (entryCount - 1)
  }

  predicate RealHeapPage(page: int) { 0 < page < U64_MAX }

  /** The heap page that an entry of an FSM page stands for. */
  function EntryPage(first: u64, entry: nat): nat { first + entry }

  /** The guards are exact: they pass exactly when the first page, or every entry's page, is a real page number. */
  lemma GuardsAreExact(fsmPage: u64, entryCount: nat)
    ensures FirstHeapPage(fsmPage).Some? <==> RealHeapPage(fsmPage) && RealHeapPage(1 + (fsmPage - 1) * ENTRY_CAPACITY)
    ensures FirstHeapPage(fsmPage).Some? ==>
      (RangeFits(FirstHeapPage(fsmPage).value, entryCount) <==>
        forall entry: nat :: entry < entryCount ==> RealHeapPage(EntryPage(FirstHeapPage(fsmPage).value, entry)))
  {
    if FirstHeapPage(fsmPage).Some? && entryCount > 0 {
      var last := EntryPage(FirstHeapPage(fsmPage).value, entryCount - 1);
    }
  }

  /** The mapping is inverted by first heap page plus entry, and its overflow branch is never taken. */
  lemma LocationInverts(heapPage: u64)
    ensures FsmLocation(heapPage).Ok? <==> RealHeapPage(heapPage)
    ensures FsmLocation(heapPage) != Err(MappingOverflow)
    ensures FsmLocation(heapPage).Ok? ==>
      var at := FsmLocation(heapPage).value;
      at.entry < ENTRY_CAPACITY && FirstHeapPage(at.fsmPage).Some? && FirstHeapPage(at.fsmPage).value + at.entry == heapPage
  {
    if RealHeapPage(heapPage) {
      var index := heapPage - 1;
      QuotientBounds(index);
      assert index == index / ENTRY_CAPACITY * ENTRY_CAPACITY + index % ENTRY_CAPACITY;
    }
  }

  lemma QuotientBounds(index: nat)
    requires index < U64_MAX - 1
    ensures index / ENTRY_CAPACITY <= (U64_MAX - 1) / ENTRY_CAPACITY && index / ENTRY_CAPACITY < U64_MAX - 1
    ensures index / ENTRY_CAPACITY * ENTRY_CAPACITY <= index
  {}

  /** Every entry of every FSM page that names a real heap page is that page's location. */
  lemma LocationIsOnto(fsmPage: u64, entry: nat)
    requires FirstHeapPage(fsmPage).Some? && entry < ENTRY_CAPACITY && RealHeapPage(FirstHeapPage(fsmPage).value + entry)
    ensures FsmLocation(FirstHeapPage(fsmPage).value + entry) == Ok(Location(fsmPage, entry))
  {
    var index := (fsmPage - 1) * ENTRY_CAPACITY + entry;
    DivideBack(fsmPage - 1, entry);
  }

  lemma DivideBack(q: nat, r: nat)
    requires r < ENTRY_CAPACITY
    ensures (q * ENTRY_CAPACITY + r) / ENTRY_CAPACITY == q && (q * ENTRY_CAPACITY + r) % ENTRY_CAPACITY == r
  {}
}
