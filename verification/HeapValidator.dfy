/** ValidateWith as the source runs it: loops over a decoded directory, one pass after another. */
module HeapValidator {
  import opened Basics
  import opened Bytes
  import opened PageChecksum
  import opened TupleLayouts
  import opened TupleHeaders
  import opened TupleCodec
  import opened TupleDecoder
  import opened HeapFormat
  import opened HeapStructure
  import opened HeapCompaction

  const INVALID_TXN: u64 := 0
  const FROZEN_TXN: u64 := 1

  // ---- Pass 3: retained tuples ----

  /** HeapTupleSchemaHistory::Resolve, from layout `i` on. */
  function Resolve(history: seq<Layout>, schema: u32, i: nat): (r: Option<Layout>)
    requires i <= |history|
    ensures match r
      case None => schema == 0 || forall j :: i <= j < |history| ==> history[j].schema != schema
      case Some(layout) =>
        && layout in history && schema != 0 && layout.schema == schema
        && exists j :: i <= j < |history| && layout == history[j] && forall k :: i <= k < j ==> history[k].schema != schema
    decreases |history| - i
  {
    if schema == 0 || i == |history| then None
    else if history[i].schema == schema then Some(history[i]) else Resolve(history, schema, i + 1)
  }

  predicate AllPacked(history: seq<Layout>) { forall layout :: layout in history ==> Packed(layout) }

  /** The transaction fields and the previous-version pointer that can be checked on the page alone. */
  function CheckVersion(h: Header, pageNo: u64, slot: nat, slotCount: nat): Option<PageError>
  {
    if h.xmin == INVALID_TXN || h.xmax == FROZEN_TXN || (h.xmax == INVALID_TXN && h.cmax != 0) then Some(InvalidTupleTransactionFields)
    else if h.prevPage != INVALID_PAGE_NO
      && (h.prevPage == 0 || (h.prevPage == pageNo && (h.prevSlot == slot || h.prevSlot >= slotCount))) then
      Some(PageError.InvalidPreviousVersionPointer)
    else None
  }

  datatype TupleCheck = TupleCheck(error: PageError, tuple: Option<TupleError>)

  /** ValidateTupleForSlot. */
  function CheckStored(tuple: seq<byte>, history: seq<Layout>, pageNo: u64, slot: nat, slotCount: nat): Option<TupleCheck>
    requires AllPacked(history)
  {
    match DecodeTupleHeader(tuple)
    case Err(error) => Some(TupleCheck(InvalidTuple, Some(TupleError(MalformedTuple, Some(error)))))
    case Ok(h) =>
      match Resolve(history, h.schema, 0)
      case None => Some(TupleCheck(UnresolvedSchemaVersion, None))
      case Some(layout) =>
        match CheckTuple(layout, tuple)
        case Err(failure) => Some(TupleCheck(InvalidTuple, Some(TupleError(failure.code, failure.header))))
        case Ok(_) =>
          match CheckVersion(h, pageNo, slot, slotCount)
          case Some(error) => Some(TupleCheck(error, None))
          case None => None
  }

  /** More slots never invalidate a stored tuple. */
  lemma CheckStoredGrows(tuple: seq<byte>, history: seq<Layout>, pageNo: u64, slot: nat, count: nat, more: nat)
    requires AllPacked(history) && count <= more && CheckStored(tuple, history, pageNo, slot, count) == None
    ensures CheckStored(tuple, history, pageNo, slot, more) == None && |tuple| >= HEADER_SIZE
  {
    hide CheckTuple, HeaderFields, CheckHeader;
  }

  predicate InBounds(slots: seq<Slot>) { forall i :: 0 <= i < |slots| && Retains(slots[i]) ==> End(slots[i]) <= PAGE_SIZE }

  /** The first retained slot from `i` on whose tuple is not valid. */
  function BadTuple(b: Image, slots: seq<Slot>, history: seq<Layout>, pageNo: u64, i: nat): Option<PageFailure>
    requires i <= |slots| && AllPacked(history) && InBounds(slots)
    decreases |slots| - i
  {
    if i == |slots| then None
    else if !Retains(slots[i]) then BadTuple(b, slots, history, pageNo, i + 1)
    else match CheckStored(Source(b, slots[i]), history, pageNo, i, |slots|)
      case Some(check) => Some(PageFailure(check.error, i, INVALID_SLOT, check.tuple))
      case None => BadTuple(b, slots, history, pageNo, i + 1)
  }

  predicate StoredOk(b: Image, s: Slot, history: seq<Layout>, pageNo: u64, i: nat, count: nat)
    requires AllPacked(history)
  {
    Retains(s) ==> End(s) <= PAGE_SIZE && CheckStored(Source(b, s), history, pageNo, i, count) == None
  }

  lemma {:induction false} BadTupleIff(b: Image, slots: seq<Slot>, history: seq<Layout>, pageNo: u64, i: nat)
    requires i <= |slots| && AllPacked(history) && InBounds(slots)
    ensures BadTuple(b, slots, history, pageNo, i) == None <==>
      forall j :: i <= j < |slots| ==> StoredOk(b, slots[j], history, pageNo, j, |slots|)
    decreases |slots| - i
  {
    hide CheckStored, Source;
    if i < |slots| { BadTupleIff(b, slots, history, pageNo, i + 1); }
  }

  lemma OkSlotsInBounds(b: Image, upper: u16, n: nat)
    requires n <= MAX_SLOTS && BadSlot(b, upper, n, 0) == None
    ensures InBounds(Slots(b, n))
  {
    BadSlotIff(b, upper, n, 0);
    hide SlotAt, BadSlot;
    forall i | 0 <= i < n && Retains(Slots(b, n)[i]) ensures End(Slots(b, n)[i]) <= PAGE_SIZE { assert SlotOk(SlotAt(b, i), upper); }
  }

  /** Validate: the structural passes, with every retained tuple checked before the chain. */
  function CheckPage(b: Image, pageNo: u64, history: seq<Layout>): Result<HeapHeader, PageFailure>
    requires AllPacked(history)
  {
    match CheckCommon(CommonAt(b), pageNo)
    case Some(error) => Err(PageFails(error))
    case None =>
      var h := HeaderAt(b);
      match CheckGeometry(h)
      case Some(error) => Err(PageFails(error))
      case None =>
        match BadSlot(b, h.upper, h.slotCount, 0)
        case Some(failure) => Err(failure)
        case None =>
          var slots := Slots(b, h.slotCount);
          AdjacentCheckIsDisjointness(slots);
          OkSlotsInBounds(b, h.upper, h.slotCount);
          match OverlapFrom(slots, SortedRanges(slots), 1)
          case Some(failure) => Err(failure)
          case None =>
            match BadTuple(b, slots, history, pageNo, 0)
            case Some(failure) => Err(failure)
            case None =>
              match CheckChain(slots, h.freeHead)
              case Some(failure) => Err(failure)
              case None => Ok(h)
  }

  /** Full validation is structural validation plus the validity of every retained tuple. */
  lemma PageCheckIsExact(b: Image, pageNo: u64, history: seq<Layout>)
    requires AllPacked(history)
    ensures CheckPage(b, pageNo, history).Ok? <==>
      CheckStructure(b, pageNo).Ok? && HeaderAt(b).slotCount <= MAX_SLOTS
      && forall i :: 0 <= i < HeaderAt(b).slotCount ==>
           StoredOk(b, Slots(b, HeaderAt(b).slotCount)[i], history, pageNo, i, HeaderAt(b).slotCount)
    ensures CheckPage(b, pageNo, history).Ok? ==> CheckPage(b, pageNo, history).value == HeaderAt(b)
  {
    hide CommonAt, HeaderAt, SlotAt, Slots, StoredOk, CheckChain, SortedRanges, CheckCommon;
    var h := HeaderAt(b);
    if CheckGeometry(h) == None && BadSlot(b, h.upper, h.slotCount, 0) == None {
      OkSlotsInBounds(b, h.upper, h.slotCount);
      BadTupleIff(b, Slots(b, h.slotCount), history, pageNo, 0);
    }
  }

  // ---- The loops ----

  method DecodeSlotDirectory(b: Image, upper: u16, n: nat)
    returns (failure: Option<PageFailure>, slots: seq<Slot>, retained: seq<nat>, unused: seq<bool>)
    requires n <= MAX_SLOTS
    ensures failure == BadSlot(b, upper, n, 0)
    ensures failure == None ==> slots == Slots(b, n) && retained == RetainedUpTo(slots, n)
    ensures failure == None ==> |unused| == n && forall i :: 0 <= i < n ==> unused[i] == (slots[i].state == Unused)
  {
    hide SlotAt, CheckSlot;
    slots, retained, unused := [], [], [];
    for index := 0 to n
      invariant BadSlot(b, upper, n, 0) == BadSlot(b, upper, n, index)
      invariant |slots| == index && forall i :: 0 <= i < index ==> SlotAt(b, i) == Some(slots[i])
      invariant retained == RetainedUpTo(slots, index)
      invariant |unused| == index && forall i :: 0 <= i < index ==> unused[i] == (slots[i].state == Unused)
    {
      var decoded := SlotAt(b, index);
      if decoded == None {
        return Some(SlotFails(InvalidSlotState, index)), slots, retained, unused;
      }
      var s := decoded.value;
      var error := CheckSlot(s, upper);
      if error != None {
        return Some(SlotFails(error.value, index)), slots, retained, unused;
      }
      RetainedPrefix(slots, s, index);
      slots := slots + [s];
      unused := unused + [s.state == Unused];
      if Retains(s) {
        retained := retained + [index];
      }
    }
    return None, slots, retained, unused;
  }

  lemma RetainedPrefix(slots: seq<Slot>, s: Slot, n: nat)
    requires n <= |slots|
    ensures RetainedUpTo(slots + [s], n) == RetainedUpTo(slots, n)
  {
    SameRetained(slots, slots + [s], n);
  }

  lemma {:induction false} SameRetained(a: seq<Slot>, b: seq<Slot>, n: nat)
    requires n <= |a| && n <= |b| && a[..n] == b[..n]
    ensures RetainedUpTo(a, n) == RetainedUpTo(b, n)
  {
    if n > 0 {
      assert a[n - 1] == a[..n][n - 1] == b[..n][n - 1] == b[n - 1];
      assert a[..n - 1] == a[..n][..n - 1] && b[..n - 1] == b[..n][..n - 1];
      SameRetained(a, b, n - 1);
    }
  }

  method CheckRetainedRangesDisjoint(slots: seq<Slot>, retained: seq<nat>) returns (failure: Option<PageFailure>)
    requires |slots| <= MAX_SLOTS && retained == RetainedUpTo(slots, |slots|)
    ensures forall k :: 0 <= k < |SortedRanges(slots)| ==> SortedRanges(slots)[k] < |slots|
    ensures failure == OverlapFrom(slots, SortedRanges(slots), 1)
  {
    AdjacentCheckIsDisjointness(slots);
    var order := Sort(ByRange(slots), retained);
    hide SortedRanges;
    var index := 1;
    while index < |order|
      invariant 1 <= index
      invariant OverlapFrom(slots, order, 1) == OverlapFrom(slots, order, index)
    {
      var previous, current := order[index - 1], order[index];
      if slots[current].offset < End(slots[previous]) {
        return Some(PageFailure(OverlappingTupleRanges, current, previous, None));
      }
      index := index + 1;
    }
    return None;
  }

  method ValidateRetainedTuples(b: Image, slots: seq<Slot>, history: seq<Layout>, pageNo: u64) returns (failure: Option<PageFailure>)
    requires AllPacked(history) && InBounds(slots)
    ensures failure == BadTuple(b, slots, history, pageNo, 0)
  {
    hide CheckStored;
    for index := 0 to |slots|
      invariant BadTuple(b, slots, history, pageNo, 0) == BadTuple(b, slots, history, pageNo, index)
    {
      var s := slots[index];
      if s.state == Unused || s.length == 0 {
        continue;
      }
      var check := CheckStored(Source(b, s), history, pageNo, index, |slots|);
      if check != None {
        return Some(PageFailure(check.value.error, index, INVALID_SLOT, check.value.tuple));
      }
    }
    return None;
  }

  method CheckLinks(slots: seq<Slot>, unused: seq<bool>) returns (bad: Option<nat>)
    requires |unused| == |slots| && forall i :: 0 <= i < |slots| ==> unused[i] == (slots[i].state == Unused)
    ensures bad == BadLink(slots, 0)
  {
    for index := 0 to |slots|
      invariant BadLink(slots, 0) == BadLink(slots, index)
    {
      if !unused[index] {
        continue;
      }
      var next: nat := slots[index].aux;
      if next != INVALID_SLOT && !(next < |slots| && unused[next]) {
        return Some(index);
      }
    }
    return None;
  }

  /** The walk stops because each turn visits one more UNUSED slot. */
  method WalkChain(slots: seq<Slot>, head: nat) returns (r: Result<set<nat>, nat>)
    requires LinksOk(slots) && Linkable(slots, head) && |slots| <= MAX_SLOTS
    ensures r == Walk(slots, head, {})
  {
    hide LinksOk;
    var visited: set<nat> := {};
    var current: nat := head;
    while current != INVALID_SLOT
      invariant Linkable(slots, current) && visited <= UnusedUpTo(slots, |slots|)
      invariant Walk(slots, head, {}) == Walk(slots, current, visited)
      decreases |UnusedUpTo(slots, |slots|) - visited|
    {
      if current in visited {
        return Err(current);
      }
      VisitOne(slots, current, visited);
      NextLink(slots, current);
      visited := visited + {current};
      current := slots[current].aux;
    }
    return Ok(visited);
  }

  /** The links, the head, the walk with its visited set, then the comparison of the two sets. */
  method ValidateFreeSlotChain(slots: seq<Slot>, unused: seq<bool>, head: nat) returns (failure: Option<PageFailure>)
    requires |slots| <= MAX_SLOTS && |unused| == |slots| && forall i :: 0 <= i < |slots| ==> unused[i] == (slots[i].state == Unused)
    ensures failure == CheckChain(slots, head)
  {
    var bad := CheckLinks(slots, unused);
    if bad != None {
      return Some(SlotFails(InvalidFreeSlotLink, bad.value));
    }
    if head != INVALID_SLOT && !(head < |slots| && unused[head]) {
      return Some(SlotFails(InvalidFreeSlotHead, head));
    }
    hide LinksOk, Walk;
    LinksFromBadLink(slots);
    var walked := WalkChain(slots, head);
    if walked.Err? {
      return Some(SlotFails(FreeSlotCycle, walked.error));
    }
    for index := 0 to |slots|
      invariant Missed(slots, walked.value, 0) == Missed(slots, walked.value, index)
    {
      if unused[index] && index !in walked.value {
        return Some(SlotFails(FreeSlotMembershipMismatch, index));
      }
    }
    return None;
  }

  lemma LinksFromBadLink(slots: seq<Slot>)
    requires BadLink(slots, 0) == None
    ensures LinksOk(slots)
  {
    BadLinkIff(slots, 0);
  }

  datatype PageHeaders = PageHeaders(common: CommonHeader, heap: HeapHeader)

  /** A success reports both decoded headers. */
  function WithCommon(b: Image, r: Result<HeapHeader, PageFailure>): Result<PageHeaders, PageFailure>
  {
    match r
    case Ok(h) => Ok(PageHeaders(CommonAt(b), h))
    case Err(failure) => Err(failure)
  }

  /** ValidateWith: `history` is given for full validation, None for structural validation. */
  method ValidateWith(b: Image, pageNo: u64, history: Option<seq<Layout>>) returns (r: Result<PageHeaders, PageFailure>)
    requires history.Some? ==> AllPacked(history.value)
    ensures r == WithCommon(b, if history.Some? then CheckPage(b, pageNo, history.value) else CheckStructure(b, pageNo))
  {
    hide CommonAt, HeaderAt, CheckCommon, BadSlot, OverlapFrom, BadTuple, CheckChain, SortedRanges, Slots;
    var common := CommonAt(b);
    var commonError := CheckCommon(common, pageNo);
    if commonError != None {
      return Err(PageFails(commonError.value));
    }
    var h := HeaderAt(b);
    var headerError := CheckGeometry(h);
    if headerError != None {
      return Err(PageFails(headerError.value));
    }
    var slotFailure, slots, retained, unused := DecodeSlotDirectory(b, h.upper, h.slotCount);
    if slotFailure != None {
      return Err(slotFailure.value);
    }
    var overlap := CheckRetainedRangesDisjoint(slots, retained);
    if overlap != None {
      return Err(overlap.value);
    }
    if history.Some? {
      OkSlotsInBounds(b, h.upper, h.slotCount);
      var tupleFailure := ValidateRetainedTuples(b, slots, history.value, pageNo);
      if tupleFailure != None {
        return Err(tupleFailure.value);
      }
    }
    var chainFailure := ValidateFreeSlotChain(slots, unused, h.freeHead);
    if chainFailure != None {
      return Err(chainFailure.value);
    }
    return Ok(PageHeaders(common, h));
  }
}
