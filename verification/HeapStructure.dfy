/** The structural passes of ValidateWith (src/storage/heap/heap_page.cpp) and what they decide. */
module HeapStructure {
  import opened Basics
  import opened Bytes
  import opened PageChecksum
  import opened HeapFormat
  import TupleHeaders
  import TupleCodec

  const INVALID_SLOT: nat := U16_MAX

  datatype PageError =
    | WrongPageType | WrongPageNumber | InvalidPageNumber | WrongHeaderSize | UnsupportedFormatVersion
    | NonzeroCommonFlags | NonzeroCommonReserved | NonzeroHeapReserved | LowerBeforeHeader | UpperAfterPage
    | LowerAfterUpper | SlotDirectoryOutOfBounds | SlotCountLowerMismatch | InvalidSlotState
    | UnsupportedReservedState | NonzeroSlotAux | EmptyNormalTuple | NoncanonicalDeadSlot
    | RetainedTupleOutOfBounds | OverlappingTupleRanges | UnresolvedSchemaVersion | InvalidTuple
    | InvalidTupleTransactionFields | InvalidPreviousVersionPointer | NoncanonicalUnusedSlot
    | InvalidFreeSlotHead | InvalidFreeSlotLink | FreeSlotCycle | FreeSlotMembershipMismatch

  /** What the tuple codec found wrong. */
  datatype TupleError = TupleError(code: TupleCodec.CodecError, header: Option<TupleHeaders.HeaderError>)

  /** `other` is the earlier range of an overlapping pair, `tuple` the detail of an invalid tuple. */
  datatype PageFailure = PageFailure(code: PageError, slot: nat, other: nat, tuple: Option<TupleError>)

  function PageFails(code: PageError): PageFailure { PageFailure(code, INVALID_SLOT, INVALID_SLOT, None) }

  function SlotFails(code: PageError, slot: nat): PageFailure { PageFailure(code, slot, INVALID_SLOT, None) }

  // ---- Headers ----

  function CheckCommon(c: CommonHeader, expected: u64): Option<PageError>
  {
    if c.pageType != HEAP_DATA then Some(WrongPageType)
    else if c.pageNo != expected then Some(WrongPageNumber)
    else if expected == 0 || expected == U64_MAX then Some(InvalidPageNumber)
    else if c.headerSize != SLOT_BASE then Some(WrongHeaderSize)
    else if c.formatVersion != 1 then Some(UnsupportedFormatVersion)
    else if c.flags != 0 then Some(NonzeroCommonFlags)
    else if c.reserved16 != 0 then Some(NonzeroCommonReserved)
    else None
  }

  function CheckGeometry(h: HeapHeader): Option<PageError>
  {
    if h.reserved != 0 then Some(NonzeroHeapReserved)
    else if h.lower < SLOT_BASE then Some(LowerBeforeHeader)
    else if h.upper > PAGE_SIZE then Some(UpperAfterPage)
    else if h.lower > h.upper then Some(LowerAfterUpper)
    else if h.slotCount * SLOT_SIZE > PAGE_SIZE - SLOT_BASE then Some(SlotDirectoryOutOfBounds)
    else if h.lower != SLOT_BASE + h.slotCount * SLOT_SIZE then Some(SlotCountLowerMismatch)
    else None
  }

  // ---- Pass 1: slot descriptors ----

  function CheckSlot(s: Slot, upper: u16): Option<PageError>
  {
    match s.state
    case Unused => if s.offset != 0 || s.length != 0 then Some(NoncanonicalUnusedSlot) else None
    case RedirectReserved => Some(UnsupportedReservedState)
    case _ =>
      if s.aux != 0 then Some(NonzeroSlotAux)
      else if s.state == Dead && s.offset == 0 && s.length == 0 then None
      else if s.state == Dead && (s.offset == 0) != (s.length == 0) then Some(NoncanonicalDeadSlot)
      else if s.state == Normal && s.length == 0 then Some(EmptyNormalTuple)
      else if s.offset < upper || s.offset + s.length > PAGE_SIZE then Some(RetainedTupleOutOfBounds)
      else None
  }

  /** The first bad slot from `i` on. */
  function BadSlot(b: Image, upper: u16, n: nat, i: nat): Option<PageFailure>
    requires i <= n <= MAX_SLOTS
    decreases n - i
  {
    if i == n then None
    else match SlotAt(b, i)
      case None => Some(SlotFails(InvalidSlotState, i))
      case Some(s) =>
        match CheckSlot(s, upper)
        case Some(error) => Some(SlotFails(error, i))
        case None => BadSlot(b, upper, n, i + 1)
  }

  predicate SlotOk(s: Option<Slot>, upper: u16) { s.Some? && CheckSlot(s.value, upper) == None }

  lemma {:induction false} BadSlotIff(b: Image, upper: u16, n: nat, i: nat)
    requires i <= n <= MAX_SLOTS
    ensures BadSlot(b, upper, n, i) == None <==> forall j :: i <= j < n ==> SlotOk(SlotAt(b, j), upper)
    decreases n - i
  {
    if i < n { BadSlotIff(b, upper, n, i + 1); }
    hide SlotAt, CheckSlot;
  }

  /** The decoded directory. */
  function Slots(b: Image, n: nat): (slots: seq<Slot>)
    requires n <= MAX_SLOTS
    ensures |slots| == n
  {
    seq(n, i requires 0 <= i < n => if SlotAt(b, i).Some? then SlotAt(b, i).value else Slot(0, 0, Unused, 0))
  }

  /** A slot that owns tuple bytes. */
  predicate Retains(s: Slot) { s.state != Unused && s.length != 0 }

  /** The retained slots below `i`, in slot order. */
  function RetainedUpTo(slots: seq<Slot>, i: nat): (ids: seq<nat>)
    requires i <= |slots|
    ensures forall k :: 0 <= k < |ids| ==> ids[k] < i && Retains(slots[ids[k]])
  {
    if i == 0 then [] else RetainedUpTo(slots, i - 1) + (if Retains(slots[i - 1]) then [i - 1] else [])
  }

  lemma {:induction false} RetainedIff(slots: seq<Slot>, i: nat, j: nat)
    requires i <= |slots|
    ensures j in RetainedUpTo(slots, i) <==> j < i && Retains(slots[j])
  {
    if i > 0 { RetainedIff(slots, i - 1, j); }
  }

  lemma {:induction false} RetainedIncreases(slots: seq<Slot>, i: nat)
    requires i <= |slots|
    ensures forall j, k :: 0 <= j < k < |RetainedUpTo(slots, i)| ==> RetainedUpTo(slots, i)[j] < RetainedUpTo(slots, i)[k]
  {
    if i > 0 { RetainedIncreases(slots, i - 1); }
  }

  // ---- Pass 2: retained ranges are disjoint ----

  function End(s: Slot): nat { s.offset + s.length }

  /** The sort key (offset, length, slot) as one number. */
  function RangeKey(slots: seq<Slot>, id: nat): int
  {
    if id < |slots| then slots[id].offset * 0x1_0000_0000 + slots[id].length * 0x1_0000 + id else -1 - id
  }

  function ByRange(slots: seq<Slot>): nat -> int { (id: nat) => RangeKey(slots, id) }

  function SortedRanges(slots: seq<Slot>): seq<nat> { Sort(ByRange(slots), RetainedUpTo(slots, |slots|)) }

  /** The first slot of `order` from position `k` that starts inside its predecessor. */
  function OverlapFrom(slots: seq<Slot>, order: seq<nat>, k: nat): Option<PageFailure>
    requires 1 <= k && forall i :: 0 <= i < |order| ==> order[i] < |slots|
    decreases |order| - k
  {
    if k >= |order| then None
    else if slots[order[k]].offset < End(slots[order[k - 1]]) then
      Some(PageFailure(OverlappingTupleRanges, order[k], order[k - 1], None))
    else OverlapFrom(slots, order, k + 1)
  }

  predicate Apart(s: Slot, t: Slot) { End(s) <= t.offset || End(t) <= s.offset }

  predicate PairwiseDisjoint(slots: seq<Slot>)
  {
    forall i, j :: 0 <= i < j < |slots| && Retains(slots[i]) && Retains(slots[j]) ==> Apart(slots[i], slots[j])
  }

  lemma {:induction false} OverlapIff(slots: seq<Slot>, order: seq<nat>, k: nat)
    requires 1 <= k && forall i :: 0 <= i < |order| ==> order[i] < |slots|
    ensures OverlapFrom(slots, order, k) == None <==>
      forall i :: k <= i < |order| ==> End(slots[order[i - 1]]) <= slots[order[i]].offset
    decreases |order| - k
  {
    if k < |order| { OverlapIff(slots, order, k + 1); }
  }

  lemma SortedRangesFacts(slots: seq<Slot>)
    requires |slots| <= MAX_SLOTS
    ensures var order := SortedRanges(slots);
      && (forall k :: 0 <= k < |order| ==> order[k] < |slots| && Retains(slots[order[k]]))
      && (forall id: nat :: id < |slots| && Retains(slots[id]) ==> id in order)
      && (forall i, j :: 0 <= i < j < |order| ==> order[i] != order[j] && slots[order[i]].offset <= slots[order[j]].offset)
  {
    var ids := RetainedUpTo(slots, |slots|);
    RetainedIncreases(slots, |slots|);
    forall i, j | 0 <= i < j < |ids| ensures RangeKey(slots, ids[i]) != RangeKey(slots, ids[j]) {}
    SortSorts(ByRange(slots), ids);
    var order := SortedRanges(slots);
    forall id: nat | id < |slots| && Retains(slots[id]) ensures id in order { RetainedIff(slots, |slots|, id); }
    forall k | 0 <= k < |order| ensures order[k] < |slots| && Retains(slots[order[k]]) {
      assert order[k] in order;
      RetainedIff(slots, |slots|, order[k]);
    }
    forall i, j | 0 <= i < j < |order| ensures order[i] != order[j] && slots[order[i]].offset <= slots[order[j]].offset {
      assert ByRange(slots)(order[i]) < ByRange(slots)(order[j]);
    }
  }

  lemma {:induction false} AdjacentToAll(slots: seq<Slot>, order: seq<nat>, i: nat, j: nat)
    requires forall k :: 0 <= k < |order| ==> order[k] < |slots| && Retains(slots[order[k]])
    requires forall k :: 1 <= k < |order| ==> End(slots[order[k - 1]]) <= slots[order[k]].offset
    requires i < j < |order|
    ensures End(slots[order[i]]) <= slots[order[j]].offset
    decreases j
  {
    if i < j - 1 { AdjacentToAll(slots, order, i, j - 1); }
  }

  lemma AdjacentMeansDisjoint(slots: seq<Slot>, order: seq<nat>)
    requires forall k :: 0 <= k < |order| ==> order[k] < |slots| && Retains(slots[order[k]])
    requires forall id: nat :: id < |slots| && Retains(slots[id]) ==> id in order
    requires forall k :: 1 <= k < |order| ==> End(slots[order[k - 1]]) <= slots[order[k]].offset
    ensures PairwiseDisjoint(slots)
  {
    forall i, j | 0 <= i < j < |slots| && Retains(slots[i]) && Retains(slots[j]) ensures Apart(slots[i], slots[j]) {
      var p := IndexOf(order, i);
      var q := IndexOf(order, j);
      if p < q { AdjacentToAll(slots, order, p, q); } else { AdjacentToAll(slots, order, q, p); }
    }
  }

  lemma DisjointMeansAdjacent(slots: seq<Slot>, order: seq<nat>, k: nat)
    requires forall i :: 0 <= i < |order| ==> order[i] < |slots| && Retains(slots[order[i]])
    requires PairwiseDisjoint(slots) && 1 <= k < |order|
    requires order[k - 1] != order[k] && slots[order[k - 1]].offset <= slots[order[k]].offset
    ensures End(slots[order[k - 1]]) <= slots[order[k]].offset
  {
    var i, j := order[k - 1], order[k];
    assert Apart(slots[if i < j then i else j], slots[if i < j then j else i]);
  }

  /** The sorted-adjacent check decides whether any two retained ranges share a byte. */
  lemma AdjacentCheckIsDisjointness(slots: seq<Slot>)
    requires |slots| <= MAX_SLOTS
    ensures forall k :: 0 <= k < |SortedRanges(slots)| ==> SortedRanges(slots)[k] < |slots|
    ensures OverlapFrom(slots, SortedRanges(slots), 1) == None <==> PairwiseDisjoint(slots)
  {
    var order := SortedRanges(slots);
    SortedRangesFacts(slots);
    hide SortedRanges, PairwiseDisjoint;
    OverlapIff(slots, order, 1);
    if OverlapFrom(slots, order, 1) == None { AdjacentMeansDisjoint(slots, order); }
    if PairwiseDisjoint(slots) {
      forall k | 1 <= k < |order| ensures End(slots[order[k - 1]]) <= slots[order[k]].offset {
        DisjointMeansAdjacent(slots, order, k);
      }
    }
  }

  // ---- Pass 4: the free-slot chain ----

  predicate IsUnused(slots: seq<Slot>, id: nat) { id < |slots| && slots[id].state == Unused }

  function UnusedUpTo(slots: seq<Slot>, n: nat): set<nat>
    requires n <= |slots|
  {
    set id | 0 <= id < n && slots[id].state == Unused
  }

  /** The first UNUSED slot from `i` on whose link leads to no UNUSED slot. */
  function BadLink(slots: seq<Slot>, i: nat): Option<nat>
    requires i <= |slots|
    decreases |slots| - i
  {
    if i == |slots| then None
    else if slots[i].state == Unused && slots[i].aux != INVALID_SLOT && !IsUnused(slots, slots[i].aux) then Some(i)
    else BadLink(slots, i + 1)
  }

  predicate LinksOk(slots: seq<Slot>)
  {
    forall i :: 0 <= i < |slots| && slots[i].state == Unused && slots[i].aux != INVALID_SLOT ==> IsUnused(slots, slots[i].aux)
  }

  lemma {:induction false} BadLinkIff(slots: seq<Slot>, i: nat)
    requires i <= |slots|
    ensures BadLink(slots, i) == None <==>
      forall j :: i <= j < |slots| && slots[j].state == Unused && slots[j].aux != INVALID_SLOT ==> IsUnused(slots, slots[j].aux)
    decreases |slots| - i
  {
    if i < |slots| { BadLinkIff(slots, i + 1); }
  }

  predicate Linkable(slots: seq<Slot>, id: nat) { id == INVALID_SLOT || IsUnused(slots, id) }

  lemma NextLink(slots: seq<Slot>, current: nat)
    requires LinksOk(slots) && IsUnused(slots, current)
    ensures Linkable(slots, slots[current].aux)
  {}

  lemma VisitOne(slots: seq<Slot>, current: nat, visited: set<nat>)
    requires IsUnused(slots, current) && current !in visited && visited <= UnusedUpTo(slots, |slots|)
    ensures visited + {current} <= UnusedUpTo(slots, |slots|)
    ensures |UnusedUpTo(slots, |slots|) - (visited + {current})| < |UnusedUpTo(slots, |slots|) - visited|
  {
    assert current in UnusedUpTo(slots, |slots|) - visited;
    assert UnusedUpTo(slots, |slots|) - (visited + {current}) == UnusedUpTo(slots, |slots|) - visited - {current};
  }

  /** The walk: the slots it visits, or the slot where it meets itself. */
  function Walk(slots: seq<Slot>, current: nat, visited: set<nat>): Result<set<nat>, nat>
    requires LinksOk(slots) && Linkable(slots, current) && visited <= UnusedUpTo(slots, |slots|) && |slots| <= MAX_SLOTS
    decreases |UnusedUpTo(slots, |slots|) - visited|
  {
    if current == INVALID_SLOT then Ok(visited)
    else if current in visited then Err(current)
    else
      VisitOne(slots, current, visited);
      NextLink(slots, current);
      Walk(slots, slots[current].aux, visited + {current})
  }

  /** The first UNUSED slot from `i` on that the walk missed. */
  function Missed(slots: seq<Slot>, visited: set<nat>, i: nat): Option<nat>
    requires i <= |slots|
    decreases |slots| - i
  {
    if i == |slots| then None
    else if slots[i].state == Unused && i !in visited then Some(i) else Missed(slots, visited, i + 1)
  }

  lemma {:induction false} MissedIff(slots: seq<Slot>, visited: set<nat>, i: nat)
    requires i <= |slots|
    ensures Missed(slots, visited, i) == None <==> forall j :: i <= j < |slots| && slots[j].state == Unused ==> j in visited
    decreases |slots| - i
  {
    if i < |slots| { MissedIff(slots, visited, i + 1); }
  }

  function CheckChain(slots: seq<Slot>, head: nat): Option<PageFailure>
    requires |slots| <= MAX_SLOTS
  {
    BadLinkIff(slots, 0);
    match BadLink(slots, 0)
    case Some(i) => Some(SlotFails(InvalidFreeSlotLink, i))
    case None =>
      if !Linkable(slots, head) then Some(SlotFails(InvalidFreeSlotHead, head))
      else match Walk(slots, head, {})
        case Err(current) => Some(SlotFails(FreeSlotCycle, current))
        case Ok(visited) =>
          match Missed(slots, visited, 0)
          case Some(i) => Some(SlotFails(FreeSlotMembershipMismatch, i))
          case None => None
  }

  /** `path` follows the links from `head` to the end. */
  predicate Follows(slots: seq<Slot>, head: nat, path: seq<nat>)
    decreases |path|
  {
    if |path| == 0 then head == INVALID_SLOT
    else path[0] == head && IsUnused(slots, head) && Follows(slots, slots[head].aux, path[1..])
  }

  /** The chain from the head visits every UNUSED slot exactly once, and nothing else. */
  ghost predicate ChainOk(slots: seq<Slot>, head: nat)
  {
    exists path: seq<nat> :: Follows(slots, head, path) && Distinct(path) && forall id: nat :: id in path <==> IsUnused(slots, id)
  }

  lemma PathCons(slots: seq<Slot>, current: nat, rest: seq<nat>)
    requires IsUnused(slots, current) && Follows(slots, slots[current].aux, rest) && Distinct(rest) && current !in rest
    ensures Follows(slots, current, [current] + rest) && Distinct([current] + rest)
  {
    var path := [current] + rest;
    assert path[1..] == rest;
    forall i, j | 0 <= i < j < |path| ensures path[i] != path[j] {
      assert path[j] == rest[j - 1];
      if i > 0 { assert path[i] == rest[i - 1]; }
    }
  }

  /** A walk that ends has visited exactly the slots of some link path, once each. */
  lemma {:induction false} WalkedPath(slots: seq<Slot>, current: nat, visited: set<nat>) returns (path: seq<nat>)
    requires LinksOk(slots) && Linkable(slots, current) && visited <= UnusedUpTo(slots, |slots|) && |slots| <= MAX_SLOTS
    requires Walk(slots, current, visited).Ok?
    ensures Follows(slots, current, path) && Distinct(path) && forall id :: id in path ==> id !in visited && IsUnused(slots, id)
    ensures forall id :: id in Walk(slots, current, visited).value <==> id in visited || id in path
    decreases |UnusedUpTo(slots, |slots|) - visited|
  {
    hide LinksOk, UnusedUpTo;
    if current == INVALID_SLOT {
      path := [];
    } else {
      VisitOne(slots, current, visited);
      NextLink(slots, current);
      var rest := WalkedPath(slots, slots[current].aux, visited + {current});
      PathCons(slots, current, rest);
      path := [current] + rest;
      hide Follows, Distinct;
    }
  }

  /** Conversely, the walk follows any such path to its end. */
  lemma {:induction false} PathIsWalked(slots: seq<Slot>, current: nat, visited: set<nat>, path: seq<nat>)
    requires LinksOk(slots) && Linkable(slots, current) && visited <= UnusedUpTo(slots, |slots|) && |slots| <= MAX_SLOTS
    requires Follows(slots, current, path) && Distinct(path) && forall id :: id in path ==> id !in visited
    ensures Walk(slots, current, visited).Ok?
    ensures forall id :: id in Walk(slots, current, visited).value <==> id in visited || id in path
    decreases |path|
  {
    hide LinksOk, UnusedUpTo;
    if |path| > 0 {
      var rest := path[1..];
      assert path == [current] + rest && path[0] in path;
      assert forall id :: id in rest ==> id in path && id != current;
      VisitOne(slots, current, visited);
      NextLink(slots, current);
      PathIsWalked(slots, slots[current].aux, visited + {current}, rest);
      hide Follows, Distinct;
    }
  }

  lemma {:induction false} FollowsLinks(slots: seq<Slot>, head: nat, path: seq<nat>, id: nat)
    requires Follows(slots, head, path) && id in path
    ensures IsUnused(slots, id) && (slots[id].aux == INVALID_SLOT || slots[id].aux in path)
    decreases |path|
  {
    if id != path[0] {
      FollowsLinks(slots, slots[head].aux, path[1..], id);
    } else if |path| > 1 {
      assert path[1] in path && path[1..][0] == path[1];
    }
  }

  lemma PathLinks(slots: seq<Slot>, head: nat, path: seq<nat>)
    requires Follows(slots, head, path) && forall id: nat :: id in path <==> IsUnused(slots, id)
    ensures LinksOk(slots) && Linkable(slots, head)
  {
    forall i | 0 <= i < |slots| && slots[i].state == Unused && slots[i].aux != INVALID_SLOT ensures IsUnused(slots, slots[i].aux) {
      assert IsUnused(slots, i);
      FollowsLinks(slots, head, path, i);
    }
  }

  /** The chain pass decides the declarative chain property; the walk's termination is in its measure. */
  lemma ChainCheckIsExact(slots: seq<Slot>, head: nat)
    requires |slots| <= MAX_SLOTS
    ensures CheckChain(slots, head) == None <==> ChainOk(slots, head)
  {
    BadLinkIff(slots, 0);
    if CheckChain(slots, head) == None {
      var path := WalkedPath(slots, head, {});
      MissedIff(slots, Walk(slots, head, {}).value, 0);
      assert forall id: nat :: id in path <==> IsUnused(slots, id);
    }
    if path: seq<nat> :| Follows(slots, head, path) && Distinct(path) && forall id: nat :: id in path <==> IsUnused(slots, id) {
      PathLinks(slots, head, path);
      PathIsWalked(slots, head, {}, path);
      MissedIff(slots, Walk(slots, head, {}).value, 0);
      forall j: nat | j < |slots| && slots[j].state == Unused ensures j in path { assert IsUnused(slots, j); }
    }
  }

  // ---- The structural check ----

  /** ValidateStructure: headers, then the passes in their order. */
  function CheckStructure(b: Image, pageNo: u64): Result<HeapHeader, PageFailure>
  {
    match CheckCommon(CommonAt(b), pageNo)
    case Some(error) => Err(PageFails(error))
    case None =>
      var h := HeaderAt(b);
      match CheckGeometry(h)
      case Some(error) => Err(PageFails(error))
      case None =>
        match BadSlot(b, h.upper, h.slotCount, 0)
        case Some(failure) => Err(failure)
        case None =>
          var slots := Slots(b, h.slotCount);
          AdjacentCheckIsDisjointness(slots);
          match OverlapFrom(slots, SortedRanges(slots), 1)
          case Some(failure) => Err(failure)
          case None =>
            match CheckChain(slots, h.freeHead)
            case Some(failure) => Err(failure)
            case None => Ok(h)
  }

  /** The declarative reading of a structurally valid page. */
  ghost predicate Sound(b: Image, pageNo: u64)
  {
    var h := HeaderAt(b);
    && CheckCommon(CommonAt(b), pageNo) == None && CheckGeometry(h) == None
    && (forall i :: 0 <= i < h.slotCount ==> SlotOk(SlotAt(b, i), h.upper))
    && PairwiseDisjoint(Slots(b, h.slotCount)) && ChainOk(Slots(b, h.slotCount), h.freeHead)
  }

  /** The structural passes are sound and complete. */
  lemma StructureIsExact(b: Image, pageNo: u64)
    ensures CheckStructure(b, pageNo).Ok? <==> Sound(b, pageNo)
    ensures CheckStructure(b, pageNo).Ok? ==> CheckStructure(b, pageNo).value == HeaderAt(b)
  {
    hide CommonAt, HeaderAt, SlotAt, Slots, SlotOk, PairwiseDisjoint, ChainOk, CheckChain, SortedRanges, CheckCommon;
    var h := HeaderAt(b);
    if CheckGeometry(h) == None {
      BadSlotIff(b, h.upper, h.slotCount, 0);
      AdjacentCheckIsDisjointness(Slots(b, h.slotCount));
      ChainCheckIsExact(Slots(b, h.slotCount), h.freeHead);
    }
  }
}
