/** What compaction leaves: every live tuple readable, a valid page, and nothing for a second pass. */
module HeapCompacted {
  import opened Basics
  import opened Bytes
  import opened PageChecksum
  import opened HeapFormat
  import opened HeapStructure
  import opened HeapCompaction

  // ---- Rewriting the directory ----

  /** The first `k` slot entries written. */
  function PutSlots(b: Image, slots: seq<Slot>, k: nat): Image
    requires k <= |slots| <= MAX_SLOTS
  {
    if k == 0 then b else PutSlot(PutSlots(b, slots, k - 1), k - 1, slots[k - 1])
  }

  lemma {:induction false} PutSlotsElsewhere(b: Image, slots: seq<Slot>, k: nat, x: nat)
    requires k <= |slots| <= MAX_SLOTS && x < PAGE_SIZE && !(SLOT_BASE <= x < SLOT_BASE + SLOT_SIZE * k)
    ensures PutSlots(b, slots, k)[x] == b[x]
  {
    hide SlotImage;
    if k > 0 { PutSlotsElsewhere(b, slots, k - 1, x); }
  }

  lemma {:induction false} PutSlotsRead(b: Image, slots: seq<Slot>, k: nat, i: nat)
    requires i < k <= |slots| <= MAX_SLOTS
    ensures SlotAt(PutSlots(b, slots, k), i) == Some(slots[i])
  {
    if i == k - 1 {
      SlotReadsBack(PutSlots(b, slots, k - 1), i, slots[i]);
    } else {
      PutSlotsRead(b, slots, k - 1, i);
      OtherSlot(PutSlots(b, slots, k - 1), k - 1, slots[k - 1], i);
    }
    hide SlotAt, PutSlot;
  }

  lemma OtherSlot(b: Image, i: nat, s: Slot, j: nat)
    requires i < MAX_SLOTS && j < MAX_SLOTS && i != j
    ensures SlotAt(PutSlot(b, i, s), j) == SlotAt(b, j)
  {
    hide SlotImage;
    SameSlot(PutSlot(b, i, s), b, j);
  }

  lemma {:induction false} PutSameSlots(b: Image, slots: seq<Slot>, k: nat)
    requires k <= |slots| <= MAX_SLOTS && forall i :: 0 <= i < k ==> SlotAt(b, i) == Some(slots[i])
    ensures PutSlots(b, slots, k) == b
  {
    if k > 0 {
      PutSameSlots(b, slots, k - 1);
      SlotCanonical(b, k - 1);
    }
    hide SlotAt, PutSlot;
  }

  // ---- The compacted page ----

  function Planned(slots: seq<Slot>, order: seq<nat>): (r: seq<Slot>)
    requires InPage(slots, order)
    ensures |r| == |slots|
  {
    PlannedUpTo(slots, order, |order|)
  }

  function NewUpper(slots: seq<Slot>, order: seq<nat>): (upper: u16)
    requires InPage(slots, order)
  {
    Top(slots, order, |order|)
  }

  function Compacted(b: Image, slots: seq<Slot>, order: seq<nat>): Image
    requires Movable(slots, order) && |slots| <= MAX_SLOTS
  {
    PutHeader(PutSlots(Moved(b, slots, order, |order|), Planned(slots, order), |slots|), HeaderAt(b).(upper := NewUpper(slots, order)))
  }

  /** Only the header, the directory and the packed area are written. */
  lemma CompactedElsewhere(b: Image, slots: seq<Slot>, order: seq<nat>, x: nat)
    requires Movable(slots, order) && |slots| <= MAX_SLOTS && x < PAGE_SIZE
    requires !(HEAP_HEADER_OFFSET <= x < SLOT_BASE + SLOT_SIZE * |slots|)
    ensures Compacted(b, slots, order)[x] == Moved(b, slots, order, |order|)[x]
    ensures x < NewUpper(slots, order) ==> Compacted(b, slots, order)[x] == b[x]
  {
    PutSlotsElsewhere(Moved(b, slots, order, |order|), Planned(slots, order), |slots|, x);
    if x < NewUpper(slots, order) { UnreadSourcesIntact(b, slots, order, |order|, x); }
    hide Moved, PlannedUpTo, HeaderImage, PutSlots;
  }

  lemma CompactedSlot(b: Image, slots: seq<Slot>, order: seq<nat>, i: nat)
    requires Movable(slots, order) && |slots| <= MAX_SLOTS && i < |slots|
    ensures SlotAt(Compacted(b, slots, order), i) == Some(Planned(slots, order)[i])
  {
    hide Moved, PlannedUpTo, HeaderImage, PutSlots, SlotAt;
    var page := PutSlots(Moved(b, slots, order, |order|), Planned(slots, order), |slots|);
    PutSlotsRead(Moved(b, slots, order, |order|), Planned(slots, order), |slots|, i);
    SameSlot(Compacted(b, slots, order), page, i);
  }

  lemma CompactedHeaders(b: Image, slots: seq<Slot>, order: seq<nat>)
    requires Movable(slots, order) && |slots| <= MAX_SLOTS && COMMON_HEADER_SIZE <= NewUpper(slots, order)
    ensures HeaderAt(Compacted(b, slots, order)) == HeaderAt(b).(upper := NewUpper(slots, order))
    ensures CommonAt(Compacted(b, slots, order)) == CommonAt(b)
  {
    hide Moved, PlannedUpTo, HeaderImage, PutSlots, SlotAt, HeaderAt, CommonAt;
    HeaderReadsBack(PutSlots(Moved(b, slots, order, |order|), Planned(slots, order), |slots|), HeaderAt(b).(upper := NewUpper(slots, order)));
    forall x | 0 <= x < COMMON_HEADER_SIZE ensures Compacted(b, slots, order)[x] == b[x] { CompactedElsewhere(b, slots, order, x); }
    SameCommon(Compacted(b, slots, order), b);
  }

  // ---- The planned directory ----

  /** A live slot moves to its packed place; a DEAD slot owns no bytes; states and links stay. */
  lemma PlannedCases(slots: seq<Slot>, upper: u16, order: seq<nat>, i: nat)
    requires Descends(slots, upper, order) && InPage(slots, order) && i < |slots|
    ensures var p := Planned(slots, order)[i];
      && p.state == slots[i].state && p.aux == slots[i].aux
      && (slots[i].state == Dead ==> p == slots[i].(offset := 0, length := 0))
      && (slots[i].state == Normal ==> exists j :: 0 <= j < |order| && order[j] == i && p == slots[i].(offset := Top(slots, order, j + 1)))
  {
    PlannedSlot(slots, order, |order|, i);
    if slots[i].state == Normal {
      var j := IndexOf(order, i);
      assert order[j] == i;
    } else {
      assert forall j :: 0 <= j < |order| ==> order[j] != i;
    }
    hide PlannedUpTo, Top;
  }

  lemma PlannedPlace(slots: seq<Slot>, upper: u16, order: seq<nat>, j: nat)
    requires Descends(slots, upper, order) && InPage(slots, order) && j < |order|
    ensures Planned(slots, order)[order[j]] == slots[order[j]].(offset := Top(slots, order, j + 1))
  {
    PlannedSlot(slots, order, |order|, order[j]);
    hide PlannedUpTo, Top;
  }

  lemma PlannedSlotOk(slots: seq<Slot>, upper: u16, order: seq<nat>, i: nat)
    requires Plannable(slots, upper) && Descends(slots, upper, order) && InPage(slots, order) && i < |slots|
    ensures CheckSlot(Planned(slots, order)[i], NewUpper(slots, order)) == None
  {
    assert CheckSlot(slots[i], upper) == None;
    PlannedCases(slots, upper, order, i);
    if slots[i].state == Normal {
      var j :| 0 <= j < |order| && order[j] == i && Planned(slots, order)[i] == slots[i].(offset := Top(slots, order, j + 1));
      TopsDescend(slots, order, j + 1, |order|);
      assert Top(slots, order, j + 1) + slots[i].length == Top(slots, order, j) <= PAGE_SIZE;
    }
    hide PlannedUpTo, PairwiseDisjoint;
  }

  lemma PlannedApart(slots: seq<Slot>, upper: u16, order: seq<nat>, i: nat, j: nat)
    requires Descends(slots, upper, order) && InPage(slots, order) && i < |slots| && j < |slots| && i != j
    requires slots[i].state in {Normal, Dead} && slots[j].state in {Normal, Dead}
    requires Retains(Planned(slots, order)[i]) && Retains(Planned(slots, order)[j])
    ensures Apart(Planned(slots, order)[i], Planned(slots, order)[j])
  {
    PlannedCases(slots, upper, order, i);
    PlannedCases(slots, upper, order, j);
    hide PlannedUpTo, Descends;
    var p :| 0 <= p < |order| && order[p] == i && Planned(slots, order)[i] == slots[i].(offset := Top(slots, order, p + 1));
    var q :| 0 <= q < |order| && order[q] == j && Planned(slots, order)[j] == slots[j].(offset := Top(slots, order, q + 1));
    if p < q { TopsDescend(slots, order, p + 1, q); } else { TopsDescend(slots, order, q + 1, p); }
  }

  /** The planned directory is valid under the new upper. */
  lemma PlannedPlannable(slots: seq<Slot>, upper: u16)
    requires Plannable(slots, upper)
    ensures Descends(slots, upper, LiveOrder(slots)) && Movable(slots, LiveOrder(slots))
    ensures Plannable(Planned(slots, LiveOrder(slots)), NewUpper(slots, LiveOrder(slots)))
    ensures upper <= NewUpper(slots, LiveOrder(slots))
  {
    var order := LiveOrder(slots);
    OrderDescends(slots, upper);
    CanMove(slots, upper, order);
    TopAboveSource(slots, upper, order, |order|);
    var planned := Planned(slots, order);
    forall i | 0 <= i < |slots| ensures planned[i].state in {Normal, Dead} && CheckSlot(planned[i], NewUpper(slots, order)) == None {
      PlannedCases(slots, upper, order, i);
      PlannedSlotOk(slots, upper, order, i);
    }
    forall i, j | 0 <= i < j < |slots| && Retains(planned[i]) && Retains(planned[j]) ensures Apart(planned[i], planned[j]) {
      PlannedApart(slots, upper, order, i, j);
    }
    hide LiveOrder, Planned, CheckSlot, Descends;
  }

  // ---- The new upper is the page size minus the live lengths ----

  function LengthOf(slots: seq<Slot>): nat -> nat { (id: nat) => if id < |slots| then slots[id].length else 0 }

  function LiveLength(slots: seq<Slot>, i: nat): nat
    requires i <= |slots|
  {
    if i == 0 then 0 else LiveLength(slots, i - 1) + (if slots[i - 1].state == Normal then slots[i - 1].length else 0)
  }

  lemma AppendedLength(slots: seq<Slot>, ids: seq<nat>, id: nat)
    requires id < |slots|
    ensures SumBy(LengthOf(slots), ids + [id]) == SumBy(LengthOf(slots), ids) + slots[id].length
  {
    SumAppend<nat>(LengthOf(slots), ids, id);
  }

  lemma {:induction false} LiveLengthIsTotal(slots: seq<Slot>, i: nat)
    requires i <= |slots|
    ensures SumBy(LengthOf(slots), NormalUpTo(slots, i)) == LiveLength(slots, i)
  {
    if i > 0 {
      LiveLengthIsTotal(slots, i - 1);
      var ids := NormalUpTo(slots, i - 1);
      hide SumBy, LengthOf;
      if slots[i - 1].state == Normal {
        AppendedLength(slots, ids, i - 1);
      } else {
        assert NormalUpTo(slots, i) == ids + [] == ids;
      }
    }
  }

  lemma {:induction false} TopIsTotal(slots: seq<Slot>, order: seq<nat>, k: nat)
    requires LiveIds(slots, order) && k <= |order|
    ensures Top(slots, order, k) == PAGE_SIZE - SumBy(LengthOf(slots), order[..k])
  {
    if k > 0 {
      TopIsTotal(slots, order, k - 1);
      assert order[..k] == order[..k - 1] + [order[k - 1]];
      AppendedLength(slots, order[..k - 1], order[k - 1]);
    }
  }

  /** Whatever the order of the moves, upper becomes 8192 minus the live lengths. */
  lemma NewUpperIsExact(slots: seq<Slot>, upper: u16)
    requires Plannable(slots, upper)
    ensures Movable(slots, LiveOrder(slots)) && NewUpper(slots, LiveOrder(slots)) == PAGE_SIZE - LiveLength(slots, |slots|)
  {
    var order := LiveOrder(slots);
    PlannedPlannable(slots, upper);
    TopIsTotal(slots, order, |order|);
    assert order[..|order|] == order;
    SumSort<nat>(LengthOf(slots), BySource(slots), NormalUpTo(slots, |slots|));
    LiveLengthIsTotal(slots, |slots|);
  }

  // ---- Compaction preserves the page ----

  /** A structurally valid page whose slots are all NORMAL or DEAD. */
  ghost predicate Compactable(b: Image, pageNo: u64)
  {
    Sound(b, pageNo) && forall i :: 0 <= i < HeaderAt(b).slotCount ==> SlotAt(b, i).value.state in {Normal, Dead}
  }

  function Directory(b: Image): (slots: seq<Slot>)
    requires HeaderAt(b).slotCount <= MAX_SLOTS
    ensures |slots| == HeaderAt(b).slotCount
  {
    Slots(b, HeaderAt(b).slotCount)
  }

  lemma DirectoryPlannable(b: Image, pageNo: u64)
    requires Compactable(b, pageNo)
    ensures HeaderAt(b).slotCount <= MAX_SLOTS && Plannable(Directory(b), HeaderAt(b).upper)
    ensures HeaderAt(b).lower == SLOT_BASE + SLOT_SIZE * HeaderAt(b).slotCount <= HeaderAt(b).upper
    ensures forall i :: 0 <= i < |Directory(b)| ==> SlotAt(b, i) == Some(Directory(b)[i])
  {
    hide SlotAt, HeaderAt, CheckSlot, CheckCommon, CommonAt, PairwiseDisjoint;
    var h := HeaderAt(b);
    forall i | 0 <= i < h.slotCount ensures SlotAt(b, i) == Some(Directory(b)[i]) && CheckSlot(Directory(b)[i], h.upper) == None {
      assert SlotOk(SlotAt(b, i), h.upper);
    }
  }

  function CompactedPage(b: Image): Image
    requires HeaderAt(b).slotCount <= MAX_SLOTS && Plannable(Directory(b), HeaderAt(b).upper)
  {
    PlannedPlannable(Directory(b), HeaderAt(b).upper);
    Compacted(b, Directory(b), LiveOrder(Directory(b)))
  }

  lemma FirstOfPath(slots: seq<Slot>, head: nat, path: seq<nat>)
    requires Follows(slots, head, path)
    ensures head == INVALID_SLOT || IsUnused(slots, head)
  {}

  /** The chain of a directory without UNUSED slots is empty. */
  lemma NoUnusedChain(slots: seq<Slot>, head: nat)
    requires forall i :: 0 <= i < |slots| ==> slots[i].state != Unused
    ensures ChainOk(slots, head) <==> head == INVALID_SLOT
  {
    if ChainOk(slots, head) {
      var path: seq<nat> :| Follows(slots, head, path) && Distinct(path) && forall id: nat :: id in path <==> IsUnused(slots, id);
      FirstOfPath(slots, head, path);
    }
    if head == INVALID_SLOT {
      assert Follows(slots, head, []);
    }
  }

  /** A page reads as compactable once its headers and its directory do. */
  lemma CompactableFrom(r: Image, pageNo: u64, slots: seq<Slot>)
    requires CheckCommon(CommonAt(r), pageNo) == None && CheckGeometry(HeaderAt(r)) == None
    requires |slots| == HeaderAt(r).slotCount <= MAX_SLOTS && HeaderAt(r).freeHead == INVALID_SLOT
    requires forall i :: 0 <= i < |slots| ==> SlotAt(r, i) == Some(slots[i])
    requires Plannable(slots, HeaderAt(r).upper)
    ensures Compactable(r, pageNo) && Directory(r) == slots
  {
    hide SlotAt, HeaderAt, CommonAt, CheckCommon, CheckGeometry, PairwiseDisjoint, CheckSlot, ChainOk;
    assert Slots(r, |slots|) == slots;
    NoUnusedChain(slots, INVALID_SLOT);
  }

  /** The compacted page's directory and headers, as the plan says. */
  lemma CompactedReads(b: Image, pageNo: u64)
    requires Compactable(b, pageNo)
    ensures HeaderAt(b).slotCount <= MAX_SLOTS && Plannable(Directory(b), HeaderAt(b).upper)
    ensures InPage(Directory(b), LiveOrder(Directory(b)))
    ensures var r, slots := CompactedPage(b), Directory(b);
      && HeaderAt(r) == HeaderAt(b).(upper := NewUpper(slots, LiveOrder(slots))) && CommonAt(r) == CommonAt(b)
      && Directory(r) == Planned(slots, LiveOrder(slots))
      && forall i :: 0 <= i < |slots| ==> SlotAt(r, i) == Some(Planned(slots, LiveOrder(slots))[i])
  {
    DirectoryPlannable(b, pageNo);
    var slots := Directory(b);
    var order := LiveOrder(slots);
    PlannedPlannable(slots, HeaderAt(b).upper);
    hide Compactable, Plannable, LiveOrder, Planned, NewUpper, Movable, Compacted, SlotAt, HeaderAt, CommonAt, Descends;
    CompactedHeaders(b, slots, order);
    forall i | 0 <= i < |slots| ensures SlotAt(CompactedPage(b), i) == Some(Planned(slots, order)[i]) {
      CompactedSlot(b, slots, order, i);
    }
  }

  lemma CompactableParts(b: Image, pageNo: u64)
    requires Compactable(b, pageNo)
    ensures CheckCommon(CommonAt(b), pageNo) == None && CheckGeometry(HeaderAt(b)) == None && HeaderAt(b).freeHead == INVALID_SLOT
  {
    hide SlotAt, HeaderAt, CommonAt, CheckCommon, PairwiseDisjoint, CheckSlot, ChainOk;
    var slots := Slots(b, HeaderAt(b).slotCount);
    forall i | 0 <= i < |slots| ensures slots[i].state != Unused { assert SlotOk(SlotAt(b, i), HeaderAt(b).upper); }
    NoUnusedChain(slots, HeaderAt(b).freeHead);
  }

  /** The page stays structurally valid, its states unchanged, and upper only grows. */
  lemma CompactionKeepsSound(b: Image, pageNo: u64)
    requires Compactable(b, pageNo)
    ensures HeaderAt(b).slotCount <= MAX_SLOTS && Plannable(Directory(b), HeaderAt(b).upper)
    ensures Compactable(CompactedPage(b), pageNo)
    ensures HeaderAt(b).upper <= HeaderAt(CompactedPage(b)).upper == PAGE_SIZE - LiveLength(Directory(b), HeaderAt(b).slotCount)
  {
    hide SlotAt, HeaderAt, CommonAt, Compactable, CheckCommon, LiveOrder, Planned, NewUpper, CompactedPage, Plannable, LiveLength, Movable, Descends;
    DirectoryPlannable(b, pageNo);
    CompactedReads(b, pageNo);
    var slots, h := Directory(b), HeaderAt(b);
    PlannedPlannable(slots, h.upper);
    NewUpperIsExact(slots, h.upper);
    CompactableParts(b, pageNo);
    CompactableFrom(CompactedPage(b), pageNo, Planned(slots, LiveOrder(slots)));
  }

  /** Every live slot reads the same bytes afterwards. */
  lemma CompactionKeepsTuple(b: Image, pageNo: u64, i: nat)
    requires Compactable(b, pageNo) && i < HeaderAt(b).slotCount && SlotAt(b, i).Some? && SlotAt(b, i).value.state == Normal
    ensures HeaderAt(b).slotCount <= MAX_SLOTS && Plannable(Directory(b), HeaderAt(b).upper)
    ensures var s, r := SlotAt(b, i).value, CompactedPage(b);
      && SlotAt(r, i).Some? && SlotAt(r, i).value.state == Normal && SlotAt(r, i).value.length == s.length
      && End(s) <= PAGE_SIZE && End(SlotAt(r, i).value) <= PAGE_SIZE
      && Source(r, SlotAt(r, i).value) == Source(b, s)
  {
    hide SlotAt, HeaderAt, CommonAt, Compactable, CheckCommon, LiveOrder, Plannable, Planned, Compacted, Top;
    DirectoryPlannable(b, pageNo);
    CompactedReads(b, pageNo);
    var slots, upper := Directory(b), HeaderAt(b).upper;
    var order := LiveOrder(slots);
    PlannedPlannable(slots, upper);
    assert i in order;
    var j := IndexOf(order, i);
    PlannedPlace(slots, upper, order, j);
    CompactedSource(b, slots, upper, order, j);
  }

  lemma CompactedSource(b: Image, slots: seq<Slot>, upper: u16, order: seq<nat>, j: nat)
    requires Descends(slots, upper, order) && Movable(slots, order) && LiveIds(slots, order)
    requires upper <= PAGE_SIZE && j < |order| && |slots| <= MAX_SLOTS
    requires SLOT_BASE + SLOT_SIZE * |slots| <= upper
    ensures var s, top := slots[order[j]], Top(slots, order, j + 1);
      && End(s) <= PAGE_SIZE && 0 <= top && top + s.length <= PAGE_SIZE
      && Compacted(b, slots, order)[top..top + s.length] == Source(b, s)
  {
    hide Descends, Compacted, Movable;
    PlaceOf(slots, upper, order, j);
    hide Top;
    var s, top := slots[order[j]], Top(slots, order, j + 1);
    forall y | top <= y < top + s.length ensures Compacted(b, slots, order)[y] == b[s.offset + (y - top)] {
      CompactedByte(b, slots, upper, order, j, y);
    }
    ShiftedSlice(Compacted(b, slots, order), b, top, s.offset, s.length);
  }

  lemma PlaceOf(slots: seq<Slot>, upper: u16, order: seq<nat>, j: nat)
    requires Descends(slots, upper, order) && upper <= PAGE_SIZE && j < |order|
    ensures upper <= Top(slots, order, j + 1) && End(slots[order[j]]) <= Top(slots, order, j) <= PAGE_SIZE
    ensures Top(slots, order, j + 1) + slots[order[j]].length == Top(slots, order, j)
  {
    hide Descends;
    TopAboveSource(slots, upper, order, j);
    TopAboveSource(slots, upper, order, j + 1);
  }

  lemma ShiftedSlice(a: seq<byte>, b: seq<byte>, at: nat, from: nat, length: nat)
    requires at + length <= |a| && from + length <= |b|
    requires forall y :: at <= y < at + length ==> a[y] == b[from + (y - at)]
    ensures a[at..at + length] == b[from..from + length]
  {}

  lemma CompactedByte(b: Image, slots: seq<Slot>, upper: u16, order: seq<nat>, j: nat, y: nat)
    requires Movable(slots, order) && j < |order| && |slots| <= MAX_SLOTS && SLOT_BASE + SLOT_SIZE * |slots| <= upper
    requires End(slots[order[j]]) <= Top(slots, order, j) && upper <= Top(slots, order, j + 1)
    requires Top(slots, order, j + 1) <= y < Top(slots, order, j + 1) + slots[order[j]].length
    ensures y < PAGE_SIZE && Compacted(b, slots, order)[y] == b[slots[order[j]].offset + (y - Top(slots, order, j + 1))]
  {
    hide Compacted, Moved;
    PackedReadsSource(b, slots, order, |order|, j, y - Top(slots, order, j + 1));
    CompactedElsewhere(b, slots, order, y);
  }

  // ---- A second compaction changes nothing ----

  lemma PlannedKeys(slots: seq<Slot>, upper: u16, order: seq<nat>, i: nat, j: nat)
    requires Descends(slots, upper, order) && InPage(slots, order) && i < j < |order| && |slots| <= MAX_SLOTS
    ensures SourceKey(Planned(slots, order), order[i]) < SourceKey(Planned(slots, order), order[j])
  {
    PlannedPlace(slots, upper, order, i);
    PlannedPlace(slots, upper, order, j);
    TopsDescend(slots, order, i + 1, j);
    assert Top(slots, order, j + 1) == Top(slots, order, j) - slots[order[j]].length;
    hide Planned, Top;
  }

  lemma PlannedNormals(slots: seq<Slot>, upper: u16, order: seq<nat>)
    requires Descends(slots, upper, order) && InPage(slots, order)
    ensures NormalUpTo(Planned(slots, order), |slots|) == NormalUpTo(slots, |slots|)
  {
    hide Planned, Top;
    forall i | 0 <= i < |slots| ensures Planned(slots, order)[i].state == slots[i].state { PlannedCases(slots, upper, order, i); }
    hide Descends;
    SameNormal(slots, Planned(slots, order), |slots|);
  }

  lemma {:induction false} SameNormal(a: seq<Slot>, b: seq<Slot>, n: nat)
    requires |a| == |b| && n <= |a| && forall i :: 0 <= i < |a| ==> a[i].state == b[i].state
    ensures NormalUpTo(a, n) == NormalUpTo(b, n)
  {
    if n > 0 { SameNormal(a, b, n - 1); }
  }

  /** The packed order is the plan's own order again. */
  lemma PlannedOrder(slots: seq<Slot>, upper: u16)
    requires Plannable(slots, upper)
    ensures Movable(slots, LiveOrder(slots))
    ensures LiveOrder(Planned(slots, LiveOrder(slots))) == LiveOrder(slots)
  {
    PlannedPlannable(slots, upper);
    assert |slots| <= MAX_SLOTS;
    hide Plannable, Planned, SourceKey, Descends;
    var order := LiveOrder(slots);
    var planned := Planned(slots, order);
    var ids := NormalUpTo(slots, |slots|);
    PlannedNormals(slots, upper, order);
    forall i, j | 0 <= i < j < |order| ensures BySource(planned)(order[i]) < BySource(planned)(order[j]) {
      PlannedKeys(slots, upper, order, i, j);
    }
    OrderIsLive(planned);
    SameElements(LiveOrder(planned), ids);
    SameElements(order, ids);
    hide NormalUpTo, BySource;
    SortedUnique<nat>(BySource(planned), order, LiveOrder(planned));
  }

  lemma {:induction false} MovedInPlace(b: Image, slots: seq<Slot>, order: seq<nat>, k: nat)
    requires Movable(slots, order) && k <= |order|
    requires forall j :: 0 <= j < k ==> slots[order[j]].offset == Top(slots, order, j + 1)
    ensures Moved(b, slots, order, k) == b
  {
    if k > 0 {
      MovedInPlace(b, slots, order, k - 1);
      Overwritten(b, Top(slots, order, k), Source(b, slots[order[k - 1]]));
    }
  }

  lemma {:induction false} SameTops(a: seq<Slot>, b: seq<Slot>, order: seq<nat>, k: nat)
    requires LiveIds(a, order) && LiveIds(b, order) && k <= |order| && forall j :: 0 <= j < |order| ==> a[order[j]].length == b[order[j]].length
    ensures Top(a, order, k) == Top(b, order, k)
  {
    if k > 0 { SameTops(a, b, order, k - 1); }
  }

  lemma PlannedInPlace(slots: seq<Slot>, upper: u16, order: seq<nat>)
    requires Plannable(slots, upper) && order == LiveOrder(slots)
    ensures Movable(slots, order) && Movable(Planned(slots, order), order)
    ensures NewUpper(Planned(slots, order), order) == NewUpper(slots, order)
    ensures forall j :: 0 <= j < |order| ==> Planned(slots, order)[order[j]].offset == Top(Planned(slots, order), order, j + 1)
  {
    PlannedPlannable(slots, upper);
    var planned := Planned(slots, order);
    PlannedOrder(slots, upper);
    PlannedPlannable(planned, NewUpper(slots, order));
    hide Plannable, Planned, LiveOrder, Descends, Top;
    forall j | 0 <= j < |order| ensures planned[order[j]] == slots[order[j]].(offset := Top(slots, order, j + 1)) {
      PlannedPlace(slots, upper, order, j);
    }
    forall k | 0 <= k <= |order| ensures Top(planned, order, k) == Top(slots, order, k) { SameTops(planned, slots, order, k); }
  }

  lemma PlannedAgain(slots: seq<Slot>, upper: u16, order: seq<nat>, i: nat)
    requires Plannable(slots, upper) && order == LiveOrder(slots) && i < |slots|
    ensures Movable(slots, order) && Movable(Planned(slots, order), order)
    ensures Planned(Planned(slots, order), order)[i] == Planned(slots, order)[i]
  {
    PlannedPlannable(slots, upper);
    PlannedInPlace(slots, upper, order);
    PlannedOrder(slots, upper);
    var planned := Planned(slots, order);
    PlannedPlannable(planned, NewUpper(slots, order));
    hide Plannable, Planned, LiveOrder, Movable;
    PlannedCases(slots, upper, order, i);
    PlannedCases(planned, NewUpper(slots, order), order, i);
    assert slots[i].state in {Normal, Dead} by { hide Descends; PlannableState(slots, upper, i); }
  }

  lemma PlannableState(slots: seq<Slot>, upper: u16, i: nat)
    requires Plannable(slots, upper) && i < |slots|
    ensures slots[i].state in {Normal, Dead}
  {}

  /** A second Compact changes no byte. */
  lemma CompactTwice(b: Image, pageNo: u64)
    requires Compactable(b, pageNo)
    ensures HeaderAt(b).slotCount <= MAX_SLOTS && Plannable(Directory(b), HeaderAt(b).upper)
    ensures var r := CompactedPage(b);
      && HeaderAt(r).slotCount <= MAX_SLOTS && Plannable(Directory(r), HeaderAt(r).upper) && CompactedPage(r) == r
  {
    hide SlotAt, HeaderAt, CommonAt, Compactable, CheckCommon, LiveOrder, Plannable, Planned, Top;
    DirectoryPlannable(b, pageNo);
    CompactedReads(b, pageNo);
    CompactionKeepsSound(b, pageNo);
    var slots, upper, r := Directory(b), HeaderAt(b).upper, CompactedPage(b);
    DirectoryPlannable(r, pageNo);
    var order := LiveOrder(slots);
    var planned := Planned(slots, order);
    PlannedOrder(slots, upper);
    PlannedInPlace(slots, upper, order);
    MovedInPlace(r, planned, order, |order|);
    assert Planned(planned, order) == planned by {
      forall i | 0 <= i < |slots| ensures Planned(planned, order)[i] == planned[i] { PlannedAgain(slots, upper, order, i); }
    }
    PutSameSlots(r, planned, |planned|);
    HeaderCanonical(r);
  }
}
