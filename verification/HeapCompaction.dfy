/** In-place compaction (PlanCompaction and ApplyCompaction of src/storage/heap/heap_page.cpp). */
module HeapCompaction {
  import opened Basics
  import opened Bytes
  import opened PageChecksum
  import opened HeapFormat
  import opened HeapStructure

  // ---- The plan ----

  function NormalUpTo(slots: seq<Slot>, i: nat): (ids: seq<nat>)
    requires i <= |slots|
    ensures forall k :: 0 <= k < |ids| ==> ids[k] < i && slots[ids[k]].state == Normal
  {
    if i == 0 then [] else NormalUpTo(slots, i - 1) + (if slots[i - 1].state == Normal then [i - 1] else [])
  }

  lemma {:induction false} NormalIff(slots: seq<Slot>, i: nat, j: nat)
    requires i <= |slots|
    ensures j in NormalUpTo(slots, i) <==> j < i && slots[j].state == Normal
  {
    if i > 0 { NormalIff(slots, i - 1, j); }
  }

  lemma {:induction false} NormalIncreases(slots: seq<Slot>, i: nat)
    requires i <= |slots|
    ensures forall j, k :: 0 <= j < k < |NormalUpTo(slots, i)| ==> NormalUpTo(slots, i)[j] < NormalUpTo(slots, i)[k]
  {
    if i > 0 { NormalIncreases(slots, i - 1); }
  }

  /** Descending source offset, then ascending slot. */
  function SourceKey(slots: seq<Slot>, id: nat): int
  {
    if id < |slots| then id - slots[id].offset * 0x1_0000 else 0x1_0000 + id
  }

  function BySource(slots: seq<Slot>): nat -> int { (id: nat) => SourceKey(slots, id) }

  function LiveOrder(slots: seq<Slot>): seq<nat> { Sort(BySource(slots), NormalUpTo(slots, |slots|)) }

  /** A validated directory of NORMAL and DEAD slots. */
  predicate Plannable(slots: seq<Slot>, upper: u16)
  {
    && |slots| <= MAX_SLOTS && upper <= PAGE_SIZE && PairwiseDisjoint(slots)
    && forall i :: 0 <= i < |slots| ==> slots[i].state in {Normal, Dead} && CheckSlot(slots[i], upper) == None
  }

  predicate LiveIds(slots: seq<Slot>, order: seq<nat>)
  {
    forall k :: 0 <= k < |order| ==> order[k] < |slots| && slots[order[k]].state == Normal
  }

  /** The tuple at position `k` ends at or below the start of the one before it. */
  predicate Below(slots: seq<Slot>, order: seq<nat>, k: nat)
    requires 1 <= k < |order| && LiveIds(slots, order)
  {
    End(slots[order[k]]) <= slots[order[k - 1]].offset
  }

  /** Live tuples in descending order, one wholly below the other, all inside [upper, PAGE_SIZE). */
  predicate Descends(slots: seq<Slot>, upper: u16, order: seq<nat>)
  {
    && LiveIds(slots, order)
    && (forall id: nat :: id < |slots| && slots[id].state == Normal ==> id in order)
    && (forall i, j :: 0 <= i < j < |order| ==> order[i] != order[j])
    && (forall k :: 0 <= k < |order| ==> upper <= slots[order[k]].offset && 0 < slots[order[k]].length)
    && (|order| > 0 ==> End(slots[order[0]]) <= PAGE_SIZE)
    && (forall k :: 1 <= k < |order| ==> Below(slots, order, k))
  }

  lemma OrderedPair(slots: seq<Slot>, upper: u16, i: nat, j: nat)
    requires Plannable(slots, upper) && i < |slots| && j < |slots| && i != j
    requires slots[i].state == Normal && slots[j].state == Normal && SourceKey(slots, i) < SourceKey(slots, j)
    ensures End(slots[j]) <= slots[i].offset
  {
    assert Apart(slots[if i < j then i else j], slots[if i < j then j else i]);
    assert CheckSlot(slots[i], upper) == None && CheckSlot(slots[j], upper) == None;
  }

  lemma OrderIsLive(slots: seq<Slot>)
    requires |slots| <= MAX_SLOTS
    ensures var order := LiveOrder(slots);
      && LiveIds(slots, order) && SortedBy(BySource(slots), order)
      && (forall i, j :: 0 <= i < j < |order| ==> SourceKey(slots, order[i]) < SourceKey(slots, order[j]))
      && (forall id: nat :: id < |slots| && slots[id].state == Normal ==> id in order)
  {
    var ids, order := NormalUpTo(slots, |slots|), LiveOrder(slots);
    NormalIncreases(slots, |slots|);
    forall i, j | 0 <= i < j < |ids| ensures SourceKey(slots, ids[i]) != SourceKey(slots, ids[j]) {}
    SortSorts(BySource(slots), ids);
    forall k | 0 <= k < |order| ensures order[k] < |slots| && slots[order[k]].state == Normal {
      assert order[k] in order;
      NormalIff(slots, |slots|, order[k]);
    }
    forall id: nat | id < |slots| && slots[id].state == Normal ensures id in order { NormalIff(slots, |slots|, id); }
    forall i, j | 0 <= i < j < |order| ensures SourceKey(slots, order[i]) < SourceKey(slots, order[j]) {
      assert BySource(slots)(order[i]) < BySource(slots)(order[j]);
    }
  }

  lemma OrderDescends(slots: seq<Slot>, upper: u16)
    requires Plannable(slots, upper)
    ensures Descends(slots, upper, LiveOrder(slots))
  {
    var order := LiveOrder(slots);
    OrderIsLive(slots);
    hide LiveOrder, Plannable, SourceKey, BySource, SortedBy;
    forall k | 0 <= k < |order| ensures upper <= slots[order[k]].offset && 0 < slots[order[k]].length && End(slots[order[k]]) <= PAGE_SIZE {
      LiveSlotBounds(slots, upper, order[k]);
    }
    forall k | 1 <= k < |order| ensures Below(slots, order, k) {
      assert SourceKey(slots, order[k - 1]) < SourceKey(slots, order[k]);
      OrderedPair(slots, upper, order[k - 1], order[k]);
    }
  }

  lemma LiveSlotBounds(slots: seq<Slot>, upper: u16, i: nat)
    requires Plannable(slots, upper) && i < |slots| && slots[i].state == Normal
    ensures upper <= slots[i].offset && 0 < slots[i].length && End(slots[i]) <= PAGE_SIZE
  {
    assert CheckSlot(slots[i], upper) == None;
  }

  /** The new upper once the first `k` live tuples are packed against the page end. */
  function Top(slots: seq<Slot>, order: seq<nat>, k: nat): int
    requires k <= |order| && LiveIds(slots, order)
  {
    if k == 0 then PAGE_SIZE else Top(slots, order, k - 1) - slots[order[k - 1]].length
  }

  /** Packing only moves tuples towards the page end, so the new upper never drops below the old one. */
  lemma {:induction false} TopAboveSource(slots: seq<Slot>, upper: u16, order: seq<nat>, k: nat)
    requires Descends(slots, upper, order) && k <= |order| && upper <= PAGE_SIZE
    ensures upper <= Top(slots, order, k) <= PAGE_SIZE
    ensures k < |order| ==> End(slots[order[k]]) <= Top(slots, order, k) && slots[order[k]].offset <= Top(slots, order, k + 1)
    ensures k > 0 ==> slots[order[k - 1]].offset <= Top(slots, order, k)
  {
    if k > 0 {
      TopAboveSource(slots, upper, order, k - 1);
      if k < |order| { assert Below(slots, order, k); }
    }
  }

  lemma {:induction false} TopsDescend(slots: seq<Slot>, order: seq<nat>, i: nat, j: nat)
    requires i <= j <= |order| && LiveIds(slots, order)
    ensures Top(slots, order, j) <= Top(slots, order, i)
    decreases j - i
  {
    if i < j { TopsDescend(slots, order, i, j - 1); }
  }

  /** DEAD slots give up their bytes. */
  function Reclaimed(slots: seq<Slot>): (r: seq<Slot>)
    ensures |r| == |slots|
  {
    seq(|slots|, i requires 0 <= i < |slots| => if slots[i].state == Dead then slots[i].(offset := 0, length := 0) else slots[i])
  }

  function PlannedUpTo(slots: seq<Slot>, order: seq<nat>, k: nat): (r: seq<Slot>)
    requires k <= |order| && LiveIds(slots, order) && forall j :: 0 <= j <= k ==> 0 <= Top(slots, order, j) <= U16_MAX
    ensures |r| == |slots|
  {
    if k == 0 then Reclaimed(slots)
    else
      var id := order[k - 1];
      PlannedUpTo(slots, order, k - 1)[id := slots[id].(offset := Top(slots, order, k))]
  }

  predicate InPage(slots: seq<Slot>, order: seq<nat>)
  {
    LiveIds(slots, order) && forall j :: 0 <= j <= |order| ==> 0 <= Top(slots, order, j) <= PAGE_SIZE
  }

  lemma StaysInPage(slots: seq<Slot>, upper: u16, order: seq<nat>)
    requires Descends(slots, upper, order) && upper <= PAGE_SIZE
    ensures InPage(slots, order)
  {
    forall j | 0 <= j <= |order| ensures 0 <= Top(slots, order, j) <= PAGE_SIZE { TopAboveSource(slots, upper, order, j); }
  }

  lemma {:induction false} PlannedSlot(slots: seq<Slot>, order: seq<nat>, k: nat, i: nat)
    requires InPage(slots, order) && k <= |order| && i < |slots|
    requires forall a, b :: 0 <= a < b < |order| ==> order[a] != order[b]
    ensures forall j :: 0 <= j < k && order[j] == i ==> PlannedUpTo(slots, order, k)[i] == slots[i].(offset := Top(slots, order, j + 1))
    ensures (forall j :: 0 <= j < k ==> order[j] != i) ==> PlannedUpTo(slots, order, k)[i] == Reclaimed(slots)[i]
  {
    if k > 0 { PlannedSlot(slots, order, k - 1, i); }
    hide Reclaimed, Top;
  }

  // ---- The moves ----

  function Source(b: Image, s: Slot): seq<byte>
    requires End(s) <= PAGE_SIZE
  {
    b[s.offset..End(s)]
  }

  predicate Movable(slots: seq<Slot>, order: seq<nat>)
  {
    InPage(slots, order) && forall k :: 0 <= k < |order| ==> End(slots[order[k]]) <= PAGE_SIZE
  }

  /** The page after the first `k` memmoves. */
  function Moved(b: Image, slots: seq<Slot>, order: seq<nat>, k: nat): (r: Image)
    requires Movable(slots, order) && k <= |order|
    ensures |r| == PAGE_SIZE
  {
    if k == 0 then b
    else
      var page, s := Moved(b, slots, order, k - 1), slots[order[k - 1]];
      Write(page, Top(slots, order, k), Source(page, s))
  }

  lemma CanMove(slots: seq<Slot>, upper: u16, order: seq<nat>)
    requires Descends(slots, upper, order) && upper <= PAGE_SIZE
    ensures Movable(slots, order)
  {
    StaysInPage(slots, upper, order);
    forall k | 0 <= k < |order| ensures End(slots[order[k]]) <= PAGE_SIZE { TopAboveSource(slots, upper, order, k); }
  }

  /** One memmove. */
  lemma MoveStep(b: Image, slots: seq<Slot>, order: seq<nat>, k: nat, x: nat)
    requires Movable(slots, order) && k < |order| && x < PAGE_SIZE
    ensures var s, top := slots[order[k]], Top(slots, order, k + 1);
      Moved(b, slots, order, k + 1)[x] ==
        if top <= x < top + s.length then Moved(b, slots, order, k)[s.offset + (x - top)] else Moved(b, slots, order, k)[x]
  {}

  /** No move overwrites an unread source: below the packed area nothing has changed. */
  lemma {:induction false} UnreadSourcesIntact(b: Image, slots: seq<Slot>, order: seq<nat>, k: nat, x: nat)
    requires Movable(slots, order) && k <= |order| && x < Top(slots, order, k)
    ensures Moved(b, slots, order, k)[x] == b[x]
  {
    if k > 0 {
      MoveStep(b, slots, order, k - 1, x);
      UnreadSourcesIntact(b, slots, order, k - 1, x);
    }
  }

  /** Each packed tuple reads the bytes it had at its source. */
  lemma {:induction false} PackedReadsSource(b: Image, slots: seq<Slot>, order: seq<nat>, k: nat, j: nat, x: nat)
    requires Movable(slots, order) && j < k <= |order| && End(slots[order[j]]) <= Top(slots, order, j)
    requires x < slots[order[j]].length
    ensures 0 <= Top(slots, order, j + 1) + x < Top(slots, order, j) <= PAGE_SIZE
    ensures Moved(b, slots, order, k)[Top(slots, order, j + 1) + x] == b[slots[order[j]].offset + x]
    decreases k
  {
    hide Moved;
    assert 0 <= Top(slots, order, j) <= PAGE_SIZE && 0 <= Top(slots, order, j + 1);
    MoveStep(b, slots, order, k - 1, Top(slots, order, j + 1) + x);
    if j == k - 1 {
      UnreadSourcesIntact(b, slots, order, j, slots[order[j]].offset + x);
    } else {
      PackedReadsSource(b, slots, order, k - 1, j, x);
      TopsDescend(slots, order, j + 1, k - 1);
    }
  }
}
