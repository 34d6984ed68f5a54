/** CLOCK replacement (src/storage/buffer/clock_replacer.h). */
module ClockReplacement {
  import opened Basics

  /** One reference bit per frame, and the hand. */
  datatype Clock = Clock(referenced: seq<bool>, hand: nat)
  {
    predicate Valid() { hand < |referenced| }
  }

  datatype Sweep = Sweep(clock: Clock, candidate: Option<nat>, visits: nat)

  /** At most `budget` further visits of the search, starting from the hand. */
  function Search(c: Clock, eligible: seq<bool>, budget: nat): (r: Sweep)
    requires c.Valid() && |eligible| == |c.referenced|
    ensures r.clock.Valid() && |r.clock.referenced| == |c.referenced|
    ensures r.candidate.Some? ==> r.candidate.value < |eligible| && eligible[r.candidate.value]
    ensures r.visits <= budget
    decreases budget
  {
    if budget == 0 then Sweep(c, None, 0)
    else
      var moved := Clock(c.referenced, (c.hand + 1) % |c.referenced|);
      if !eligible[c.hand] then
        var rest := Search(moved, eligible, budget - 1);
        rest.(visits := rest.visits + 1)
      else if c.referenced[c.hand] then
        var rest := Search(moved.(referenced := c.referenced[c.hand := false]), eligible, budget - 1);
        rest.(visits := rest.visits + 1)
      else Sweep(moved, Some(c.hand), 1)
  }

  /** One complete attempt: two rotations. */
  function Find(c: Clock, eligible: seq<bool>): Sweep
    requires c.Valid() && |eligible| == |c.referenced|
  {
    Search(c, eligible, 2 * |c.referenced|)
  }

  class ClockReplacer {
    const referenced: array<bool>
    var hand: nat
    var lastPassVisits: nat

    ghost predicate Valid()
      reads this
    {
      hand < referenced.Length
    }

    ghost function View(): Clock
      reads this, referenced
    {
      Clock(referenced[..], hand)
    }

    constructor (frameCount: nat)
      requires frameCount > 0
      ensures Valid() && fresh(referenced) && referenced.Length == frameCount
      ensures View() == Clock(seq(frameCount, _ => false), 0)
    {
      referenced := new bool[frameCount](_ => false);
      hand, lastPassVisits := 0, 0;
    }

    method SetReferenced(frame: nat)
      requires Valid() && frame < referenced.Length
      modifies referenced
      ensures View() == Clock(old(View()).referenced[frame := true], hand)
    {
      referenced[frame] := true;
    }

    method ClearReferenced(frame: nat)
      requires Valid() && frame < referenced.Length
      modifies referenced
      ensures View() == Clock(old(View()).referenced[frame := false], hand)
    {
      referenced[frame] := false;
    }

    method FindCandidate(eligible: seq<bool>) returns (candidate: Option<nat>)
      requires Valid() && |eligible| == referenced.Length
      modifies this`hand, this`lastPassVisits, referenced
      ensures Valid()
      ensures Sweep(View(), candidate, lastPassVisits) == Find(old(View()), eligible)
    {
      lastPassVisits := 0;
      var step := 0;
      ghost var goal := Find(View(), eligible);
      while step < 2 * referenced.Length
        invariant Valid() && 0 <= step <= 2 * referenced.Length
        invariant lastPassVisits == step
        invariant var rest := Search(View(), eligible, 2 * referenced.Length - step);
          goal == rest.(visits := rest.visits + step)
      {
        var frame := hand;
        hand := (hand + 1) % referenced.Length;
        lastPassVisits := lastPassVisits + 1;
        if eligible[frame] {
          if referenced[frame] {
            referenced[frame] := false;
          } else {
            return Some(frame);
          }
        }
        step := step + 1;
      }
      return None;
    }
  }

  // ---- What the search computes ----

  /** The frame visited at step `k`. */
  function At(c: Clock, k: nat): (f: nat)
    requires c.Valid()
    ensures f < |c.referenced|
  {
    (c.hand + k) % |c.referenced|
  }

  /** Visits [0, k) passed over every frame: nothing there was eligible with a clear bit. */
  predicate Passed(c: Clock, eligible: seq<bool>, k: nat)
    requires c.Valid() && |eligible| == |c.referenced|
  {
    forall j :: 0 <= j < k ==> !(eligible[At(c, j)] && !c.referenced[At(c, j)])
  }

  lemma AtLeastOnce(d: int, n: nat)
    ensures d >= 1 ==> d * n >= n
    ensures d <= -1 ==> d * n <= 0 - n
  {}

  lemma MultipleModulo(q: int, r: nat, n: nat)
    requires r < n && q * n + r >= 0
    ensures (q * n + r) % n == r
  {
    var x := q * n + r;
    assert x == (x / n) * n + x % n;
    var d := x / n - q;
    assert d * n == r - x % n;
    AtLeastOnce(d, n);
  }

  lemma SameModulo(x: nat, y: nat, e: int, n: nat)
    requires 0 < n && x == y + e * n
    ensures x % n == y % n
  {
    var q := y / n;
    assert y == q * n + y % n;
    assert x == (q + e) * n + y % n by { assert (q + e) * n == q * n + e * n; }
    MultipleModulo(q + e, y % n, n);
  }

  lemma NextVisit(c: Clock, d: Clock, j: nat)
    requires c.Valid() && |d.referenced| == |c.referenced| && d.hand == (c.hand + 1) % |c.referenced|
    ensures d.Valid() && At(d, j) == At(c, j + 1)
  {
    var n := |c.referenced|;
    SmallModulo(c.hand + 1, n);
    SameModulo(c.hand + (j + 1), d.hand + j, if c.hand + 1 < n then 0 else 1, n);
  }

  lemma VisitsDistinct(c: Clock, i: nat, j: nat)
    requires c.Valid() && i < j < |c.referenced|
    ensures At(c, i) != At(c, j)
  {
    var n := |c.referenced|;
    SmallModulo(c.hand + i, n);
    SmallModulo(c.hand + j, n);
  }

  lemma SmallModulo(x: nat, n: nat)
    requires 0 < n && x < 2 * n
    ensures x % n == if x < n then x else x - n
  {
    if x >= n { assert x == n + (x - n); }
  }

  lemma VisitsCover(c: Clock, f: nat) returns (k: nat)
    requires c.Valid() && f < |c.referenced|
    ensures k < |c.referenced| && At(c, k) == f
  {
    var n := |c.referenced|;
    k := if c.hand <= f then f - c.hand else f + n - c.hand;
    SmallModulo(c.hand + k, n);
  }

  lemma Rotation(c: Clock, k: nat)
    requires c.Valid()
    ensures At(c, |c.referenced| + k) == At(c, k)
  {
    var n := |c.referenced|;
    SameModulo(c.hand + (n + k), c.hand + k, 1, n);
  }

  /** The bits after passing visits [0, k): those of eligible frames visited are clear. */
  predicate Cleared(c: Clock, d: Clock, eligible: seq<bool>, k: nat)
    requires c.Valid() && |eligible| == |c.referenced|
  {
    && |d.referenced| == |c.referenced|
    && (forall j :: 0 <= j < k ==> (eligible[At(c, j)] ==> !d.referenced[At(c, j)]))
    && (forall f :: 0 <= f < |eligible| && !eligible[f] ==> d.referenced[f] == c.referenced[f])
    && (forall f :: 0 <= f < |eligible| && d.referenced[f] ==> c.referenced[f])
    && (forall j :: k <= j < |eligible| ==> d.referenced[At(c, j)] == c.referenced[At(c, j)])
  }

  /** While the first rotation passes frames, the search continues with their bits cleared. */
  lemma {:induction false} SkipPassed(c: Clock, eligible: seq<bool>, budget: nat, k: nat) returns (d: Clock)
    requires c.Valid() && |eligible| == |c.referenced|
    requires k <= |eligible| && k <= budget && Passed(c, eligible, k)
    ensures d.Valid() && d.hand == At(c, k) && Cleared(c, d, eligible, k)
    ensures var rest := Search(d, eligible, budget - k);
      Search(c, eligible, budget) == rest.(visits := rest.visits + k)
    decreases k
  {
    if k == 0 {
      SmallModulo(c.hand, |eligible|);
      return c;
    }
    d := SkipPassed(c, eligible, budget, k - 1);
    d := PassOne(c, d, eligible, k - 1);
  }

  /** One more frame passed. */
  lemma PassOne(c: Clock, d: Clock, eligible: seq<bool>, k: nat) returns (e: Clock)
    requires c.Valid() && d.Valid() && |eligible| == |c.referenced|
    requires k < |eligible| && d.hand == At(c, k) && Cleared(c, d, eligible, k)
    requires !(eligible[At(c, k)] && !c.referenced[At(c, k)])
    ensures e.Valid() && e.hand == At(c, k + 1) && Cleared(c, e, eligible, k + 1)
    ensures forall budget: nat :: budget > 0 ==>
      var rest := Search(e, eligible, budget - 1);
      Search(d, eligible, budget) == rest.(visits := rest.visits + 1)
  {
    var f := d.hand;
    e := Clock(if eligible[f] then d.referenced[f := false] else d.referenced, (f + 1) % |eligible|);
    HandAdvances(c, d, e, k);
    assert d.referenced[f] == c.referenced[f];
    forall j | k + 1 <= j < |eligible| ensures e.referenced[At(c, j)] == c.referenced[At(c, j)] {
      VisitsDistinct(c, k, j);
    }
    forall j | 0 <= j < k + 1 && eligible[At(c, j)] ensures !e.referenced[At(c, j)] {}
  }

  lemma HandAdvances(c: Clock, d: Clock, e: Clock, k: nat)
    requires c.Valid() && |d.referenced| == |e.referenced| == |c.referenced| && d.hand == At(c, k)
    requires e.hand == (d.hand + 1) % |c.referenced|
    ensures e.hand == At(c, k + 1)
  {
    var n := |c.referenced|;
    var x := c.hand + k;
    assert x == (x / n) * n + x % n;
    SmallModulo(x % n + 1, n);
    SameModulo(x + 1, x % n + 1, x / n, n);
  }

  /** `k` is the first visit satisfying eligibility, and a clear bit if `clear`. */
  predicate FirstVisit(c: Clock, eligible: seq<bool>, clear: bool, k: nat)
    requires c.Valid() && |eligible| == |c.referenced|
  {
    && k < |eligible| && eligible[At(c, k)] && (clear ==> !c.referenced[At(c, k)])
    && (forall j :: 0 <= j < k ==> !(eligible[At(c, j)] && (clear ==> !c.referenced[At(c, j)])))
  }

  /** Some eligible frame has a clear bit: the first such frame in hand order is chosen in one rotation. */
  lemma FindsClearFrame(c: Clock, eligible: seq<bool>, k: nat)
    requires c.Valid() && |eligible| == |c.referenced| && FirstVisit(c, eligible, true, k)
    ensures var r := Find(c, eligible);
      r.candidate == Some(At(c, k)) && r.visits == k + 1
      && r.clock.hand == At(c, k + 1) && Cleared(c, r.clock, eligible, k)
  {
    var d := SkipPassed(c, eligible, 2 * |eligible|, k);
    assert d.referenced[At(c, k)] == c.referenced[At(c, k)];
    HandAdvances(c, d, Clock(d.referenced, (d.hand + 1) % |eligible|), k);
  }

  /**
   * Every eligible frame is referenced: the first rotation clears their bits and the second
   * returns the first eligible frame in hand order.
   */
  lemma FindsReferencedFrame(c: Clock, eligible: seq<bool>, k: nat)
    requires c.Valid() && |eligible| == |c.referenced| && FirstVisit(c, eligible, false, k)
    requires Passed(c, eligible, |eligible|)
    ensures var r := Find(c, eligible);
      r.candidate == Some(At(c, k)) && r.visits == |eligible| + k + 1
      && r.clock.hand == At(c, k + 1) && Cleared(c, r.clock, eligible, |eligible|)
  {
    var n := |eligible|;
    var d := SkipPassed(c, eligible, 2 * n, n);
    Rotation(c, 0);
    SmallModulo(c.hand, n);
    assert d.hand == c.hand;
    assert forall j :: At(d, j) == At(c, j);
    assert Passed(d, eligible, k);
    var e := SkipPassed(d, eligible, n, k);
    assert !d.referenced[At(c, k)];
    assert !e.referenced[At(c, k)];
    HandAdvances(c, e, Clock(e.referenced, (e.hand + 1) % n), k);
    forall f | 0 <= f < n && eligible[f] ensures !e.referenced[f] {
      var j := VisitsCover(c, f);
      assert !d.referenced[At(c, j)];
    }
  }

  /** The search fails exactly when no frame is eligible, after two full rotations. */
  lemma FindsNothing(c: Clock, eligible: seq<bool>)
    requires c.Valid() && |eligible| == |c.referenced|
    ensures Find(c, eligible).candidate == None <==> forall f :: 0 <= f < |eligible| ==> !eligible[f]
    ensures Find(c, eligible).candidate == None ==> Find(c, eligible) == Sweep(c, None, 2 * |eligible|)
  {
    if f :| 0 <= f < |eligible| && eligible[f] {
      var j := VisitsCover(c, f);
      var k := LeastVisit(c, eligible, false, j);
      if Passed(c, eligible, |eligible|) {
        FindsReferencedFrame(c, eligible, k);
      } else {
        var i :| 0 <= i < |eligible| && eligible[At(c, i)] && !c.referenced[At(c, i)];
        var m := LeastVisit(c, eligible, true, i);
        FindsClearFrame(c, eligible, m);
      }
    } else {
      SearchesInVain(c, eligible, 2 * |eligible|);
      Rotation(c, 0);
      Rotation(c, |eligible|);
      SmallModulo(c.hand, |eligible|);
    }
  }

  lemma {:induction false} LeastVisit(c: Clock, eligible: seq<bool>, clear: bool, j: nat) returns (k: nat)
    requires c.Valid() && |eligible| == |c.referenced| && j < |eligible|
    requires eligible[At(c, j)] && (clear ==> !c.referenced[At(c, j)])
    ensures FirstVisit(c, eligible, clear, k)
  {
    k := 0;
    while !(eligible[At(c, k)] && (clear ==> !c.referenced[At(c, k)]))
      invariant k <= j
      invariant forall i :: 0 <= i < k ==> !(eligible[At(c, i)] && (clear ==> !c.referenced[At(c, i)]))
      decreases j - k
    {
      k := k + 1;
    }
  }

  lemma {:induction false} SearchesInVain(c: Clock, eligible: seq<bool>, budget: nat)
    requires c.Valid() && |eligible| == |c.referenced|
    requires forall f :: 0 <= f < |eligible| ==> !eligible[f]
    ensures Search(c, eligible, budget) == Sweep(Clock(c.referenced, At(c, budget)), None, budget)
    decreases budget
  {
    if budget == 0 {
      SmallModulo(c.hand, |eligible|);
    } else {
      var moved := Clock(c.referenced, (c.hand + 1) % |c.referenced|);
      SearchesInVain(moved, eligible, budget - 1);
      NextVisit(c, moved, budget - 1);
    }
  }
}
