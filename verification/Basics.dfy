/** Shared vocabulary: optional values, results, and sorting by a strict order. */
module Basics {
  datatype Option<+T> = None | Some(value: T)

  datatype Result<+T, +E> = Ok(value: T) | Err(error: E)

  predicate SortedBy<T>(rank: T -> int, xs: seq<T>)
  {
    forall i, j :: 0 <= i < j < |xs| ==> rank(xs[i]) < rank(xs[j])
  }

  /** The comparison orders the elements of `xs` strictly. */
  predicate RankedApart<T>(rank: T -> int, xs: seq<T>)
  {
    forall i, j :: 0 <= i < j < |xs| ==> rank(xs[i]) != rank(xs[j])
  }

  predicate Distinct<T(==)>(xs: seq<T>)
  {
    forall i, j :: 0 <= i < j < |xs| ==> xs[i] != xs[j]
  }

  /** `x` placed into the sorted sequence `xs`. */
  function Insert<T>(rank: T -> int, x: T, xs: seq<T>): (ys: seq<T>)
    ensures |ys| == |xs| + 1 && multiset(ys) == multiset(xs) + multiset{x}
  {
    if |xs| == 0 then [x]
    else if rank(x) < rank(xs[0]) then
      assert multiset([x] + xs) == multiset{x} + multiset(xs);
      [x] + xs
    else
      assert xs == [xs[0]] + xs[1..];
      [xs[0]] + Insert(rank, x, xs[1..])
  }

  /** The specification of std::sort: the sorted permutation. */
  function Sort<T>(rank: T -> int, xs: seq<T>): (ys: seq<T>)
    ensures |ys| == |xs| && multiset(ys) == multiset(xs)
  {
    if |xs| == 0 then []
    else
      assert xs == [xs[0]] + xs[1..];
      Insert(rank, xs[0], Sort(rank, xs[1..]))
  }

  lemma SameElements<T(!new)>(xs: seq<T>, ys: seq<T>)
    requires multiset(xs) == multiset(ys)
    ensures forall x :: x in xs <==> x in ys
  {
    forall x ensures x in xs <==> x in ys {
      assert x in xs <==> x in multiset(xs);
      assert x in ys <==> x in multiset(ys);
    }
  }

  lemma IndexOf<T>(xs: seq<T>, x: T) returns (i: nat)
    requires x in xs
    ensures i < |xs| && xs[i] == x
  {
    i :| 0 <= i < |xs| && xs[i] == x;
  }

  lemma {:induction false} InsertSorts<T>(rank: T -> int, x: T, xs: seq<T>)
    requires SortedBy(rank, xs) && forall i :: 0 <= i < |xs| ==> rank(xs[i]) != rank(x)
    ensures var ys := Insert(rank, x, xs);
      SortedBy(rank, ys) && (ys[0] == x || (|xs| > 0 && ys[0] == xs[0]))
  {
    if |xs| > 0 && !(rank(x) < rank(xs[0])) {
      InsertSorts(rank, x, xs[1..]);
      var rest := Insert(rank, x, xs[1..]);
      var ys := [xs[0]] + rest;
      assert rank(xs[0]) < rank(rest[0]);
      forall i, j | 0 <= i < j < |ys| ensures rank(ys[i]) < rank(ys[j]) {
        assert ys[j] == rest[j - 1];
        if i > 0 { assert ys[i] == rest[i - 1]; }
      }
    }
  }

  lemma {:induction false} SortSorts<T(!new)>(rank: T -> int, xs: seq<T>)
    requires RankedApart(rank, xs)
    ensures SortedBy(rank, Sort(rank, xs))
    ensures forall x :: x in Sort(rank, xs) <==> x in xs
  {
    SameElements(Sort(rank, xs), xs);
    if |xs| > 0 {
      var rest := xs[1..];
      var tail := Sort(rank, rest);
      SortSorts(rank, rest);
      forall i | 0 <= i < |tail| ensures rank(tail[i]) != rank(xs[0]) {
        assert tail[i] in tail;
        var j := IndexOf(rest, tail[i]);
        assert xs[j + 1] == tail[i];
      }
      InsertSorts(rank, xs[0], tail);
    }
  }

  /** Sorted sequences over the same elements are equal: what std::sort returns is determined. */
  lemma {:induction false} SortedUnique<T(!new)>(rank: T -> int, xs: seq<T>, ys: seq<T>)
    requires SortedBy(rank, xs) && SortedBy(rank, ys)
    requires |xs| == |ys| && forall y :: y in ys <==> y in xs
    ensures xs == ys
  {
    if |xs| > 0 {
      assert xs[0] in ys;
      assert ys[0] in xs;
      LeastFirst(rank, xs, ys);
      forall y ensures y in ys[1..] <==> y in xs[1..] {
        if y in ys[1..] { assert y in xs && y != xs[0]; }
        if y in xs[1..] { assert y in ys && y != ys[0]; }
      }
      SortedUnique(rank, xs[1..], ys[1..]);
      assert xs == [xs[0]] + xs[1..] && ys == [ys[0]] + ys[1..];
    }
  }

  lemma LeastFirst<T>(rank: T -> int, xs: seq<T>, ys: seq<T>)
    requires SortedBy(rank, xs) && SortedBy(rank, ys) && |xs| > 0 && |ys| > 0
    requires xs[0] in ys && ys[0] in xs
    ensures xs[0] == ys[0]
  {}

  function SumBy<T>(f: T -> nat, xs: seq<T>): nat
  {
    if |xs| == 0 then 0 else f(xs[0]) + SumBy(f, xs[1..])
  }

  lemma {:induction false} SumAppend<T>(f: T -> nat, xs: seq<T>, x: T)
    ensures SumBy(f, xs + [x]) == SumBy(f, xs) + f(x)
  {
    if |xs| > 0 {
      assert (xs + [x])[1..] == xs[1..] + [x];
      SumAppend(f, xs[1..], x);
    }
  }

  lemma {:induction false} SumInsert<T>(f: T -> nat, rank: T -> int, x: T, xs: seq<T>)
    ensures SumBy(f, Insert(rank, x, xs)) == f(x) + SumBy(f, xs)
  {
    if |xs| > 0 && !(rank(x) < rank(xs[0])) {
      SumInsert(f, rank, x, xs[1..]);
      assert Insert(rank, x, xs)[1..] == Insert(rank, x, xs[1..]);
    } else {
      assert Insert(rank, x, xs)[1..] == xs;
    }
  }

  /** A sum does not depend on the order. */
  lemma {:induction false} SumSort<T>(f: T -> nat, rank: T -> int, xs: seq<T>)
    ensures SumBy(f, Sort(rank, xs)) == SumBy(f, xs)
  {
    if |xs| > 0 {
      SumSort(f, rank, xs[1..]);
      SumInsert(f, rank, xs[0], Sort(rank, xs[1..]));
    }
  }
}
