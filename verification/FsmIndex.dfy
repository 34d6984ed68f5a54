/** FsmCandidateIndex (src/storage/heap/fsm_candidate_index.cpp): buckets and reverse map over one plain map. */
module FsmIndex {
  import opened Basics
  import opened Bytes
  import opened TupleLayouts
  import opened HeapFormat
  import opened FsmCategories

  const CATEGORY_COUNT: nat := 256

  datatype IndexError = InvalidPageNumber | TupleRequestTooLarge

  predicate ValidPage(page: u64) { page != 0 && page != U64_MAX }

  predicate Sufficient(pages: map<u64, byte>, required: nat, page: u64)
  {
    page in pages && MinimumCategory(required).Some? && MinimumCategory(required).value <= pages[page]
  }

  /** (category, page) order. */
  predicate Precedes(pages: map<u64, byte>, p: u64, q: u64)
    requires p in pages && q in pages
  {
    pages[p] < pages[q] || (pages[p] == pages[q] && p <= q)
  }

  /** The answer: the least (category, page number) among the sufficient pages, if any. */
  predicate IsCandidate(pages: map<u64, byte>, required: nat, r: Result<Option<u64>, IndexError>)
  {
    match r
    case Err(error) => error == TupleRequestTooLarge && required > MAX_RAW_TUPLE_SIZE
    case Ok(None) => required <= MAX_RAW_TUPLE_SIZE && forall q :: q in pages ==> !Sufficient(pages, required, q)
    case Ok(Some(p)) =>
      Sufficient(pages, required, p) && forall q :: q in pages && Sufficient(pages, required, q) ==> Precedes(pages, p, q)
  }

  /** At most one answer fits. */
  lemma CandidateIsUnique(pages: map<u64, byte>, required: nat, a: Result<Option<u64>, IndexError>, b: Result<Option<u64>, IndexError>)
    requires IsCandidate(pages, required, a) && IsCandidate(pages, required, b)
    ensures a == b
  {
    match (a, b) {
      case (Ok(Some(p)), Ok(Some(q))) => assert Precedes(pages, p, q) && Precedes(pages, q, p);
      case _ =>
    }
  }

  /** If the categories were computed from real gaps, an insert of that size fits the page returned. */
  lemma CandidateIsUsable(pages: map<u64, byte>, gaps: map<u64, nat>, required: nat, p: u64)
    requires forall q :: q in pages ==> q in gaps && pages[q] == CategoryForFreeBytes(gaps[q])
    requires required >= 1 && IsCandidate(pages, required, Ok(Some(p)))
    ensures p in gaps && required + SLOT_SIZE <= gaps[p]
  {
    assert required <= MAX_RAW_TUPLE_SIZE;
    SufficientCategoryFits(required, gaps[p]);
  }

  /** And a page with 31 bytes to spare keeps the answer from being empty. */
  lemma CandidateIsFound(pages: map<u64, byte>, gaps: map<u64, nat>, required: nat, q: u64, r: Result<Option<u64>, IndexError>)
    requires q in pages && q in gaps && pages[q] == CategoryForFreeBytes(gaps[q])
    requires required + 31 <= UsableBytes(gaps[q]) && IsCandidate(pages, required, r)
    ensures r.Ok? && r.value.Some?
  {
    SpaciousGapIsFound(required, gaps[q]);
    assert Sufficient(pages, required, q);
  }

  lemma LeastOf(pages: set<u64>) returns (p: u64)
    requires pages != {}
    ensures p in pages && forall q :: q in pages ==> p <= q
  {
    var x :| x in pages;
    if pages == {x} {
      p := x;
    } else {
      var rest := LeastOf(pages - {x});
      p := if x < rest then x else rest;
      forall q | q in pages ensures p <= q {
        if q != x { assert q in pages - {x}; }
      }
    }
  }

  class FsmCandidateIndex {
    var buckets: seq<set<u64>>
    var pageCategories: map<u64, byte>

    /** Each tracked page is in the bucket of its category and in no other. */
    ghost predicate Valid()
      reads this
    {
      && |buckets| == CATEGORY_COUNT
      && forall c, p: u64 :: 0 <= c < CATEGORY_COUNT ==> (p in buckets[c] <==> p in pageCategories && pageCategories[p] == c)
    }

    constructor ()
      ensures Valid() && pageCategories == map[]
    {
      buckets := seq(CATEGORY_COUNT, _ => {});
      pageCategories := map[];
    }

    method Upsert(page: u64, category: byte) returns (ok: bool)
      requires Valid()
      modifies this
      ensures Valid() && (ok <==> ValidPage(page))
      ensures pageCategories == if ok then old(pageCategories)[page := category] else old(pageCategories)
    {
      if !ValidPage(page) {
        return false;
      }
      if page in pageCategories {
        var existing := pageCategories[page];
        if existing == category {
          assert pageCategories[page := category] == pageCategories;
          return true;
        }
        buckets := buckets[category := buckets[category] + {page}];
        buckets := buckets[existing := buckets[existing] - {page}];
      } else {
        buckets := buckets[category := buckets[category] + {page}];
      }
      pageCategories := pageCategories[page := category];
      return true;
    }

    method Remove(page: u64) returns (ok: bool)
      requires Valid()
      modifies this
      ensures Valid() && (ok <==> ValidPage(page))
      ensures pageCategories == if ok then old(pageCategories) - {page} else old(pageCategories)
    {
      if !ValidPage(page) {
        return false;
      }
      if page !in pageCategories {
        assert pageCategories - {page} == pageCategories;
        return true;
      }
      var existing := pageCategories[page];
      buckets := buckets[existing := buckets[existing] - {page}];
      pageCategories := pageCategories - {page};
      return true;
    }

    method Clear()
      modifies this
      ensures Valid() && pageCategories == map[]
    {
      buckets := seq(CATEGORY_COUNT, _ => {});
      pageCategories := map[];
    }

    method Size() returns (n: nat)
      requires Valid()
      ensures n == |pageCategories|
    {
      return |pageCategories|;
    }

    /** The first nonempty bucket from the minimum category, and its least page. */
    method FindCandidate(required: nat) returns (r: Result<Option<u64>, IndexError>)
      requires Valid()
      ensures IsCandidate(pageCategories, required, r)
    {
      var minimum := MinimumCategory(required);
      if minimum == None {
        return Err(TupleRequestTooLarge);
      }
      var category: nat := minimum.value;
      while category < CATEGORY_COUNT
        invariant minimum.value <= category <= CATEGORY_COUNT
        invariant forall c :: minimum.value <= c < category ==> buckets[c] == {}
      {
        if buckets[category] != {} {
          ghost var least := LeastOf(buckets[category]);
          var p :| p in buckets[category] && forall q :: q in buckets[category] ==> p <= q;
          forall q | q in pageCategories && Sufficient(pageCategories, required, q) ensures Precedes(pageCategories, p, q) {
            assert q in buckets[pageCategories[q]];
          }
          return Ok(Some(p));
        }
        category := category + 1;
      }
      forall q | q in pageCategories ensures !Sufficient(pageCategories, required, q) {
        assert q in buckets[pageCategories[q]];
      }
      return Ok(None);
    }
  }
}
