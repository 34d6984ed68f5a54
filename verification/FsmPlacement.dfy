/** The free-space map's answer and the heap page's Insert agree about room. */
module FsmPlacement {
  import opened Basics
  import opened Bytes
  import opened PageChecksum
  import opened TupleLayouts
  import opened HeapFormat
  import opened HeapStructure
  import opened HeapValidator
  import opened HeapPages
  import FsmCategories
  import FsmIndex

  /** The contiguous gap between lower and upper. */
  function Gap(b: Image): nat
  {
    var h := HeaderAt(b);
    if h.upper > h.lower then h.upper - h.lower else 0
  }

  /** With categories computed from the pages' real gaps, Insert into the candidate never lacks space. */
  lemma CandidateAcceptsInsert(pages: map<u64, byte>, heap: map<u64, Image>, history: seq<Layout>, tuple: seq<byte>, p: u64)
    requires AllPacked(history) && |tuple| >= 1
    requires forall q :: q in pages ==> q in heap && pages[q] == FsmCategories.CategoryForFreeBytes(Gap(heap[q]))
    requires FsmIndex.IsCandidate(pages, |tuple|, Ok(Some(p)))
    ensures p in heap && InsertOutcome(heap[p], p, history, tuple) != Err(InsufficientSpace)
  {
    hide CheckStructure, CheckStored, HeaderAt;
    var gaps := map q | q in heap :: Gap(heap[q]);
    FsmIndex.CandidateIsUsable(pages, gaps, |tuple|, p);
    StructureIsExact(heap[p], p);
    hide Sound;
  }
}
