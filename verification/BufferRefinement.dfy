/** The pool over its disk behaves like a map from pages to images, over whole runs. */
module BufferRefinement {
  import opened PageChecksum
  import opened BufferState
  import opened BufferSystem
  import opened BufferInvariant
  import opened BufferTheorems
  import opened BufferHistory

  /** The steps that publish a new image of `page`, or discard its file. */
  predicate Rewrites(s: System, l: Label, page: PageId)
  {
    match l
    case Guards(MarkDirty(t)) =>
      t in s.tasks && s.tasks[t].Guard? && s.tasks[t].frame < |s.pool.frames| && s.pool.frames[s.tasks[t].frame].page == page
    case Creates(FinishNew(t)) => t in s.tasks && s.tasks[t].Build? && s.tasks[t].page == page
    case Cleans(DiscardDrained(t, _)) => t in s.tasks && s.tasks[t].Drain? && s.tasks[t].file == page.file
    case _ => false
  }

  lemma OtherMarkDirty(s: System, t: TaskId, page: PageId)
    requires s.Wf() && CanMutate(s, t) && !Rewrites(s, Guards(MarkDirty(t)), page) && page in s.published
    ensures var s' := DoMarkDirty(s, t);
      page in s'.published && s'.published[page] == s.published[page]
  {}

  lemma OtherFinishNew(s: System, t: TaskId, page: PageId)
    requires s.Wf() && CanFinishNew(s, t) && !Rewrites(s, Creates(FinishNew(t)), page) && page in s.published
    ensures var s' := DoFinishNew(s, t);
      page in s'.published && s'.published[page] == s.published[page]
  {}

  /** Every other step leaves the page's published image alone: nothing is lost, nothing comes back. */
  lemma ImageStays(s: System, l: Label, page: PageId)
    requires s.Wf() && Enabled(s, l) && page in s.published && !Rewrites(s, l, page)
    ensures page in Apply(s, l).published && Apply(s, l).published[page] == s.published[page]
  {
    hide Rewrites, DoMarkDirty, DoFinishNew, DoFinishRegister, DoDiscard, CanDiscard;
    if Publication(l) {
      match l {
        case Guards(MarkDirty(t)) => OtherMarkDirty(s, t, page);
        case Creates(FinishNew(t)) => OtherFinishNew(s, t, page);
        case Fetches(FinishRegister(t)) => RegistrationAdopts(s, t, page);
        case Cleans(DiscardDrained(t, freed)) => OtherDiscard(s, t, freed, page);
      }
    } else {
      OnlyPublicationsChange(s, l) by { hide Enabled, Apply; }
    }
  }

  lemma OtherDiscard(s: System, t: TaskId, freed: seq<nat>, page: PageId)
    requires s.Wf() && CanDiscard(s, t, freed) && page in s.published
    requires !Rewrites(s, Cleans(DiscardDrained(t, freed)), page)
    ensures page in DoDiscard(s, t, freed).published && DoDiscard(s, t, freed).published[page] == s.published[page]
  {
    DiscardDrops(s, t, freed, page);
    hide DoDiscard;
  }

  ghost predicate NeverRewritten(s: System, labels: seq<Label>, page: PageId)
    requires Runs(s, labels)
    decreases |labels|
  {
    |labels| == 0 || (!Rewrites(s, labels[0], page) && NeverRewritten(Apply(s, labels[0]), labels[1..], page))
  }

  lemma {:induction false} ImageStaysOverRun(s: System, labels: seq<Label>, page: PageId)
    requires Runs(s, labels) && NeverRewritten(s, labels, page) && page in s.published
    ensures page in After(s, labels).published && After(s, labels).published[page] == s.published[page]
    decreases |labels|
  {
    if |labels| > 0 {
      ImageStays(s, labels[0], page) by { hide Enabled, Apply; }
      ImageStaysOverRun(Apply(s, labels[0]), labels[1..], page) by { hide Enabled, Apply; }
    }
    hide Enabled, Apply, Rewrites;
  }

  /**
   * Whatever happens in between (hits, joined loads, writebacks, evictions, reloads, failed and
   * torn writes), a guard on a page sees the image published last, up to its checksum bytes.
   */
  lemma ReadsLastPublished(s: System, labels: seq<Label>, t: TaskId)
    requires Inv(s) && Runs(s, labels)
    requires var r := After(s, labels);
      t in r.tasks && r.tasks[t].Guard? && !r.tasks[t].mutated && r.tasks[t].frame < |r.pool.frames|
    requires var page := After(s, labels).pool.frames[After(s, labels).tasks[t].frame].page;
      page in s.published && NeverRewritten(s, labels, page)
    ensures var r := After(s, labels);
      var frame := r.pool.frames[r.tasks[t].frame];
      SameContent(frame.bytes, s.published[frame.page])
  {
    var r := After(s, labels);
    RunKeeps(s, labels) by { hide Inv, After, NeverRewritten, Runs; }
    GuardSeesPublished(r, t) by { hide Inv, After, NeverRewritten, Runs, SameContent; }
    ImageStaysOverRun(s, labels, r.pool.frames[r.tasks[t].frame].page) by { hide Inv, After, NeverRewritten, Runs, SameContent; }
    hide *;
  }
}
