/** What one step can change: published images, bounds, pinned frames, the physical count. */
module BufferHistory {
  import opened Basics
  import opened PageChecksum
  import opened ClockReplacement
  import opened BufferState
  import opened BufferSystem
  import opened BufferInvariant
  import opened BufferPins
  import opened BufferPreservation

  // ---- Who may change the abstract map ----

  /** The steps that publish or drop images. */
  predicate Publication(l: Label)
  {
    match l
    case Guards(MarkDirty(_)) => true
    case Creates(FinishNew(_)) => true
    case Fetches(FinishRegister(_)) => true
    case Cleans(DiscardDrained(_, _)) => true
    case _ => false
  }

  lemma PublishedByStarts(s: System, step: Start)
    requires s.Wf() && StartsEnabled(s, step)
    ensures ApplyStarts(s, step).published == s.published
  {}

  lemma PublishedByFetches(s: System, step: Fetching)
    requires s.Wf() && FetchesEnabled(s, step) && !step.FinishRegister?
    ensures ApplyFetches(s, step).published == s.published
  {}

  lemma PublishedByReplaces(s: System, step: Replacing)
    requires s.Wf() && ReplacesEnabled(s, step)
    ensures ApplyReplaces(s, step).published == s.published
  {}

  lemma PublishedByCreates(s: System, step: Creating)
    requires s.Wf() && CreatesEnabled(s, step) && !step.FinishNew?
    ensures ApplyCreates(s, step).published == s.published
  {}

  lemma PublishedByGuards(s: System, step: Guarding)
    requires s.Wf() && GuardsEnabled(s, step) && !step.MarkDirty?
    ensures ApplyGuards(s, step).published == s.published
  {}

  lemma PublishedByCleans(s: System, step: Cleaning)
    requires s.Wf() && CleansEnabled(s, step) && !step.DiscardDrained?
    ensures ApplyCleans(s, step).published == s.published
  {}

  lemma PublishedByDisks(s: System, step: DiskStep)
    requires s.Wf() && DisksEnabled(s, step)
    ensures ApplyDisks(s, step).published == s.published
  {}

  /** Fetches, evictions, reloads, flushes, failures and the disk leave the abstract map alone. */
  lemma OnlyPublicationsChange(s: System, l: Label)
    requires s.Wf() && Enabled(s, l) && !Publication(l)
    ensures Apply(s, l).published == s.published
  {
    match l {
      case Starts(step) => PublishedByStarts(s, step);
      case Fetches(step) => PublishedByFetches(s, step);
      case Replaces(step) => PublishedByReplaces(s, step);
      case Creates(step) => PublishedByCreates(s, step);
      case Guards(step) => PublishedByGuards(s, step);
      case Cleans(step) => PublishedByCleans(s, step);
      case Disks(step) => PublishedByDisks(s, step);
    }
    hide StartsEnabled, FetchesEnabled, ReplacesEnabled, CreatesEnabled, GuardsEnabled, CleansEnabled, DisksEnabled,
         ApplyStarts, ApplyFetches, ApplyReplaces, ApplyCreates, ApplyGuards, ApplyCleans, ApplyDisks;
  }

  /** MarkDirty publishes the bytes its exclusive guard sees, for that guard's page only. */
  lemma MarkDirtyPublishes(s: System, t: TaskId)
    requires s.Wf() && Inv(s) && CanMutate(s, t)
    ensures var f, s' := s.tasks[t].frame, DoMarkDirty(s, t);
      && f < |s.pool.frames| && s.pool.frames[f].latch.writer == Some(t)
      && s'.published == s.published[s.pool.frames[f].page := s.pool.frames[f].bytes]
      && s'.pool.frames[f].dirty && s'.pool.frames[f].generation == s.pool.frames[f].generation + 1
  {
    PinnedFrame(s, t) by { hide Inv; }
    TaskAt(s, t) by { hide Inv, Core, PinsOk, LatchesOk, FrameOk; }
    hide Inv, Core, StateOk, PinsOk, LatchesOk, FrameOk, Shows;
  }

  /** NewPage publishes the page right at the bound, advances the bound by one and pins the frame for its guard. */
  lemma NewPagePublishes(s: System, t: TaskId)
    requires s.Wf() && Inv(s) && CanFinishNew(s, t) && s.tasks[t].built == Some(true)
    requires s.tasks[t].page.file in s.pool.files && s.pool.files[s.tasks[t].page.file].state == Active
    ensures var f, page, s' := s.tasks[t].frame, s.tasks[t].page, DoFinishNew(s, t);
      && f < |s.pool.frames| && 0 < page.no == s.pool.files[page.file].bound
      && s'.published == s.published[page := s.pool.frames[f].bytes]
      && page.file in s'.pool.files && s'.pool.files[page.file] == s.pool.files[page.file].(bound := page.no + 1, creator := None)
      && s'.tasks[t] == Pinned(f, Exclusive) && s'.pool.frames[f].pins == 1 && s'.pool.frames[f].dirty
  {
    TaskKnown(s, t) by { hide Inv; }
    hide Inv, Core, FrameOk, LoadOk;
  }

  /** A failed creation leaves bound and map alone: its number is the next one handed out. */
  lemma FailedCreationLeavesNoTrace(s: System, t: TaskId)
    requires s.Wf() && Inv(s) && CanFinishNew(s, t)
    requires s.tasks[t].built == Some(false) || s.tasks[t].page.file !in s.pool.files || s.pool.files[s.tasks[t].page.file].state != Active
    ensures var f, page, s' := s.tasks[t].frame, s.tasks[t].page, DoFinishNew(s, t);
      && f < |s.pool.frames| && page.file in s.pool.files && page.no == s.pool.files[page.file].bound
      && s'.published == s.published && s'.disk == s.disk && t !in s'.tasks
      && s'.pool.files == s.pool.files[page.file := s.pool.files[page.file].(creator := None)]
      && s'.pool.table == s.pool.table - {page} && s'.pool.free == s.pool.free + [f]
  {
    TaskKnown(s, t) by { hide Inv; }
    hide Inv, Core, FrameOk, LoadOk;
  }

  /** Registration only adds pages, at the image the disk holds. */
  lemma RegistrationAdopts(s: System, t: TaskId, page: PageId)
    requires s.Wf() && CanFinishRegister(s, t)
    ensures var s' := DoFinishRegister(s, t);
      && (page in s.published ==> page in s'.published && s'.published[page] == s.published[page])
      && (page in s'.published && page !in s.published ==>
            page in s.disk.volatile && s'.published[page] == s.disk.volatile[page] && page in s'.unsynced)
  {}

  /** Discarding drops exactly the images of the file's dirty pages. */
  lemma DiscardDrops(s: System, t: TaskId, freed: seq<nat>, page: PageId)
    requires s.Wf() && CanDiscard(s, t, freed)
    ensures var s' := DoDiscard(s, t, freed);
      && (page in s'.published <==> page in s.published && !Matches(s.pool, Some(s.tasks[t].file), page))
      && (page in s'.published ==> s'.published[page] == s.published[page])
  {
    hide Drained, NoIo, EnumeratesFrames, CloseFile;
  }

  // ---- Pinned frames stay ----

  /** A pinned frame keeps its page, its binding and its state. */
  predicate PinnedStay(s: System, s': System)
  {
    && |s'.pool.frames| == |s.pool.frames|
    && forall f :: 0 <= f < |s.pool.frames| && s.pool.frames[f].pins > 0 ==>
         var a, b := s.pool.frames[f], s'.pool.frames[f];
         b.page == a.page && b.epoch == a.epoch && b.state == a.state
  }

  lemma StayStarts(s: System, step: Start)
    requires s.Wf() && StartsEnabled(s, step)
    ensures PinnedStay(s, ApplyStarts(s, step))
  {}

  lemma StayBind(s: System, t: TaskId)
    requires s.Wf() && CanBind(s, t) && Knows(s, t)
    ensures PinnedStay(s, DoBind(s, t))
  {
    hide SameContent, LoadOk;
  }

  lemma StayFinishLoad(s: System, t: TaskId)
    requires s.Wf() && CanFinishLoad(s, t) && Knows(s, t)
    ensures PinnedStay(s, DoFinishLoad(s, t))
  {
    hide SameContent, LoadOk;
  }

  lemma StayOtherFetches(s: System, step: Fetching)
    requires s.Wf() && FetchesEnabled(s, step) && !step.Bind? && !step.FinishLoad?
    ensures PinnedStay(s, ApplyFetches(s, step))
  {
    hide Verifies;
  }

  lemma StayFetches(s: System, step: Fetching)
    requires s.Wf() && FetchesEnabled(s, step) && Knows(s, step.t)
    ensures PinnedStay(s, ApplyFetches(s, step))
  {
    hide PinnedStay, Knows, DoBind, DoFinishLoad, DoFinishRegister, DoExamine, DoWake, DoReadPage;
    match step {
      case Bind(t) => StayBind(s, t);
      case FinishLoad(t) => StayFinishLoad(s, t);
      case _ => StayOtherFetches(s, step);
    }
  }

  lemma StaySearch(s: System, t: TaskId)
    requires s.Wf() && CanSearch(s, t)
    ensures PinnedStay(s, DoSearch(s, t))
  {
    FindSound(s.pool.clock, Eligibility(s.pool));
    hide Find;
  }

  lemma StayObserve(s: System, t: TaskId)
    requires s.Wf() && CanObserve(s, t)
    ensures PinnedStay(s, DoObserve(s, t))
  {}

  lemma StayRecheck(s: System, t: TaskId)
    requires s.Wf() && CanRecheck(s, t)
    ensures PinnedStay(s, DoRecheck(s, t))
  {}

  lemma StayBeginEvict(s: System, t: TaskId)
    requires s.Wf() && CanBeginEvict(s, t) && Knows(s, t)
    ensures PinnedStay(s, DoBeginEvict(s, t))
  {
    hide SameContent, ProgressOk, JobOk, LoadOk, WantOk, Finalized;
  }

  lemma StayFinishEvict(s: System, t: TaskId)
    requires s.Wf() && CanFinishEvict(s, t) && Knows(s, t)
    ensures PinnedStay(s, DoFinishEvict(s, t))
  {
    hide SameContent, ProgressOk, JobOk, LoadOk, WantOk;
  }

  lemma StayNumber(s: System, t: TaskId, ok: bool)
    requires s.Wf() && CanNumber(s, t)
    ensures PinnedStay(s, DoNumber(s, t, ok))
  {}

  lemma StayBindPage(s: System, t: TaskId)
    requires s.Wf() && CanBindPage(s, t) && Knows(s, t)
    ensures PinnedStay(s, DoBindPage(s, t))
  {
    hide SameContent, LoadOk;
  }

  lemma StayFinishNew(s: System, t: TaskId)
    requires s.Wf() && CanFinishNew(s, t) && Knows(s, t)
    ensures PinnedStay(s, DoFinishNew(s, t))
  {
    hide SameContent, LoadOk;
  }

  lemma StayCreates(s: System, step: Creating)
    requires s.Wf() && CreatesEnabled(s, step) && Knows(s, step.t)
    ensures PinnedStay(s, ApplyCreates(s, step))
  {
    match step {
      case TakeTurn(t) => assert PinnedStay(s, DoTakeTurn(s, t)) by { hide Knows; }
      case Number(t, ok) => StayNumber(s, t, ok) by { hide Knows; }
      case BindPage(t) => StayBindPage(s, t) by { hide Knows; }
      case Construct(t, built, bytes) => assert PinnedStay(s, DoConstruct(s, t, built, bytes)) by { hide Knows; }
      case FinishNew(t) => StayFinishNew(s, t) by { hide Knows; }
    }
    hide Knows, PinnedStay, DoTakeTurn, DoNumber, DoBindPage, DoConstruct, DoFinishNew;
  }

  lemma StayGuards(s: System, step: Guarding)
    requires s.Wf() && GuardsEnabled(s, step)
    ensures PinnedStay(s, ApplyGuards(s, step))
  {}

  lemma StayCleans(s: System, step: Cleaning)
    requires s.Wf() && CleansEnabled(s, step) && !step.DiscardDrained? && !step.FinishFlush?
    ensures PinnedStay(s, ApplyCleans(s, step))
  {
    hide Drained, NoIo, AllDrained, AllIdle, Enumerates;
  }

  lemma StayClose(s: System, g: nat, freed: seq<nat>)
    requires s.Wf() && Drained(s.pool, g)
    ensures PinnedStay(s, s.(pool := CloseFile(s.pool, g, freed)))
  {}

  lemma StayFinishFlush(s: System, t: TaskId, freed: seq<nat>)
    requires s.Wf() && CanFinishFlush(s, t, freed) && Knows(s, t)
    ensures PinnedStay(s, DoFinishFlush(s, t, freed))
  {
    if s.tasks[t].job.RetiringFile? && !s.tasks[t].failed {
      assert Drained(s.pool, s.tasks[t].job.file) by { hide LoadOk, FrameOk, EnumeratesFrames; }
      StayClose(s, s.tasks[t].job.file, freed) by { hide Knows, Drained, EnumeratesFrames; }
    }
    hide Knows, Drained, EnumeratesFrames, CloseFile;
  }

  lemma StayDiscard(s: System, t: TaskId, freed: seq<nat>)
    requires s.Wf() && CanDiscard(s, t, freed)
    ensures PinnedStay(s, DoDiscard(s, t, freed))
  {
    StayClose(s, s.tasks[t].file, freed) by { hide NoIo, Drained, EnumeratesFrames; }
    hide NoIo, Drained, EnumeratesFrames, CloseFile;
  }

  lemma StayDisks(s: System, step: DiskStep)
    requires s.Wf() && DisksEnabled(s, step)
    ensures PinnedStay(s, ApplyDisks(s, step))
  {}

  /** A frame with a pin never changes page, binding epoch or state, whatever step is taken. */
  lemma PinnedFramesStay(s: System, l: Label)
    requires s.Wf() && Inv(s) && Enabled(s, l)
    ensures PinnedStay(s, Apply(s, l))
  {
    match l {
      case Starts(step) => StayStarts(s, step) by { hide Inv; }
      case Fetches(step) =>
        assert step.t in s.tasks by { hide Inv; }
        TaskKnown(s, step.t) by { hide Inv; }
        StayFetches(s, step) by { hide Inv, Knows, Core; }
      case Replaces(step) => StayReplaces(s, step) by { hide Inv; }
      case Creates(step) =>
        assert step.t in s.tasks by { hide Inv; }
        TaskKnown(s, step.t) by { hide Inv; }
        StayCreates(s, step) by { hide Inv, Knows, Core; }
      case Guards(step) => StayGuards(s, step) by { hide Inv; }
      case Cleans(step) => StayAllCleans(s, step) by { hide Inv; }
      case Disks(step) => StayDisks(s, step) by { hide Inv; }
    }
    hide Inv, Core, Knows, PinnedStay, ApplyStarts, ApplyFetches, ApplyReplaces, ApplyCreates, ApplyGuards, ApplyCleans, ApplyDisks;
  }

  lemma StayReplaces(s: System, step: Replacing)
    requires s.Wf() && Inv(s) && ReplacesEnabled(s, step)
    ensures PinnedStay(s, ApplyReplaces(s, step))
  {
    assert step.t in s.tasks by { hide Inv; }
    TaskKnown(s, step.t) by { hide Inv; }
    match step {
      case Search(t) => StaySearch(s, t) by { hide Inv, Knows, Core; }
      case Observe(t) => StayObserve(s, t) by { hide Inv, Knows, Core; }
      case Recheck(t) => StayRecheck(s, t) by { hide Inv, Knows, Core; }
      case BeginEvict(t) => StayBeginEvict(s, t) by { hide Inv, Knows, Core; }
      case FinishEvict(t) => StayFinishEvict(s, t) by { hide Inv, Knows, Core; }
    }
    hide Inv, Core, Knows, PinnedStay, DoSearch, DoObserve, DoRecheck, DoBeginEvict, DoFinishEvict;
  }

  lemma StayAllCleans(s: System, step: Cleaning)
    requires s.Wf() && Inv(s) && CleansEnabled(s, step)
    ensures PinnedStay(s, ApplyCleans(s, step))
  {
    match step {
      case DiscardDrained(t, freed) => StayDiscard(s, t, freed) by { hide Inv, CanDiscard; }
      case FinishFlush(t, freed) =>
        assert t in s.tasks by { hide Inv, EnumeratesFrames; }
        TaskKnown(s, t) by { hide Inv, CanFinishFlush; }
        StayFinishFlush(s, t, freed) by { hide Inv, CanFinishFlush, Knows, Core; }
      case _ => StayCleans(s, step) by { hide Inv, Drained, NoIo, AllDrained, AllIdle, Enumerates; }
    }
    hide Inv, Core, Knows, PinnedStay, DoDiscard, DoFinishFlush, CanDiscard, CanFinishFlush;
  }
}
