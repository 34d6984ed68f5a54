/** What the invariant says to a caller, over every run. */
module BufferTheorems {
  import opened Basics
  import opened PageChecksum
  import opened ClockReplacement
  import opened BufferState
  import opened BufferSystem
  import opened BufferInvariant
  import opened BufferPreservation

  // ---- Runs ----

  /** A pool just constructed over some disk: no file is open, no call in flight. */
  function InitialSystem(frameCount: nat, maxPins: nat, disk: Disk): System
    requires frameCount > 0 && maxPins > 0
  {
    System(InitialPool(frameCount, maxPins), map[], seq(frameCount, _ => None), disk, map[], {}, false)
  }

  ghost predicate Runs(s: System, labels: seq<Label>)
    decreases |labels|
  {
    |labels| == 0 || (s.Wf() && Enabled(s, labels[0]) && Runs(Apply(s, labels[0]), labels[1..]))
  }

  ghost function After(s: System, labels: seq<Label>): System
    requires Runs(s, labels)
    decreases |labels|
  {
    if |labels| == 0 then s else After(Apply(s, labels[0]), labels[1..])
  }

  lemma InitiallyOk(frameCount: nat, maxPins: nat, disk: Disk)
    requires frameCount > 0 && maxPins > 0 && DiskOk(disk)
    ensures Inv(InitialSystem(frameCount, maxPins, disk))
  {
    var s := InitialSystem(frameCount, maxPins, disk);
    forall f | 0 <= f < frameCount ensures f in s.pool.free {
      assert s.pool.free[frameCount - 1 - f] == f;
    }
    assert StateOk(s);
    forall f | 0 <= f < |s.pool.frames| ensures s.pool.frames[f].pins == |Owners(s, f)| <= s.pool.maxPins {
      assert Owners(s, f) == {};
    }
  }

  lemma {:induction false} RunKeeps(s: System, labels: seq<Label>)
    requires Inv(s) && Runs(s, labels)
    ensures Inv(After(s, labels))
    decreases |labels|
  {
    if |labels| > 0 {
      StepKeeps(s, labels[0]) by { hide Inv, Enabled; }
      RunKeeps(Apply(s, labels[0]), labels[1..]) by { hide Inv, Enabled; }
    }
    hide Inv, Enabled, Apply;
  }

  /** The invariant holds at every point of every run of a pool over any well-formed disk. */
  lemma Reachable(frameCount: nat, maxPins: nat, disk: Disk, labels: seq<Label>)
    requires frameCount > 0 && maxPins > 0 && DiskOk(disk)
    requires Runs(InitialSystem(frameCount, maxPins, disk), labels)
    ensures Inv(After(InitialSystem(frameCount, maxPins, disk), labels))
  {
    InitiallyOk(frameCount, maxPins, disk) by { hide Inv, InitialSystem; }
    RunKeeps(InitialSystem(frameCount, maxPins, disk), labels) by { hide Inv, InitialSystem; }
  }

  // ---- The cache refines a map ----

  /** A guard without unpublished changes of its own sees the last published image of its page. */
  lemma GuardSeesPublished(s: System, t: TaskId)
    requires Inv(s) && t in s.tasks && s.tasks[t].Guard? && !s.tasks[t].mutated
    ensures var f := s.tasks[t].frame;
      && f < |s.pool.frames| && s.pool.frames[f].page in s.published
      && SameContent(s.pool.frames[f].bytes, s.published[s.pool.frames[f].page])
  {
    InvParts(s);
    TaskAt(s, t) by { hide Inv, Core, PinsOk, LatchesOk; }
    hide Inv, Core, StateOk, PinsOk, LatchesOk, SameContent;
  }

  /** A shared guard excludes unpublished changes altogether. */
  lemma ReadersAreUndisturbed(s: System, t: TaskId, u: TaskId)
    requires Inv(s) && t in s.tasks && u in s.tasks && s.tasks[t].Guard? && s.tasks[u].Guard? && t != u
    requires s.tasks[t].frame == s.tasks[u].frame
    ensures s.tasks[t].mode == Shared && s.tasks[u].mode == Shared
  {
    InvParts(s);
    TaskAt(s, t) by { hide Inv, Core, PinsOk, LatchesOk; }
    TaskAt(s, u) by { hide Inv, Core, PinsOk, LatchesOk; }
    PinnedFrame(s, t) by { hide Inv, Core, PinsOk, LatchesOk; }
    hide Inv, Core, StateOk, PinsOk, LatchesOk, Shows, SameContent;
  }

  // ---- Writeback ----

  /** Clean means durable: on disk, and synced since registration unless it was adopted unsynced. */
  lemma CleanMeansDurable(s: System, f: nat)
    requires Inv(s) && f < |s.pool.frames| && s.pool.frames[f].state in {Resident, Evicting} && !s.pool.frames[f].dirty
    ensures s.pool.frames[f].page in s.published && Settled(s, s.pool.frames[f].page)
  {
    InvParts(s);
    FrameAt(s, f) by { hide Inv, PinsOk, LatchesOk, TaskOk; }
    PageAt(s, s.pool.frames[f].page) by { hide Inv, PinsOk, LatchesOk, TaskOk, FrameOk; }
    hide Inv, Core, PinsOk, LatchesOk, SameContent;
  }

  /**
   * While a writeback is in progress its frame keeps page and epoch: the recheck at its end cleans
   * the frame exactly if the sync succeeded and no mutation was published since the copy.
   */
  lemma OnlyGenerationCanFail(s: System, t: TaskId)
    requires s.Wf() && Inv(s) && CanFinishWrite(s, t)
    ensures var f := s.tasks[t].frame;
      && f < |s.pool.frames| && s.pool.frames[f].page == s.tasks[t].pages[0] && s.pool.frames[f].epoch == s.tasks[t].epoch
      && s.pool.frames[f].dirty
      && (DoFinishWrite(s, t).pool.frames[f].dirty <==>
            s.tasks[t].progress == Failed || s.pool.frames[f].generation != s.tasks[t].generation)
      && DoFinishWrite(s, t).pool.frames[f].generation == s.pool.frames[f].generation
  {
    InvParts(s);
    TaskAt(s, t) by { hide Inv, Core, PinsOk, LatchesOk; }
    hide Inv, Core, StateOk, PinsOk, LatchesOk, SameContent, JobOk, ProgressOk;
  }

  // ---- Frames ----

  predicate OnFreeList(s: System, f: nat) { f in s.pool.free }

  /** Taken off the free list or from a victim by a call that has not bound it to a page yet. */
  predicate Acquires(s: System, t: TaskId, f: nat)
  {
    t in s.tasks && (s.tasks[t].Owned? || s.tasks[t].Numbered?) && s.tasks[t].frame == f
  }

  /** No two calls own one frame or its I/O. */
  ghost predicate OneOwner(s: System, f: nat)
  {
    forall t, u :: t in s.tasks && u in s.tasks && FrameOf(s.tasks[t]) == Some(f) && FrameOf(s.tasks[u]) == Some(f) ==> t == u
  }

  predicate Maps(s: System, page: PageId, f: nat)
  {
    page in s.pool.table && s.pool.table[page].state != IntentEntry && s.pool.table[page].frame == f
  }

  /** Bound by exactly one entry, which is the frame's own page and agrees with its state. */
  ghost predicate Mapped(s: System, f: nat)
    requires s.Wf() && f < |s.pool.frames|
  {
    var frame := s.pool.frames[f];
    && Maps(s, frame.page, f) && (forall page :: Maps(s, page, f) ==> page == frame.page)
    && match s.pool.table[frame.page].state
       case LoadingEntry => frame.state == Loading
       case ResidentEntry => frame.state == Resident
       case EvictingEntry => frame.state == Evicting
       case IntentEntry => false
  }

  /** A task that owns a frame is the frame's holder. */
  lemma OwnerHolds(s: System, t: TaskId, f: nat)
    requires Core(s) && t in s.tasks && FrameOf(s.tasks[t]) == Some(f)
    ensures s.Wf() && f < |s.pool.frames| && s.holders[f] == Some(t)
    ensures Acquires(s, t, f) <==> s.pool.frames[f].state == Free
  {
    TaskAt(s, t) by { hide Core, TaskOk; }
    hide Core, StateOk, SameContent, ProgressOk, WantOk, JobOk, CreatorIs;
  }

  /** A frame nobody has mapped or freed is acquired by the task that holds it. */
  lemma HeldIsAcquired(s: System, f: nat)
    requires Core(s) && s.Wf() && f < |s.pool.frames| && s.pool.frames[f].state == Free && s.holders[f].Some?
    ensures Acquires(s, s.holders[f].value, f)
  {
    HolderAt(s, f) by { hide TaskOk, FrameOk, EntryOk, LoadOk, FileOk, PageOk; }
    OwnerHolds(s, s.holders[f].value, f) by { hide Core; }
    hide Core, Acquires;
  }

  /**
   * Each frame is in exactly one place: on the free list, acquired by exactly one call, or mapped
   * by exactly one entry. At most one call owns it, and only the legal state combinations occur.
   */
  lemma FrameConservation(s: System, f: nat)
    requires s.Wf() && Inv(s) && f < |s.pool.frames|
    ensures (OnFreeList(s, f) && (forall t :: t in s.tasks ==> FrameOf(s.tasks[t]) != Some(f)) && forall page :: !Maps(s, page, f))
         || (!OnFreeList(s, f) && (exists t :: Acquires(s, t, f)) && forall page :: !Maps(s, page, f))
         || (!OnFreeList(s, f) && (forall t :: !Acquires(s, t, f)) && Mapped(s, f))
    ensures OneOwner(s, f)
    ensures var frame := s.pool.frames[f];
      && (frame.io == Reading ==> frame.state == Loading)
      && (frame.io == Writing ==> frame.state in {Resident, Evicting} && frame.dirty)
      && (frame.pins > 0 ==> frame.state == Resident)
  {
    InvParts(s) by { hide Inv; }
    forall t | t in s.tasks && FrameOf(s.tasks[t]) == Some(f)
      ensures s.holders[f] == Some(t) && (Acquires(s, t, f) <==> s.pool.frames[f].state == Free)
    {
      OwnerHolds(s, t, f) by { hide Inv, Core, Acquires; }
    }
    if s.pool.frames[f].state == Free && s.holders[f].Some? { HeldIsAcquired(s, f) by { hide Inv, Core, Acquires; } }
    FramePlaces(s, f) by { hide Inv; }
    hide Inv, Core, Mapped, Maps;
  }

  lemma FramePlaces(s: System, f: nat)
    requires s.Wf() && Inv(s) && f < |s.pool.frames|
    ensures OnFreeList(s, f) <==> s.pool.frames[f].state == Free && s.holders[f] == None
    ensures s.pool.frames[f].state == Free ==> forall page :: !Maps(s, page, f)
    ensures s.pool.frames[f].state != Free ==> Mapped(s, f)
    ensures var frame := s.pool.frames[f];
      && (frame.io == Reading ==> frame.state == Loading)
      && (frame.io == Writing ==> frame.state in {Resident, Evicting} && frame.dirty)
      && (frame.pins > 0 ==> frame.state == Resident)
  {
    InvParts(s);
    FrameAt(s, f) by { hide Inv, PinsOk, LatchesOk, TaskOk; }
    assert FreeOk(s) by { hide Inv, PinsOk, LatchesOk, TaskOk, FreeOk, FrameOk; }
    forall page | Maps(s, page, f) ensures EntryOk(s, page) {
      EntryAt(s, page) by { hide Inv, PinsOk, LatchesOk, TaskOk, FrameOk; }
    }
    hide Inv, Core, PinsOk, LatchesOk, SameContent, LoaderOf, WantOf;
  }

  /** The free list holds no frame twice. */
  lemma FreeListIsDistinct(s: System)
    requires Inv(s)
    ensures Distinct(s.pool.free) && forall f :: f in s.pool.free ==> f < |s.pool.frames| && s.pool.frames[f].state == Free
  {
    InvParts(s);
    assert FreeOk(s) by { hide Inv, PinsOk, LatchesOk, TaskOk, FreeOk; }
    hide Inv, Core, PinsOk, LatchesOk;
  }

  // ---- Pins and loads ----

  /** The pin count is the number of tasks that own a pin, within the limit. */
  lemma PinAccounting(s: System, f: nat)
    requires Inv(s) && f < |s.pool.frames|
    ensures s.pool.frames[f].pins == |Owners(s, f)| <= s.pool.maxPins
  {
    InvParts(s);
    hide Inv, Core, LatchesOk, Owners;
  }

  /** A loader is the one its page's entry names. */
  lemma LoaderIsNamed(s: System, t: TaskId)
    requires Core(s) && t in s.tasks && LoaderOf(s.tasks[t]).Some?
    ensures LoaderOf(s.tasks[t]).value in s.pool.table && s.pool.table[LoaderOf(s.tasks[t]).value].load == Some(t)
  {
    TaskAt(s, t);
    hide Core, StateOk, SameContent, ProgressOk;
  }

  /** At most one read of a page is in flight. */
  lemma SingleLoader(s: System, t: TaskId, u: TaskId)
    requires Inv(s) && t in s.tasks && u in s.tasks
    requires LoaderOf(s.tasks[t]).Some? && LoaderOf(s.tasks[u]) == LoaderOf(s.tasks[t])
    ensures t == u
  {
    InvParts(s);
    LoaderIsNamed(s, t) by { hide Inv, Core, PinsOk, LatchesOk; }
    LoaderIsNamed(s, u) by { hide Inv, Core, PinsOk, LatchesOk; }
    hide Inv, Core, PinsOk, LatchesOk, LoaderOf;
  }

  // ---- Closing ----

  /** After Shutdown no frame is pinned, dirty, loading, evicting or in I/O. */
  ghost predicate Quiescent(s: System)
  {
    && s.pool.quiescing
    && forall f :: 0 <= f < |s.pool.frames| ==>
         s.pool.frames[f].pins == 0 && !s.pool.frames[f].dirty && s.pool.frames[f].io == Idle
         && s.pool.frames[f].state in {Free, Resident}
  }

  lemma ClosedIsQuiescent(s: System)
    requires Inv(s) && s.closed
    ensures Quiescent(s)
  {
    InvParts(s);
    assert ClosedOk(s) by { hide Inv, PinsOk, LatchesOk, TaskOk, ClosedOk; }
    forall f | 0 <= f < |s.pool.frames|
      ensures s.pool.frames[f].pins == 0 && !s.pool.frames[f].dirty && s.pool.frames[f].io == Idle
        && s.pool.frames[f].state in {Free, Resident}
    {
      FrameAt(s, f) by { hide Inv, PinsOk, LatchesOk, TaskOk, ClosedOk; }
      hide Inv, Core, PinsOk, LatchesOk, SameContent;
    }
    hide Inv, Core, PinsOk, LatchesOk, ClosedOk;
  }

  /** And every published image is settled on disk. */
  lemma ClosedIsSettled(s: System, page: PageId)
    requires Inv(s) && s.closed && page in s.published
    ensures Settled(s, page)
  {
    InvParts(s);
    assert ClosedOk(s) by { hide Inv, PinsOk, LatchesOk, TaskOk, ClosedOk; }
    PageAt(s, page) by { hide Inv, PinsOk, LatchesOk, TaskOk, ClosedOk; }
    hide Inv, Core, PinsOk, LatchesOk, SameContent, Settled;
  }

  /** A successful RetireFile leaves no mapping of its file, frees the frames, and every image is settled on disk. */
  lemma RetirementSettles(s: System, t: TaskId, file: nat, freed: seq<nat>)
    requires s.Wf() && Inv(s) && CanFinishFlush(s, t, freed) && s.tasks[t] == Flush(RetiringFile(file), [], false)
    ensures var s' := DoFinishFlush(s, t, freed);
      && file !in s'.pool.files && s'.published == s.published
      && (forall page :: page in s'.pool.table ==> page.file != file)
      && (forall f :: f in FileFrames(s.pool, file) ==> f in s'.pool.free)
      && (forall page :: page in s'.published && page.file == file ==> Settled(s', page))
  {
    var s' := DoFinishFlush(s, t, freed);
    InvRetireCloses(s, t, file, freed) by { hide Inv, EnumeratesFrames; }
    InvParts(s') by { hide CanFinishFlush, DoFinishFlush; }
    assert s'.pool == CloseFile(s.pool, file, freed) && s'.published == s.published by { hide Inv, Core, PinsOk, LatchesOk, EnumeratesFrames, CloseFile; }
    assert forall page :: page in s'.pool.table ==> page.file != file by { hide Inv, Core, PinsOk, LatchesOk, DoFinishFlush, EnumeratesFrames; }
    forall page | page in s'.published && page.file == file ensures Settled(s', page) {
      PageAt(s', page) by { hide Inv, TaskOk, PinsOk, LatchesOk, DoFinishFlush, CanFinishFlush; }
      hide Inv, Core, PinsOk, LatchesOk, DoFinishFlush, CanFinishFlush, Settled;
    }
    hide Inv, Core, PinsOk, LatchesOk, DoFinishFlush, Settled, FileFrames;
  }

  lemma ClosedByStarts(s: System, step: Start)
    requires s.Wf() && StartsEnabled(s, step)
    ensures ApplyStarts(s, step).closed == s.closed
  {}

  lemma ClosedByFetches(s: System, step: Fetching)
    requires s.Wf() && FetchesEnabled(s, step)
    ensures ApplyFetches(s, step).closed == s.closed
  {}

  lemma ClosedByReplaces(s: System, step: Replacing)
    requires s.Wf() && ReplacesEnabled(s, step)
    ensures ApplyReplaces(s, step).closed == s.closed
  {
    hide Find;
  }

  lemma ClosedByCreates(s: System, step: Creating)
    requires s.Wf() && CreatesEnabled(s, step)
    ensures ApplyCreates(s, step).closed == s.closed
  {}

  lemma ClosedByGuards(s: System, step: Guarding)
    requires s.Wf() && GuardsEnabled(s, step)
    ensures ApplyGuards(s, step).closed == s.closed
  {}

  /** Only a flush that Shutdown ran to its end, without a failure, closes the pool. */
  lemma ClosedByCleans(s: System, step: Cleaning)
    requires s.Wf() && CleansEnabled(s, step)
    ensures ApplyCleans(s, step).closed <==>
      s.closed || (step.FinishFlush? && s.tasks[step.t].job == ShuttingDown && !s.tasks[step.t].failed)
  {
    hide Drained, NoIo, AllDrained, AllIdle, Enumerates, EnumeratesFrames;
  }

  lemma ClosedByDisks(s: System, step: DiskStep)
    requires s.Wf() && DisksEnabled(s, step)
    ensures ApplyDisks(s, step).closed == s.closed
  {}

  lemma ClosedStays(s: System, l: Label)
    requires s.Wf() && Enabled(s, l) && s.closed
    ensures Apply(s, l).closed
  {
    match l {
      case Starts(step) => ClosedByStarts(s, step);
      case Fetches(step) => ClosedByFetches(s, step);
      case Replaces(step) => ClosedByReplaces(s, step);
      case Creates(step) => ClosedByCreates(s, step);
      case Guards(step) => ClosedByGuards(s, step);
      case Cleans(step) => ClosedByCleans(s, step);
      case Disks(step) => ClosedByDisks(s, step);
    }
    hide StartsEnabled, FetchesEnabled, ReplacesEnabled, CreatesEnabled, GuardsEnabled, CleansEnabled, DisksEnabled,
         ApplyStarts, ApplyFetches, ApplyReplaces, ApplyCreates, ApplyGuards, ApplyCleans, ApplyDisks;
  }

  /** Once Shutdown has succeeded the pool stays quiescent and every published image on disk, whatever is called afterwards. */
  lemma {:induction false} ShutdownLasts(s: System, labels: seq<Label>)
    requires Inv(s) && s.closed && Runs(s, labels)
    ensures var r := After(s, labels);
      r.closed && Quiescent(r) && forall page :: page in r.published ==> Settled(r, page)
    decreases |labels|
  {
    if |labels| == 0 {
      ClosedIsQuiescent(s) by { hide Inv, Runs; }
      forall page | page in s.published ensures Settled(s, page) { ClosedIsSettled(s, page) by { hide Inv, Runs; } }
    } else {
      StepKeeps(s, labels[0]) by { hide Inv, Enabled; }
      ClosedStays(s, labels[0]) by { hide Inv, Enabled; }
      ShutdownLasts(Apply(s, labels[0]), labels[1..]) by { hide Inv, Enabled, Apply; }
    }
    hide Inv, Enabled, Apply, Quiescent, Settled;
  }
}
