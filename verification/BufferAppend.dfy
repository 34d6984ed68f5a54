/** Append publication: page numbers, the published bound and the physical count. */
module BufferAppend {
  import opened Basics
  import opened PageChecksum
  import opened ClockReplacement
  import opened BufferState
  import opened BufferSystem
  import opened BufferInvariant
  import opened BufferPins
  import opened BufferPreservation
  import opened BufferTheorems

  /** The physical count is the bound or one more, and nothing past the bound is published. */
  ghost predicate AppendOk(s: System)
  {
    && (forall file :: file in s.pool.files ==>
          s.pool.files[file].bound <= CountOf(s.disk, file) <= s.pool.files[file].bound + 1)
    && (forall page :: page in s.published && page.file in s.pool.files ==> page.no < s.pool.files[page.file].bound)
  }

  /** Bounds and counts stay; a file may close, and an image may be replaced or dropped. */
  predicate BoundsStay(s: System, s': System)
  {
    && s'.disk.count == s.disk.count
    && (forall file :: file in s'.pool.files ==> file in s.pool.files && s'.pool.files[file].bound == s.pool.files[file].bound)
    && (forall page :: page in s'.published && page.file in s'.pool.files ==>
          page in s.published || page.no < s'.pool.files[page.file].bound)
  }

  lemma BoundsKeep(s: System, s': System)
    requires AppendOk(s) && BoundsStay(s, s')
    ensures AppendOk(s')
  {}

  lemma BoundsByStarts(s: System, step: Start)
    requires s.Wf() && StartsEnabled(s, step)
    ensures BoundsStay(s, ApplyStarts(s, step))
  {}

  lemma BoundsByLoading(s: System, t: TaskId)
    requires s.Wf() && CanFinishLoad(s, t)
    ensures BoundsStay(s, DoFinishLoad(s, t))
  {}

  lemma BoundsByFetches(s: System, step: Fetching)
    requires s.Wf() && FetchesEnabled(s, step) && !step.FinishRegister?
    ensures BoundsStay(s, ApplyFetches(s, step))
  {
    hide DoFinishLoad, DoFinishRegister, Verifies;
    if step.FinishLoad? { BoundsByLoading(s, step.t); }
  }

  lemma BoundsByGivingUp(s: System, s': System, t: TaskId, want: Want)
    requires s'.Wf() && s'.disk == s.disk && s'.published == s.published && s'.pool.files == s.pool.files
    ensures BoundsStay(s, GiveUp(s', t, want))
  {}

  lemma BoundsBySearch(s: System, t: TaskId)
    requires s.Wf() && CanSearch(s, t)
    ensures BoundsStay(s, DoSearch(s, t))
  {
    FindSound(s.pool.clock, Eligibility(s.pool));
    var found := Find(s.pool.clock, Eligibility(s.pool));
    var moved := s.(pool := s.pool.(clock := found.clock));
    BoundsByGivingUp(s, moved, t, s.tasks[t].want) by { hide Find; }
    hide Find, GiveUp;
  }

  lemma BoundsByFinishEvict(s: System, t: TaskId)
    requires s.Wf() && CanFinishEvict(s, t)
    ensures BoundsStay(s, DoFinishEvict(s, t))
  {
    var f := s.tasks[t].frame;
    if f < |s.pool.frames| {
      BoundsByGivingUp(s, s.(pool := RestoreVictim(s.pool, f)).Hold(f, None), t, s.tasks[t].want);
    }
    hide GiveUp;
  }

  lemma BoundsByObserve(s: System, t: TaskId)
    requires s.Wf() && CanObserve(s, t)
    ensures BoundsStay(s, DoObserve(s, t))
  {}

  lemma BoundsByRecheck(s: System, t: TaskId)
    requires s.Wf() && CanRecheck(s, t)
    ensures BoundsStay(s, DoRecheck(s, t))
  {}

  lemma BoundsByBeginEvict(s: System, t: TaskId)
    requires s.Wf() && CanBeginEvict(s, t)
    ensures BoundsStay(s, DoBeginEvict(s, t))
  {
    hide Finalized;
  }

  lemma BoundsByReplaces(s: System, step: Replacing)
    requires s.Wf() && ReplacesEnabled(s, step)
    ensures BoundsStay(s, ApplyReplaces(s, step))
  {
    hide BoundsStay, CanObserve, DoSearch, DoObserve, DoRecheck, DoBeginEvict, DoFinishEvict;
    match step {
      case Search(t) => BoundsBySearch(s, t);
      case Observe(t) => BoundsByObserve(s, t);
      case Recheck(t) => BoundsByRecheck(s, t);
      case BeginEvict(t) => BoundsByBeginEvict(s, t);
      case FinishEvict(t) => BoundsByFinishEvict(s, t);
    }
  }

  lemma BoundsByCreates(s: System, step: Creating)
    requires s.Wf() && CreatesEnabled(s, step) && !step.Number? && !step.FinishNew?
    ensures BoundsStay(s, ApplyCreates(s, step))
  {}

  lemma BoundsByTransfers(s: System, step: DiskStep)
    requires s.Wf() && DisksEnabled(s, step)
    ensures BoundsStay(s, ApplyDisks(s, step))
  {}

  lemma BoundsByCleans(s: System, step: Cleaning)
    requires s.Wf() && CleansEnabled(s, step)
    ensures BoundsStay(s, ApplyCleans(s, step))
  {
    hide Drained, NoIo, AllDrained, AllIdle, Enumerates, EnumeratesFrames;
  }

  lemma BoundsByGuards(s: System, step: Guarding)
    requires s.Wf() && GuardsEnabled(s, step) && !step.MarkDirty?
    ensures BoundsStay(s, ApplyGuards(s, step))
  {}

  /** A guard's page lies below the bound. */
  lemma BoundsByMarkDirty(s: System, t: TaskId)
    requires s.Wf() && Inv(s) && CanMutate(s, t)
    ensures BoundsStay(s, DoMarkDirty(s, t))
  {
    PinnedFrame(s, t) by { hide Inv; }
    var p := s.pool.frames[s.tasks[t].frame].page;
    assert p in s.published by { hide Inv, Core, PinsOk, LatchesOk, SameContent; }
    hide Inv, Core, StateOk, PinsOk, LatchesOk, FrameOk;
  }

  lemma AppendByNumber(s: System, t: TaskId, ok: bool)
    requires s.Wf() && AppendOk(s) && CanNumber(s, t)
    ensures AppendOk(DoNumber(s, t, ok))
  {}

  lemma AppendByPublication(s: System, t: TaskId)
    requires s.Wf() && AppendOk(s) && CanFinishNew(s, t)
    requires var page := s.tasks[t].page;
      page.file in s.pool.files && page.no == s.pool.files[page.file].bound && page.no < CountOf(s.disk, page.file)
    ensures AppendOk(DoFinishNew(s, t))
  {}

  lemma AppendByFinishNew(s: System, t: TaskId)
    requires s.Wf() && Inv(s) && AppendOk(s) && CanFinishNew(s, t)
    ensures AppendOk(DoFinishNew(s, t))
  {
    var page := s.tasks[t].page;
    TaskKnown(s, t) by { hide Inv, AppendOk; }
    assert page.file in s.pool.files && page.no == s.pool.files[page.file].bound && page in s.disk.volatile by {
      hide Inv, Core, FrameOk, LoadOk, AppendOk;
    }
    ExistingIsCounted(s, page) by { hide Inv, Core, Knows, AppendOk; }
    AppendByPublication(s, t) by { hide Inv, Core, Knows, AppendOk; }
    hide *;
  }

  lemma ExistingIsCounted(s: System, page: PageId)
    requires Inv(s) && page in s.disk.volatile
    ensures page.no < CountOf(s.disk, page.file)
  {
    InvParts(s);
    assert DiskOk(s.disk) by { hide Inv, PinsOk, LatchesOk, TaskOk, DiskOk; }
    hide Inv, Core, PinsOk, LatchesOk;
  }

  /** A registration whose page count was read before the mutex was taken, about to open its file. */
  predicate Opening(s: System, t: TaskId)
  {
    CanFinishRegister(s, t) && s.tasks[t].file != 0 && !s.pool.quiescing && s.tasks[t].file !in s.pool.files
  }

  lemma OpeningBounds(s: System, t: TaskId)
    requires s.Wf() && AppendOk(s) && Opening(s, t) && s.tasks[t].count <= CountOf(s.disk, s.tasks[t].file)
    requires forall page :: page in s.published && page.file == s.tasks[t].file ==> page.no < CountOf(s.disk, page.file)
    ensures var file, count := s.tasks[t].file, s.tasks[t].count;
      AppendOk(DoFinishRegister(s, t)) <==>
        || CountOf(s.disk, file) == count
        || (CountOf(s.disk, file) == count + 1 && PageId(file, count) !in s.published)
  {
    var file, count := s.tasks[t].file, s.tasks[t].count;
    var s' := DoFinishRegister(s, t);
    assert s'.pool.files == s.pool.files[file := FileEntry(Active, count, None, None)];
    assert forall page :: page in s'.published <==> page in s.published || page in Adopted(s, file, count);
    if CountOf(s.disk, file) == count + 1 && PageId(file, count) !in s.published {
      forall page | page in s'.published && page.file == file ensures page.no < count {
        assert page == PageId(file, page.no);
      }
    }
  }

  /**
   * Registration establishes the append discipline exactly if its count is still current, or one
   * short with the missing page never published.
   */
  lemma RegistrationIsCurrent(s: System, t: TaskId)
    requires s.Wf() && Inv(s) && AppendOk(s) && Opening(s, t)
    ensures var file, count := s.tasks[t].file, s.tasks[t].count;
      AppendOk(DoFinishRegister(s, t)) <==>
        || CountOf(s.disk, file) == count
        || (CountOf(s.disk, file) == count + 1 && PageId(file, count) !in s.published)
  {
    TaskKnown(s, t) by { hide Inv, AppendOk; }
    assert s.tasks[t].count <= CountOf(s.disk, s.tasks[t].file) by { hide Inv, Core, FrameOk, LoadOk, AppendOk; }
    forall page | page in s.published && page.file == s.tasks[t].file ensures page.no < CountOf(s.disk, page.file) {
      PublishedIsCounted(s, page) by { hide Inv, Core, Knows, AppendOk; }
    }
    OpeningBounds(s, t) by { hide Inv, Core, Knows, AppendOk; }
    hide Inv, Core, Knows, AppendOk;
  }

  lemma PublishedIsCounted(s: System, page: PageId)
    requires Inv(s) && page in s.published
    ensures page.no < CountOf(s.disk, page.file)
  {
    InvParts(s);
    PageAt(s, page) by { hide Inv, TaskOk, PinsOk, LatchesOk; }
    ExistingIsCounted(s, page) by { hide Inv, Core, PinsOk, LatchesOk, Settled; }
    hide Inv, Core, PinsOk, LatchesOk, Settled;
  }

  /** Every other step keeps the discipline: no two creations get one number, and no number is skipped. */
  lemma AppendKeeps(s: System, l: Label)
    requires s.Wf() && Inv(s) && AppendOk(s) && Enabled(s, l)
    requires l.Fetches? && l.fetch.FinishRegister? && Opening(s, l.fetch.t) ==>
      CountOf(s.disk, s.tasks[l.fetch.t].file) == s.tasks[l.fetch.t].count
    ensures AppendOk(Apply(s, l))
  {
    match l {
      case Starts(step) => BoundsByStarts(s, step) by { hide Inv, AppendOk; }
      case Fetches(step) =>
        if step.FinishRegister? { AppendByRegister(s, step.t) by { hide Inv, AppendOk; } }
        else { BoundsByFetches(s, step) by { hide Inv, AppendOk; } }
      case Replaces(step) => BoundsByReplaces(s, step) by { hide Inv, AppendOk; }
      case Creates(step) =>
        if step.Number? { AppendByNumber(s, step.t, step.ok) by { hide Inv, AppendOk; } }
        else if step.FinishNew? { AppendByFinishNew(s, step.t) by { hide Inv, AppendOk; } }
        else { BoundsByCreates(s, step) by { hide Inv, AppendOk; } }
      case Guards(step) =>
        if step.MarkDirty? { BoundsByMarkDirty(s, step.t) by { hide Inv, AppendOk; } }
        else { BoundsByGuards(s, step) by { hide Inv, AppendOk; } }
      case Cleans(step) => BoundsByCleans(s, step) by { hide Inv, AppendOk; }
      case Disks(step) => BoundsByTransfers(s, step) by { hide Inv, AppendOk; }
    }
    if BoundsStay(s, Apply(s, l)) { BoundsKeep(s, Apply(s, l)) by { hide Inv, AppendOk, BoundsStay, Enabled, Apply; } }
    hide Inv, AppendOk, BoundsStay, DoNumber, DoFinishNew, DoFinishRegister, DoMarkDirty,
         ApplyStarts, ApplyReplaces, ApplyCleans, ApplyDisks;
  }

  lemma AppendByRegister(s: System, t: TaskId)
    requires s.Wf() && Inv(s) && AppendOk(s) && CanFinishRegister(s, t)
    requires Opening(s, t) ==> CountOf(s.disk, s.tasks[t].file) == s.tasks[t].count
    ensures AppendOk(DoFinishRegister(s, t))
  {
    if Opening(s, t) { RegistrationIsCurrent(s, t) by { hide Inv, AppendOk; } }
    hide Inv;
  }

  /** The number a creation holds is the bound: the wrong-number branch is reached only for an empty file. */
  lemma WrongNumberOnlyWhenEmpty(s: System, t: TaskId)
    requires s.Wf() && Inv(s) && CanBindPage(s, t)
    ensures var file, no := s.tasks[t].file, s.tasks[t].no;
      && file in s.pool.files && no == s.pool.files[file].bound
      && (no == 0 || no != s.pool.files[file].bound <==> s.pool.files[file].bound == 0)
  {
    TaskKnown(s, t) by { hide Inv; }
    hide Inv, Core, FrameOk, LoadOk;
  }

  /** A published bound moves only when a creation is published, and then by exactly one. */
  lemma BoundsMoveByOne(s: System, l: Label, file: nat)
    requires s.Wf() && Inv(s) && Enabled(s, l) && file in s.pool.files && file in Apply(s, l).pool.files
    ensures var before, after := s.pool.files[file].bound, Apply(s, l).pool.files[file].bound;
      after == before || (after == before + 1 && l.Creates? && l.create.FinishNew? && PageId(file, before) in Apply(s, l).published)
  {
    match l {
      case Starts(step) => BoundsByStarts(s, step) by { hide Inv; }
      case Fetches(step) =>
        if step.FinishRegister? { RegistrationKeepsBounds(s, step.t, file) by { hide Inv; } } else { BoundsByFetches(s, step) by { hide Inv; } }
      case Replaces(step) => BoundsByReplaces(s, step) by { hide Inv; }
      case Creates(step) =>
        if step.FinishNew? { FinishNewMovesBound(s, step.t, file) by { hide Inv; } }
        else if step.Number? { NumberKeepsBounds(s, step.t, step.ok, file) by { hide Inv; } }
        else { BoundsByCreates(s, step) by { hide Inv; } }
      case Guards(step) =>
        if step.MarkDirty? { BoundsByMarkDirty(s, step.t) by { hide Inv; } } else { BoundsByGuards(s, step) by { hide Inv; } }
      case Cleans(step) => BoundsByCleans(s, step) by { hide Inv; }
      case Disks(step) => BoundsByTransfers(s, step) by { hide Inv; }
    }
    hide Inv, DoNumber, DoFinishNew, DoFinishRegister, DoMarkDirty, ApplyStarts, ApplyReplaces, ApplyCleans, ApplyDisks;
  }

  lemma RegistrationKeepsBounds(s: System, t: TaskId, file: nat)
    requires s.Wf() && CanFinishRegister(s, t) && file in s.pool.files
    ensures file in DoFinishRegister(s, t).pool.files && DoFinishRegister(s, t).pool.files[file] == s.pool.files[file]
  {}

  lemma NumberKeepsBounds(s: System, t: TaskId, ok: bool, file: nat)
    requires s.Wf() && CanNumber(s, t) && file in s.pool.files
    ensures file in DoNumber(s, t, ok).pool.files && DoNumber(s, t, ok).pool.files[file].bound == s.pool.files[file].bound
  {}

  lemma FinishNewMovesBound(s: System, t: TaskId, file: nat)
    requires s.Wf() && Inv(s) && CanFinishNew(s, t) && file in s.pool.files
    ensures var s' := DoFinishNew(s, t);
      && file in s'.pool.files
      && (s'.pool.files[file].bound == s.pool.files[file].bound
          || (s'.pool.files[file].bound == s.pool.files[file].bound + 1 && PageId(file, s.pool.files[file].bound) in s'.published))
  {
    TaskKnown(s, t) by { hide Inv; }
    var page := s.tasks[t].page;
    assert page.file in s.pool.files && page.no == s.pool.files[page.file].bound by { hide Inv, Core, FrameOk, LoadOk; }
    hide Inv, Core, Knows;
  }

  // ---- Runs whose registrations are current ----

  ghost predicate CurrentRuns(s: System, labels: seq<Label>)
    decreases |labels|
  {
    |labels| == 0 ||
    (&& s.Wf() && Enabled(s, labels[0])
     && (labels[0].Fetches? && labels[0].fetch.FinishRegister? && Opening(s, labels[0].fetch.t) ==>
           CountOf(s.disk, s.tasks[labels[0].fetch.t].file) == s.tasks[labels[0].fetch.t].count)
     && CurrentRuns(Apply(s, labels[0]), labels[1..]))
  }

  /** Over any such run the physical count stays the bound or the bound plus one, and no page is published past it. */
  lemma {:induction false} AppendRuns(s: System, labels: seq<Label>)
    requires Inv(s) && AppendOk(s) && CurrentRuns(s, labels)
    ensures Runs(s, labels) && Inv(After(s, labels)) && AppendOk(After(s, labels))
    decreases |labels|
  {
    if |labels| > 0 {
      StepKeeps(s, labels[0]) by { hide Inv, Enabled, AppendOk; }
      AppendKeeps(s, labels[0]) by { hide Inv, Enabled, AppendOk; }
      AppendRuns(Apply(s, labels[0]), labels[1..]) by { hide Inv, Enabled, AppendOk; }
    }
    hide Inv, Enabled, Apply, AppendOk;
  }
}
