/** Every step of every task, and every step of the disk, keeps the invariant. */
module BufferPreservation {
  import opened Basics
  import opened PageChecksum
  import opened ClockReplacement
  import opened BufferState
  import opened BufferSystem
  import opened BufferInvariant
  import opened BufferTaskStep
  import opened BufferCallSteps
  import opened BufferGuardSteps
  import opened BufferReplaceSteps
  import opened BufferLoadSteps
  import opened BufferCreateSteps
  import opened BufferWriteSteps
  import opened BufferDiskSteps
  import opened BufferFileSteps
  import opened BufferOpenSteps
  import opened BufferPins
  import opened BufferPinSteps

  lemma Combine(s: System, s': System, t: TaskId)
    requires Inv(s) && Core(s') && PinsSteady(s, s', t)
    ensures Inv(s')
  {
    SteadyKeeps(s, s', t) by { hide Core, PinsOk, LatchesOk, PinsSteady; }
    hide *;
  }

  lemma InvParts(s: System)
    requires Inv(s)
    ensures Core(s) && PinsOk(s) && LatchesOk(s) && s.Wf()
  {
    hide TaskOk, PinsOk, LatchesOk;
  }

  lemma TaskKnown(s: System, t: TaskId)
    requires Inv(s) && t in s.tasks
    ensures Knows(s, t) && Core(s) && s.Wf()
  {
    KnowsAt(s, t) by { hide Core, PinsOk, LatchesOk; }
    assert s.Wf() by { hide TaskOk, PinsOk, LatchesOk; }
    hide *;
  }

  // ---- Pins protect frames ----

  /** A pin is counted, so a task that owns one finds its frame pinned. */
  lemma OwnerPins(s: System, t: TaskId, f: nat)
    requires PinsOk(s) && PinAt(s, t) == Some(f) && f < |s.pool.frames|
    ensures s.pool.frames[f].pins > 0
  {
    assert t in Owners(s, f);
  }

  lemma PinnedFrame(s: System, t: TaskId)
    requires Inv(s) && t in s.tasks && (s.tasks[t].Pinned? || s.tasks[t].Guard? || s.tasks[t].Unpin?)
    ensures s.tasks[t].frame < |s.pool.frames| && s.pool.frames[s.tasks[t].frame].pins > 0 && s.Wf()
    ensures Core(s) && PinsOk(s) && LatchesOk(s)
    ensures FrameOk(s, s.tasks[t].frame)
  {
    var f := s.tasks[t].frame;
    InvParts(s) by { hide *; }
    TaskAt(s, t) by { hide Inv, PinsOk, LatchesOk, Core; }
    assert f < |s.pool.frames| by { hide Inv, PinsOk, LatchesOk, Core, StateOk, Shows; }
    OwnerPins(s, t, f) by { hide Inv, PinsOk, LatchesOk, Core, TaskOk; }
    FrameAt(s, f) by { hide Inv, PinsOk, LatchesOk, Core, TaskOk, StateOk; }
    hide *;
  }

  /** Nobody holds the latch of an unpinned frame. */
  lemma UnpinnedIsUnlatched(s: System, f: nat)
    requires PinsOk(s) && LatchesOk(s) && f < |s.pool.frames| && s.pool.frames[f].pins == 0
    ensures s.pool.frames[f].latch.Unused()
  {
    var latch := s.pool.frames[f].latch;
    assert latch.writer.Some? ==> latch.writer == Some(latch.writer.value);
    forall u ensures u !in latch.readers && latch.writer != Some(u) { assert u !in Owners(s, f); }
  }

  // ---- Guards ----

  lemma InvTakeLatch(s: System, t: TaskId)
    requires Inv(s) && CanTakeLatch(s, t)
    ensures s.Wf() && Inv(DoTakeLatch(s, t))
  {
    PinnedFrame(s, t) by { hide Inv; }
    KeepTakeLatch(s, t) by { hide Inv, Core, PinsOk, LatchesOk, FrameOk; }
    PinsTakeLatch(s, t) by { hide Inv, Core, PinsOk, LatchesOk, FrameOk; }
    hide Core, PinsOk, LatchesOk, FrameOk, CanTakeLatch, DoTakeLatch;
  }

  lemma InvMutate(s: System, t: TaskId, bytes: Image)
    requires Inv(s) && CanMutate(s, t)
    ensures s.Wf() && Inv(DoMutate(s, t, bytes))
  {
    PinnedFrame(s, t) by { hide Inv; }
    KeepMutate(s, t, bytes) by { hide Inv, Core, PinsOk, LatchesOk, FrameOk; }
    TaskKnown(s, t) by { hide Inv; }
    SteadyMutate(s, t, bytes) by { hide Inv, Core, PinsOk, LatchesOk, FrameOk, Knows; }
    Combine(s, DoMutate(s, t, bytes), t) by { hide Inv, Core, PinsOk, LatchesOk, FrameOk, Knows, PinsSteady; }
    hide *;
  }

  lemma InvMarkDirty(s: System, t: TaskId)
    requires Inv(s) && CanMutate(s, t)
    ensures s.Wf() && Inv(DoMarkDirty(s, t))
  {
    PinnedFrame(s, t) by { hide Inv; }
    KeepMarkDirty(s, t) by { hide Inv, Core, PinsOk, LatchesOk, FrameOk; }
    TaskKnown(s, t) by { hide Inv; }
    SteadyMarkDirty(s, t) by { hide Inv, Core, PinsOk, LatchesOk, FrameOk, Knows; }
    Combine(s, DoMarkDirty(s, t), t) by { hide Inv, Core, PinsOk, LatchesOk, FrameOk, Knows, PinsSteady; }
    hide *;
  }

  lemma InvReleaseLatch(s: System, t: TaskId)
    requires Inv(s) && CanReleaseLatch(s, t)
    ensures s.Wf() && Inv(DoReleaseLatch(s, t))
  {
    PinnedFrame(s, t) by { hide Inv; }
    KeepReleaseLatch(s, t) by { hide Inv, Core, PinsOk, LatchesOk, FrameOk; }
    TaskKnown(s, t) by { hide Inv; }
    PinsReleaseLatch(s, t) by { hide Inv, Core, PinsOk, LatchesOk, FrameOk, Knows; }
    hide Core, PinsOk, LatchesOk, FrameOk, CanReleaseLatch, DoReleaseLatch, Knows;
  }

  lemma InvReleasePin(s: System, t: TaskId)
    requires Inv(s) && CanReleasePin(s, t)
    ensures s.Wf() && Inv(DoReleasePin(s, t))
  {
    PinnedFrame(s, t) by { hide Inv; }
    KeepReleasePin(s, t) by { hide Inv, Core, PinsOk, LatchesOk, FrameOk; }
    TaskKnown(s, t) by { hide Inv; }
    PinsReleasePin(s, t) by { hide Inv, Core, PinsOk, LatchesOk, FrameOk, Knows; }
    hide Core, PinsOk, LatchesOk, FrameOk, CanReleasePin, DoReleasePin, Knows;
  }

  lemma GuardsKeep(s: System, step: Guarding)
    requires s.Wf() && Inv(s) && GuardsEnabled(s, step)
    ensures Inv(ApplyGuards(s, step))
  {
    match step {
      case TakeLatch(t) => InvTakeLatch(s, t) by { hide Inv, CanTakeLatch; }
      case Mutate(t, bytes) => InvMutate(s, t, bytes) by { hide Inv, CanMutate; }
      case MarkDirty(t) => InvMarkDirty(s, t) by { hide Inv, CanMutate; }
      case ReleaseLatch(t) => InvReleaseLatch(s, t) by { hide Inv, CanReleaseLatch; }
      case ReleasePin(t) => InvReleasePin(s, t) by { hide Inv, CanReleasePin; }
    }
    hide Inv;
  }

  // ---- Arrivals ----

  lemma InvArrival(s: System, t: TaskId, task: Task)
    requires Inv(s) && Fresh(s, t) && AsksNothing(s, task)
    ensures Inv(s.At(t, task))
  {
    InvParts(s) by { hide *; }
    KeepArrival(s, t, task) by { hide Inv, Core, PinsOk, LatchesOk; }
    SteadyArrives(s, t, task) by { hide Inv, Core, PinsOk, LatchesOk; }
    Combine(s, s.At(t, task), t) by { hide Inv, Core, PinsOk, LatchesOk, PinsSteady; }
    hide *;
  }

  lemma InvDeparture(s: System, t: TaskId)
    requires Inv(s) && t in s.tasks && RoleOf(s, t) == Role(None, false, false, None, None)
    requires !s.tasks[t].Guard? && !s.tasks[t].Join? && PinOf(s.pool.loads, s.tasks[t]) == None
    ensures Inv(s.End(t))
  {
    TaskKnown(s, t) by { hide Inv; }
    KeepDeparture(s, t) by { hide Inv, Core, Knows; }
    SteadyDeparts(s, t) by { hide Inv, Core, Knows; }
    Combine(s, s.End(t), t) by { hide Inv, Core, PinsSteady, Knows; }
    hide *;
  }

  lemma InvStartRetire(s: System, t: TaskId, file: nat, discard: bool)
    requires Inv(s) && CanStartRetire(s, t, file)
    ensures Inv(DoStartRetire(s, t, file, discard))
  {
    InvParts(s) by { hide *; }
    KeepStartRetire(s, t, file, discard) by { hide Inv, Core, PinsOk, LatchesOk; }
    SteadyStartRetire(s, t, file, discard) by { hide Inv, Core, PinsOk, LatchesOk; }
    Combine(s, DoStartRetire(s, t, file, discard), t) by { hide Inv, Core, PinsOk, LatchesOk, PinsSteady; }
    hide *;
  }

  lemma InvStartShutdown(s: System, t: TaskId)
    requires Inv(s) && Fresh(s, t)
    ensures Inv(AfterStartShutdown(s, t))
  {
    InvParts(s) by { hide *; }
    KeepStartShutdown(s, t) by { hide Inv, Core, PinsOk, LatchesOk; }
    SteadyStartShutdown(s, t) by { hide Inv, Core, PinsOk, LatchesOk; }
    Combine(s, AfterStartShutdown(s, t), t) by { hide Inv, Core, PinsOk, LatchesOk, PinsSteady; }
    hide *;
  }

  lemma StartsKeep(s: System, step: Start)
    requires s.Wf() && Inv(s) && StartsEnabled(s, step)
    ensures Inv(ApplyStarts(s, step))
  {
    match step {
      case StartFetch(t, page, mode) => InvArrival(s, t, Fetch(page, mode)) by { hide Inv; }
      case StartNew(t, file) => InvArrival(s, t, NewWait(file)) by { hide Inv; }
      case StartFlushPage(t, page) => InvArrival(s, t, Flush(Flushing, [page], false)) by { hide Inv; }
      case StartFlush(t, only, pages) => InvArrival(s, t, Flush(Flushing, pages, false)) by { hide Inv; }
      case StartRetire(t, file, discard) => InvStartRetire(s, t, file, discard) by { hide Inv; }
      case StartShutdown(t) => InvStartShutdown(s, t) by { hide Inv; }
      case StartRegister(t, file) => InvArrival(s, t, Register(file, CountOf(s.disk, file))) by { hide Inv; }
    }
    hide Inv;
  }

  // ---- Fetches ----

  lemma InvFinishRegister(s: System, t: TaskId)
    requires Inv(s) && CanFinishRegister(s, t)
    ensures s.Wf() && Inv(DoFinishRegister(s, t))
  {
    var Register(file, count) := s.tasks[t];
    InvParts(s) by { hide *; }
    if file == 0 || s.pool.quiescing || file in s.pool.files {
      InvDeparture(s, t) by { hide Inv, Core, PinsOk, LatchesOk; }
    } else {
      TaskKnown(s, t) by { hide Inv; }
      assert Opens(s, t, file, count) by { hide Inv, Core, PinsOk, LatchesOk; }
      KeepOpen(s, t, file, count) by { hide Inv, Core, PinsOk, LatchesOk, Knows, Opens; }
      SteadyRegister(s, t) by { hide Inv, Core, PinsOk, LatchesOk, Knows, Opens; }
      Combine(s, DoFinishRegister(s, t), t) by { hide Inv, Core, PinsOk, LatchesOk, PinsSteady, Knows, Opens; }
    }
    hide Inv, Core, PinsOk, LatchesOk, Knows, PinsSteady;
  }

  lemma InvInstall(s: System, t: TaskId)
    requires Inv(s) && CanExamine(s, t) && Fetchable(s.pool, s.tasks[t].page) == None && s.tasks[t].page !in s.pool.table
    ensures Inv(AfterInstall(s, t))
  {
    InvParts(s) by { hide *; }
    KeepInstall(s, t) by { hide Inv, Core, PinsOk, LatchesOk; }
    PinsInstall(s, t) by { hide Inv, Core, PinsOk, LatchesOk; }
    hide Core, PinsOk, LatchesOk, AfterInstall;
  }

  lemma InvPin(s: System, t: TaskId, f: nat)
    requires Inv(s) && CanExamine(s, t) && Fetchable(s.pool, s.tasks[t].page) == None
    requires s.tasks[t].page in s.pool.table && s.pool.table[s.tasks[t].page] == Entry(ResidentEntry, f, None)
    requires f < |s.pool.frames| && s.pool.frames[f].pins < s.pool.maxPins
    ensures s.Wf() && Inv(AfterPin(s, t, f))
  {
    InvParts(s) by { hide *; }
    KeepPinResident(s, t, f) by { hide Inv, Core, PinsOk, LatchesOk; }
    PinsPin(s, t, f) by { hide Inv, Core, PinsOk, LatchesOk; }
    hide Core, PinsOk, LatchesOk;
  }

  lemma InvClaim(s: System, t: TaskId, l: TaskId)
    requires Inv(s) && CanExamine(s, t) && l in s.pool.loads && s.pool.loads[l].claims < s.pool.maxPins && !s.pool.loads[l].done
    ensures Inv(AfterClaim(s, t, l))
  {
    InvParts(s) by { hide *; }
    BufferCallSteps.KeepClaim(s, t, l) by { hide Inv, Core, PinsOk, LatchesOk; }
    PinsClaim(s, t, l) by { hide Inv, Core, PinsOk, LatchesOk; }
    hide Core, PinsOk, LatchesOk, AfterClaim;
  }

  /** A load in flight is open for claims. */
  lemma EntryLoadOpen(s: System, page: PageId)
    requires Core(s) && page in s.pool.table && s.pool.table[page].load.Some?
    ensures LoadOpen(s, s.pool.table[page].load.value)
  {
    EntryAt(s, page) by { hide TaskOk; }
    TaskAt(s, s.pool.table[page].load.value) by { hide StateOk, TaskOk; }
    hide Core, StateOk, SameContent, ProgressOk;
  }

  lemma ResidentEntryAt(s: System, page: PageId)
    requires Core(s) && page in s.pool.table && s.pool.table[page].state == ResidentEntry
    ensures s.pool.table[page].load == None
  {
    EntryAt(s, page) by { hide TaskOk; }
    hide Core;
  }

  /** What one examination does, as the steps above. */
  lemma ExamineCases(s: System, t: TaskId)
    requires s.Wf() && CanExamine(s, t)
    ensures var page, s' := s.tasks[t].page, DoExamine(s, t);
      if Fetchable(s.pool, page).Some? then s' == s.End(t)
      else if page !in s.pool.table then s' == AfterInstall(s, t)
      else
        var entry := s.pool.table[page];
        || s' == s || s' == s.End(t)
        || (entry.state == ResidentEntry && entry.frame < |s.pool.frames| && s.pool.frames[entry.frame].pins < s.pool.maxPins
            && s' == AfterPin(s, t, entry.frame))
        || (entry.load.Some? && entry.load.value in s.pool.loads && s.pool.loads[entry.load.value].claims < s.pool.maxPins
            && s' == AfterClaim(s, t, entry.load.value))
  {
    hide Fetchable;
  }

  lemma InvExamine(s: System, t: TaskId)
    requires Inv(s) && CanExamine(s, t)
    ensures s.Wf() && Inv(DoExamine(s, t))
  {
    var page := s.tasks[t].page;
    InvParts(s) by { hide *; }
    hide Inv, Core, PinsOk, LatchesOk, Fetchable, DoExamine;
    ExamineCases(s, t);
    InvDeparture(s, t);
    if Fetchable(s.pool, page) == None {
      if page !in s.pool.table {
        InvInstall(s, t);
      } else {
        var entry := s.pool.table[page];
        if entry.state == ResidentEntry {
          ResidentEntryAt(s, page);
          if entry.frame < |s.pool.frames| && s.pool.frames[entry.frame].pins < s.pool.maxPins { InvPin(s, t, entry.frame); }
        }
        if entry.load.Some? {
          EntryLoadOpen(s, page);
          if s.pool.loads[entry.load.value].claims < s.pool.maxPins { InvClaim(s, t, entry.load.value); }
        }
      }
    }
  }

  lemma InvWake(s: System, t: TaskId)
    requires Inv(s) && CanWake(s, t)
    ensures Inv(DoWake(s, t))
  {
    TaskKnown(s, t) by { hide Inv; }
    KeepWake(s, t) by { hide Inv, Core, Knows; }
    SteadyWake(s, t) by { hide Inv, Core, Knows; }
    Combine(s, DoWake(s, t), t) by { hide Inv, Core, PinsSteady, Knows; }
    hide *;
  }

  lemma InvBind(s: System, t: TaskId)
    requires Inv(s) && CanBind(s, t)
    ensures s.Wf() && Inv(DoBind(s, t))
  {
    TaskKnown(s, t) by { hide Inv; }
    assert s.tasks[t].frame < |s.pool.frames| by { hide Inv, Core, TaskOk, FrameOk, LoadOk; }
    KeepBind(s, t) by { hide Inv, Core, Knows; }
    SteadyBind(s, t) by { hide Inv, Core, Knows; }
    Combine(s, DoBind(s, t), t) by { hide Inv, Core, PinsSteady, Knows; }
    hide *;
  }

  lemma InvReadPage(s: System, t: TaskId, verdict: Verdict, bytes: Image)
    requires Inv(s) && CanReadPage(s, t, verdict)
    ensures s.Wf() && Inv(DoReadPage(s, t, verdict, bytes))
  {
    TaskKnown(s, t) by { hide Inv; }
    assert s.tasks[t].frame < |s.pool.frames| by { hide Inv, Core, TaskOk, FrameOk, LoadOk; }
    KeepReadPage(s, t, verdict, bytes) by { hide Inv, Core, Knows; }
    SteadyReadPage(s, t, verdict, bytes) by { hide Inv, Core, Knows; }
    Combine(s, DoReadPage(s, t, verdict, bytes), t) by { hide Inv, Core, PinsSteady, Knows; }
    hide *;
  }

  lemma InvFinishLoad(s: System, t: TaskId)
    requires Inv(s) && CanFinishLoad(s, t)
    ensures s.Wf() && Inv(DoFinishLoad(s, t))
  {
    TaskKnown(s, t) by { hide Inv; }
    assert s.tasks[t].frame < |s.pool.frames| by { hide Inv, Core, TaskOk, FrameOk, LoadOk; }
    if LoadFails(s, t) {
      KeepFailRead(s, t) by { hide Inv, Core, Knows; }
      SteadyFailRead(s, t) by { hide Inv, Core, Knows; }
      Combine(s, DoFinishLoad(s, t), t) by { hide Inv, Core, PinsSteady, Knows, LoadFails; }
    } else {
      InvParts(s) by { hide *; }
      KeepFinishLoad(s, t) by { hide Inv, Core, Knows, PinsOk, LatchesOk; }
      PinsPublish(s, t) by { hide Inv, Core, Knows, PinsOk, LatchesOk; }
    }
    hide Core, PinsOk, LatchesOk, LoadFails, DoFinishLoad, Knows, PinsSteady, CanFinishLoad;
  }

  lemma FetchesKeep(s: System, step: Fetching)
    requires s.Wf() && Inv(s) && FetchesEnabled(s, step)
    ensures Inv(ApplyFetches(s, step))
  {
    match step {
      case FinishRegister(t) => InvFinishRegister(s, t) by { hide Inv; }
      case Examine(t) => InvExamine(s, t) by { hide Inv; }
      case Wake(t) => InvWake(s, t) by { hide Inv; }
      case Bind(t) => InvBind(s, t) by { hide Inv; }
      case ReadPage(t, verdict, bytes) => InvReadPage(s, t, verdict, bytes) by { hide Inv; }
      case FinishLoad(t) => InvFinishLoad(s, t) by { hide Inv; }
    }
    hide Inv;
  }

  // ---- AcquireFrame ----

  lemma InvHunt(s: System, t: TaskId, want: Want, task: Task, clock: Clock)
    requires Inv(s) && t in s.tasks && clock.Valid() && |clock.referenced| == |s.pool.frames|
    requires Hunts(s.tasks[t], want) && Hunts(task, want)
    ensures Inv(AfterHunt(s, t, task, clock))
  {
    TaskKnown(s, t) by { hide Inv; }
    KeepHunt(s, t, want, task, clock) by { hide Inv, Core, Knows; }
    SteadyHunt(s, t, want, task, clock) by { hide Inv, Core, Knows; }
    Combine(s, AfterHunt(s, t, task, clock), t) by { hide Inv, Core, PinsSteady, Knows; }
    hide *;
  }

  lemma InvReserve(s: System, t: TaskId, want: Want, f: nat, clock: Clock)
    requires Inv(s) && t in s.tasks && clock.Valid() && |clock.referenced| == |s.pool.frames|
    requires Hunts(s.tasks[t], want) && f < |s.pool.frames| && Eligible(s.pool, f)
    ensures s.Wf() && Inv(AfterReserve(s, t, want, f, clock))
  {
    InvParts(s) by { hide *; }
    UnpinnedIsUnlatched(s, f) by { hide Inv, Core, PinsOk, LatchesOk; }
    TaskKnown(s, t) by { hide Inv; }
    KeepReserve(s, t, want, f, clock) by { hide Inv, Core, PinsOk, LatchesOk, Knows; }
    SteadyReserve(s, t, want, f, clock) by { hide Inv, Core, PinsOk, LatchesOk, Knows; }
    Combine(s, AfterReserve(s, t, want, f, clock), t) by { hide Inv, Core, PinsOk, LatchesOk, PinsSteady, Knows; }
    hide *;
  }

  /** The call that wanted a frame fails: LoadPage's fail, or NewPage's finish. */
  lemma InvGiveUp(s: System, t: TaskId, want: Want)
    requires Inv(s) && t in s.tasks && s.tasks[t] == Acquire(want)
    ensures s.Wf() && Inv(GiveUp(s, t, want))
  {
    TaskKnown(s, t) by { hide Inv; }
    match want {
      case ForLoad(page, mode) => KeepGiveUpLoad(s, t) by { hide Inv, Core, Knows; }
      case ForNew(file) =>
        assert file in s.pool.files by { hide Inv, Core, FrameOk, LoadOk; }
        KeepGiveUpNew(s, t, 0, PageId(file, 0)) by { hide Inv, Core, Knows; }
    }
    SteadyGiveUp(s, t, want) by { hide Inv, Core, Knows; }
    Combine(s, GiveUp(s, t, want), t) by { hide Inv, Core, PinsSteady, Knows; }
    hide *;
  }

  lemma FindSound(c: Clock, eligible: seq<bool>)
    requires c.Valid() && |eligible| == |c.referenced|
    ensures var r := Find(c, eligible);
      r.clock.Valid() && |r.clock.referenced| == |c.referenced|
      && (r.candidate.Some? ==> r.candidate.value < |eligible| && eligible[r.candidate.value])
  {}

  lemma InvTakeFree(s: System, t: TaskId)
    requires Inv(s) && CanSearch(s, t) && |s.pool.free| > 0
    ensures s.Wf() && Inv(DoSearch(s, t))
  {
    TaskKnown(s, t) by { hide Inv; }
    KeepTakeFree(s, t) by { hide Inv, Core, Knows; }
    SteadyTakeFree(s, t) by { hide Inv, Core, Knows; }
    Combine(s, DoSearch(s, t), t) by { hide Inv, Core, PinsSteady, Knows; }
    hide *;
  }

  /** Moving the hand first and giving up or reserving then is what one search does. */
  lemma SearchCases(s: System, t: TaskId)
    requires s.Wf() && CanSearch(s, t) && |s.pool.free| == 0
    ensures var want, found := s.tasks[t].want, Find(s.pool.clock, Eligibility(s.pool));
      && found.clock.Valid() && |found.clock.referenced| == |s.pool.frames|
      && (found.candidate.Some? ==>
            found.candidate.value < |s.pool.frames| && Eligible(s.pool, found.candidate.value)
            && DoSearch(s, t) == AfterReserve(s, t, want, found.candidate.value, found.clock))
      && (found.candidate == None ==> DoSearch(s, t) == GiveUp(AfterHunt(s, t, Acquire(want), found.clock), t, want))
  {
    var want, found := s.tasks[t].want, Find(s.pool.clock, Eligibility(s.pool));
    FindSound(s.pool.clock, Eligibility(s.pool));
    assert s.tasks[t := Acquire(want)] == s.tasks;
    hide Find;
  }

  lemma InvSearch(s: System, t: TaskId)
    requires Inv(s) && CanSearch(s, t)
    ensures s.Wf() && Inv(DoSearch(s, t))
  {
    InvParts(s) by { hide *; }
    if |s.pool.free| > 0 {
      InvTakeFree(s, t) by { hide Inv, Core, PinsOk, LatchesOk; }
    } else {
      SearchCases(s, t) by { hide Inv, Core, PinsOk, LatchesOk; }
      var want, found := s.tasks[t].want, Find(s.pool.clock, Eligibility(s.pool));
      match found.candidate {
        case Some(f) => InvReserve(s, t, want, f, found.clock) by { hide Inv, Core, PinsOk, LatchesOk, Find; }
        case None =>
          var s1 := AfterHunt(s, t, Acquire(want), found.clock);
          InvHunt(s, t, want, Acquire(want), found.clock) by { hide Inv, Core, PinsOk, LatchesOk, Find; }
          InvGiveUp(s1, t, want) by { hide Inv, Core, PinsOk, LatchesOk, Find; }
      }
    }
    hide Inv, Core, PinsOk, LatchesOk, Find, DoSearch;
  }

  lemma InvObserve(s: System, t: TaskId)
    requires s.Wf() && Inv(s) && CanObserve(s, t)
    ensures Inv(DoObserve(s, t))
  {
    var found := Find(s.pool.clock, Eligibility(s.pool));
    FindSound(s.pool.clock, Eligibility(s.pool)) by { hide Inv; }
    var f := found.candidate.value;
    InvHunt(s, t, s.tasks[t].want, Observed(s.tasks[t].want, f, s.pool.frames[f].page), found.clock) by { hide Inv, Find; }
    hide Inv, Find;
  }

  lemma SameHand(s: System, t: TaskId, want: Want, f: nat)
    requires s.Wf() && f < |s.pool.frames|
    ensures AfterReserve(s, t, want, f, s.pool.clock) == Reserve(s, t, want, f)
    ensures AfterHunt(s, t, Acquire(want), s.pool.clock) == s.At(t, Acquire(want))
  {}

  lemma InvRecheck(s: System, t: TaskId)
    requires Inv(s) && CanRecheck(s, t)
    ensures s.Wf() && Inv(DoRecheck(s, t))
  {
    InvParts(s) by { hide *; }
    var Observed(want, f, victim) := s.tasks[t];
    if f >= |s.pool.frames| || !Eligible(s.pool, f) || s.pool.frames[f].page != victim || |s.pool.free| > 0 {
      SameHand(s, t, want, 0) by { hide Inv, Core, PinsOk, LatchesOk; }
      InvHunt(s, t, want, Acquire(want), s.pool.clock) by { hide Inv, Core, PinsOk, LatchesOk; }
    } else {
      SameHand(s, t, want, f) by { hide Inv, Core, PinsOk, LatchesOk; }
      InvReserve(s, t, want, f, s.pool.clock) by { hide Inv, Core, PinsOk, LatchesOk; }
    }
    hide Inv, Core, PinsOk, LatchesOk, Reserve, AfterReserve, AfterHunt;
  }

  /** The mapping of a victim that is clean, or whose image is durable, goes. */
  lemma InvDrop(s: System, t: TaskId)
    requires Inv(s) && t in s.tasks && (s.tasks[t].Reserved? || s.tasks[t].Evict?) && s.tasks[t].frame < |s.pool.frames|
    requires s.pool.frames[s.tasks[t].frame].dirty ==> s.tasks[t].Evict? && s.tasks[t].progress == Synced
    ensures s.Wf() && Inv(AfterDrop(s, t, s.tasks[t].frame, s.tasks[t].want))
  {
    TaskKnown(s, t) by { hide Inv; }
    KeepDrop(s, t) by { hide Inv, Core, Knows; }
    SteadyDrop(s, t) by { hide Inv, Core, Knows; }
    Combine(s, AfterDrop(s, t, s.tasks[t].frame, s.tasks[t].want), t) by { hide Inv, Core, PinsSteady, Knows; }
    hide *;
  }

  lemma InvBeginEvict(s: System, t: TaskId)
    requires Inv(s) && CanBeginEvict(s, t)
    ensures s.Wf() && Inv(DoBeginEvict(s, t))
  {
    TaskKnown(s, t) by { hide Inv; }
    assert s.tasks[t].frame < |s.pool.frames| by { hide Inv, Core, TaskOk, FrameOk, LoadOk; }
    if s.pool.frames[s.tasks[t].frame].dirty {
      KeepBeginEvict(s, t) by { hide Inv, Core, Knows; }
      SteadyBeginEvict(s, t) by { hide Inv, Core, Knows; }
      Combine(s, DoBeginEvict(s, t), t) by { hide Inv, Core, PinsSteady, Knows; }
    } else {
      InvDrop(s, t) by { hide Inv, Core, Knows; }
    }
    hide Inv, Core, Knows, DropVictim, SetIo, PinsSteady, Finalized;
  }

  lemma InvRestore(s: System, t: TaskId)
    requires Inv(s) && t in s.tasks && s.tasks[t].Evict? && s.tasks[t].frame < |s.pool.frames|
    ensures s.Wf() && Inv(AfterRestore(s, t, s.tasks[t].frame, s.tasks[t].want))
  {
    TaskKnown(s, t) by { hide Inv; }
    KeepRestore(s, t) by { hide Inv, Core, Knows; }
    SteadyRestore(s, t) by { hide Inv, Core, Knows; }
    Combine(s, AfterRestore(s, t, s.tasks[t].frame, s.tasks[t].want), t) by { hide Inv, Core, PinsSteady, Knows; }
    hide *;
  }

  /** Restoring the victim first and giving up then is what a failed eviction does. */
  lemma FailedEviction(s: System, t: TaskId)
    requires s.Wf() && CanFinishEvict(s, t) && s.tasks[t].progress == Failed && s.tasks[t].frame < |s.pool.frames|
    ensures var want := s.tasks[t].want;
      DoFinishEvict(s, t) == GiveUp(AfterRestore(s, t, s.tasks[t].frame, want), t, want)
  {
    var want := s.tasks[t].want;
    assert s.tasks[t := Acquire(want)] - {t} == s.tasks - {t};
  }

  lemma InvFinishEvict(s: System, t: TaskId)
    requires Inv(s) && CanFinishEvict(s, t)
    ensures s.Wf() && Inv(DoFinishEvict(s, t))
  {
    TaskKnown(s, t) by { hide Inv; }
    assert s.tasks[t].frame < |s.pool.frames| by { hide Inv, Core, TaskOk, FrameOk, LoadOk; }
    if s.tasks[t].progress == Failed {
      InvRestore(s, t) by { hide Inv, Core, Knows; }
      FailedEviction(s, t) by { hide Inv, Core, Knows; }
      InvGiveUp(AfterRestore(s, t, s.tasks[t].frame, s.tasks[t].want), t, s.tasks[t].want) by { hide Inv, Core, Knows; }
    } else {
      InvDrop(s, t) by { hide Inv, Core, Knows; }
    }
    hide Inv, Core, Knows, DropVictim, RestoreVictim, GiveUp;
  }

  lemma ReplacesKeep(s: System, step: Replacing)
    requires s.Wf() && Inv(s) && ReplacesEnabled(s, step)
    ensures Inv(ApplyReplaces(s, step))
  {
    match step {
      case Search(t) => InvSearch(s, t) by { hide Inv; }
      case Observe(t) => InvObserve(s, t) by { hide Inv; }
      case Recheck(t) => InvRecheck(s, t) by { hide Inv; }
      case BeginEvict(t) => InvBeginEvict(s, t) by { hide Inv; }
      case FinishEvict(t) => InvFinishEvict(s, t) by { hide Inv; }
    }
    hide Inv, CanObserve, DoObserve, DoSearch, DoRecheck;
  }

  // ---- NewPage ----

  lemma InvTakeTurn(s: System, t: TaskId)
    requires Inv(s) && CanTakeTurn(s, t)
    ensures s.Wf() && Inv(DoTakeTurn(s, t))
  {
    var file := s.tasks[t].file;
    TaskKnown(s, t) by { hide Inv; }
    if s.pool.quiescing || file !in s.pool.files || s.pool.files[file].state != Active {
      InvDeparture(s, t) by { hide Inv, Core, Knows; }
    } else if s.pool.files[file].creator == None {
      KeepTurn(s, t, file) by { hide Inv, Core, Knows; }
      SteadyTakeTurn(s, t) by { hide Inv, Core, Knows; }
      Combine(s, DoTakeTurn(s, t), t) by { hide Inv, Core, PinsSteady, Knows; }
    }
    hide Inv, Core, Knows, PinsSteady;
  }

  lemma InvGiveBack(s: System, t: TaskId, file: nat)
    requires Inv(s) && t in s.tasks && (s.tasks[t].Owned? || s.tasks[t].Numbered?) && CreatorOf(s.tasks[t]) == Some(file)
    ensures s.Wf() && s.tasks[t].frame < |s.pool.frames| && Inv(AfterGiveBack(s, t, s.tasks[t].frame, file))
  {
    TaskKnown(s, t) by { hide Inv; }
    var f := s.tasks[t].frame;
    assert f < |s.pool.frames| by { hide Inv, Core, TaskOk, FrameOk, LoadOk; }
    KeepGiveBack(s, t, f, PageId(file, 0)) by { hide Inv, Core, Knows; }
    SteadyGiveBack(s, t, file) by { hide Inv, Core, Knows; }
    Combine(s, AfterGiveBack(s, t, f, file), t) by { hide Inv, Core, PinsSteady, Knows; }
    hide *;
  }

  /** The frame goes back first; the creation fails then. */
  lemma InvAbandon(s: System, t: TaskId, file: nat)
    requires Inv(s) && t in s.tasks && (s.tasks[t].Owned? || s.tasks[t].Numbered?) && CreatorOf(s.tasks[t]) == Some(file)
    ensures s.Wf() && s.tasks[t].frame < |s.pool.frames|
    ensures Inv(GiveUp(s.(pool := ReleaseFrame(s.pool, s.tasks[t].frame)).Hold(s.tasks[t].frame, None), t, ForNew(file)))
  {
    InvGiveBack(s, t, file) by { hide Inv; }
    var f := s.tasks[t].frame;
    var s1 := AfterGiveBack(s, t, f, file);
    InvGiveUp(s1, t, ForNew(file)) by { hide Inv; }
    assert s1.tasks - {t} == s.tasks - {t} by { hide Inv; }
    assert GiveUp(s1, t, ForNew(file)) == GiveUp(s.(pool := ReleaseFrame(s.pool, f)).Hold(f, None), t, ForNew(file)) by { hide Inv; }
    hide *;
  }

  lemma InvExtended(s: System, file: nat, t: TaskId)
    requires Inv(s)
    ensures Inv(Extended(s, file)) && PageId(file, CountOf(s.disk, file)) in Extended(s, file).disk.volatile
  {
    InvParts(s) by { hide *; }
    KeepExtended(s, file) by { hide Inv, Core, PinsOk, LatchesOk; }
    assert PinsSteady(s, Extended(s, file), t) by { hide Inv, Core, PinsOk, LatchesOk; }
    Combine(s, Extended(s, file), t) by { hide Inv, Core, PinsOk, LatchesOk, PinsSteady; }
    hide *;
  }

  lemma InvNumbered(s: System, t: TaskId, file: nat, f: nat)
    requires Inv(s) && t in s.tasks && s.tasks[t] == Owned(ForNew(file), f)
    requires file in s.pool.files && PageId(file, s.pool.files[file].bound) in s.disk.volatile
    ensures Inv(AfterNumber(s, t, file, f))
  {
    TaskKnown(s, t) by { hide Inv; }
    KeepNumber(s, t, file, f) by { hide Inv, Core, Knows; }
    SteadyNumber(s, t, file, f) by { hide Inv, Core, Knows; }
    Combine(s, AfterNumber(s, t, file, f), t) by { hide Inv, Core, PinsSteady, Knows; }
    hide *;
  }

  /** The physical count never falls below the published bound, and every counted page exists. */
  lemma CountAtLeastBound(s: System, file: nat)
    requires Core(s) && file in s.pool.files
    ensures s.pool.files[file].bound <= CountOf(s.disk, file)
    ensures s.pool.files[file].bound < CountOf(s.disk, file) ==> PageId(file, s.pool.files[file].bound) in s.disk.volatile
  {
    FileAt(s, file) by { hide TaskOk; }
    assert DiskOk(s.disk) by { hide TaskOk, DiskOk; }
    hide Core;
  }

  lemma NumberingFile(s: System, t: TaskId)
    requires Knows(s, t) && (CanNumber(s, t) || CanBindPage(s, t))
    ensures var file := if s.tasks[t].Owned? then s.tasks[t].want.file else s.tasks[t].file;
      && s.tasks[t].frame < |s.pool.frames| && file in s.pool.files
      && (s.tasks[t].Numbered? ==> s.tasks[t].no == s.pool.files[file].bound)
  {
    hide FrameOk, LoadOk;
  }

  /** Numbering reuses the page past the bound, or extends the file first. */
  lemma NumberCases(s: System, t: TaskId, file: nat, f: nat)
    requires s.Wf() && CanNumber(s, t) && s.tasks[t] == Owned(ForNew(file), f) && f < |s.pool.frames| && file in s.pool.files
    requires s.pool.files[file].bound <= CountOf(s.disk, file)
    ensures DoNumber(s, t, true) ==
      AfterNumber(if CountOf(s.disk, file) > s.pool.files[file].bound then s else Extended(s, file), t, file, f)
  {}

  lemma InvNumber(s: System, t: TaskId, ok: bool)
    requires Inv(s) && CanNumber(s, t)
    ensures s.Wf() && Inv(DoNumber(s, t, ok))
  {
    var Owned(ForNew(file), f) := s.tasks[t];
    TaskKnown(s, t) by { hide Inv; }
    NumberingFile(s, t) by { hide Inv, Core, Knows; }
    if !ok {
      InvAbandon(s, t, file) by { hide Inv, Core, Knows; }
      assert Inv(DoNumber(s, t, ok)) by { hide Inv, Core, Knows, ReleaseFrame, GiveUp; }
    } else {
      CountAtLeastBound(s, file) by { hide Inv, Core, Knows; }
      NumberCases(s, t, file, f) by { hide Inv, Core, Knows; }
      if CountOf(s.disk, file) > s.pool.files[file].bound {
        InvNumbered(s, t, file, f) by { hide Inv, Core, Knows; }
      } else {
        InvExtended(s, file, t) by { hide Inv, Core, Knows; }
        InvNumbered(Extended(s, file), t, file, f) by { hide Inv, Core, Knows; }
      }
    }
    hide Inv, Core, Knows, DoNumber;
  }

  lemma InvBindPage(s: System, t: TaskId)
    requires Inv(s) && CanBindPage(s, t)
    ensures s.Wf() && Inv(DoBindPage(s, t))
  {
    var Numbered(file, f, no) := s.tasks[t];
    TaskKnown(s, t) by { hide Inv; }
    NumberingFile(s, t) by { hide Inv, Core, Knows; }
    if no == 0 {
      InvAbandon(s, t, file) by { hide Inv, Core, Knows; }
    } else {
      NumberedIsUnbound(s, t) by { hide Inv, Core, Knows; }
      KeepBindPage(s, t, f, PageId(file, no)) by { hide Inv, Core, Knows; }
      SteadyBindPage(s, t) by { hide Inv, Core, Knows; }
      Combine(s, DoBindPage(s, t), t) by { hide Inv, Core, PinsSteady, Knows; }
    }
    hide Inv, Core, Knows, ReleaseFrame, GiveUp, PinsSteady, BindNew;
  }

  lemma InvConstruct(s: System, t: TaskId, built: bool, bytes: Image)
    requires Inv(s) && CanConstruct(s, t, built, bytes)
    ensures s.Wf() && Inv(DoConstruct(s, t, built, bytes))
  {
    TaskKnown(s, t) by { hide Inv; }
    assert s.tasks[t].frame < |s.pool.frames| by { hide Inv, Core, TaskOk, FrameOk, LoadOk; }
    KeepConstruct(s, t, s.tasks[t].frame, s.tasks[t].page, built, bytes) by { hide Inv, Core, Knows; }
    SteadyConstruct(s, t, built, bytes) by { hide Inv, Core, Knows; }
    Combine(s, DoConstruct(s, t, built, bytes), t) by { hide Inv, Core, PinsSteady, Knows; }
    hide *;
  }

  lemma InvFinishNew(s: System, t: TaskId)
    requires Inv(s) && CanFinishNew(s, t)
    ensures s.Wf() && Inv(DoFinishNew(s, t))
  {
    TaskKnown(s, t) by { hide Inv; }
    var f, p := s.tasks[t].frame, s.tasks[t].page;
    assert f < |s.pool.frames| by { hide Inv, Core, TaskOk, FrameOk, LoadOk; }
    if NewFails(s, t) {
      KeepAbortNew(s, t, f, p) by { hide Inv, Core, Knows; }
      SteadyAbortNew(s, t) by { hide Inv, Core, Knows; }
      Combine(s, DoFinishNew(s, t), t) by { hide Inv, Core, PinsSteady, Knows, NewFails; }
    } else {
      InvParts(s) by { hide *; }
      KeepPublishNew(s, t, f, p) by { hide Inv, Core, Knows, PinsOk, LatchesOk; }
      PinsPublishNew(s, t) by { hide Inv, Core, Knows, PinsOk, LatchesOk; }
    }
    hide Core, PinsOk, LatchesOk, NewFails, DoFinishNew, Knows, PinsSteady, CanFinishNew;
  }

  lemma CreatesKeep(s: System, step: Creating)
    requires s.Wf() && Inv(s) && CreatesEnabled(s, step)
    ensures Inv(ApplyCreates(s, step))
  {
    match step {
      case TakeTurn(t) => InvTakeTurn(s, t) by { hide Inv; }
      case Number(t, ok) => InvNumber(s, t, ok) by { hide Inv; }
      case BindPage(t) => InvBindPage(s, t) by { hide Inv; }
      case Construct(t, built, bytes) => InvConstruct(s, t, built, bytes) by { hide Inv; }
      case FinishNew(t) => InvFinishNew(s, t) by { hide Inv; }
    }
    hide Inv, DoNumber, DoBindPage, DoFinishNew;
  }

  // ---- Writeback ----

  lemma InvSkip(s: System, t: TaskId)
    requires Inv(s) && CanFlushNext(s, t) && forall o :: !Matches(s.pool, o, s.tasks[t].pages[0])
    ensures Inv(AfterSkip(s, t))
  {
    TaskKnown(s, t) by { hide Inv; }
    KeepSkip(s, t) by { hide Inv, Core, Knows; }
    SteadySkip(s, t) by { hide Inv, Core, Knows; }
    Combine(s, AfterSkip(s, t), t) by { hide Inv, Core, PinsSteady, Knows; }
    hide *;
  }

  lemma InvWriteClaim(s: System, t: TaskId, f: nat, p: PageId)
    requires Inv(s) && CanFlushNext(s, t) && p == s.tasks[t].pages[0] && f < |s.pool.frames|
    requires p in s.pool.table && s.pool.table[p].state == ResidentEntry && s.pool.table[p].frame == f
    requires s.pool.frames[f].dirty && s.pool.frames[f].io == Idle
    ensures s.Wf() && Inv(DoFlushNext(s, t))
  {
    TaskKnown(s, t) by { hide Inv; }
    BufferWriteSteps.KeepClaim(s, t, f, p) by { hide Inv, Core, Knows; }
    SteadyClaim(s, t, f, p) by { hide Inv, Core, Knows; }
    Combine(s, DoFlushNext(s, t), t) by { hide Inv, Core, PinsSteady, Knows; }
    hide *;
  }

  lemma InvFlushNext(s: System, t: TaskId)
    requires Inv(s) && CanFlushNext(s, t)
    ensures s.Wf() && Inv(DoFlushNext(s, t))
  {
    InvParts(s) by { hide *; }
    var p := s.tasks[t].pages[0];
    if p !in s.pool.table || s.pool.table[p].state in {IntentEntry, LoadingEntry} {
      InvSkip(s, t) by { hide Inv, Core, PinsOk, LatchesOk; }
    } else if s.pool.table[p].state == ResidentEntry && s.pool.table[p].frame < |s.pool.frames| {
      var f := s.pool.table[p].frame;
      if !s.pool.frames[f].dirty {
        InvSkip(s, t) by { hide Inv, Core, PinsOk, LatchesOk; }
      } else if s.pool.frames[f].io == Idle {
        InvWriteClaim(s, t, f, p) by { hide Inv, Core, PinsOk, LatchesOk; }
      }
    }
    hide Inv, Core, PinsOk, LatchesOk, SetIo;
  }

  lemma InvCopyImage(s: System, t: TaskId)
    requires Inv(s) && CanCopyImage(s, t)
    ensures Inv(DoCopyImage(s, t))
  {
    TaskKnown(s, t) by { hide Inv; }
    KeepCopyImage(s, t) by { hide Inv, Core, Knows; }
    SteadyCopyImage(s, t) by { hide Inv, Core, Knows; }
    Combine(s, DoCopyImage(s, t), t) by { hide Inv, Core, PinsSteady, Knows; }
    hide *;
  }

  lemma InvFinishWrite(s: System, t: TaskId)
    requires Inv(s) && CanFinishWrite(s, t)
    ensures s.Wf() && Inv(DoFinishWrite(s, t))
  {
    TaskKnown(s, t) by { hide Inv; }
    assert s.tasks[t].frame < |s.pool.frames| by { hide Inv, Core, TaskOk, FrameOk, LoadOk; }
    KeepFinishWrite(s, t) by { hide Inv, Core, Knows; }
    SteadyFinishWrite(s, t) by { hide Inv, Core, Knows; }
    Combine(s, DoFinishWrite(s, t), t) by { hide Inv, Core, PinsSteady, Knows; }
    hide *;
  }

  // ---- Drains and closes ----

  lemma InvFinishDrain(s: System, t: TaskId, pages: seq<PageId>)
    requires Inv(s) && CanFinishDrain(s, t, pages)
    ensures Inv(DoFinishDrain(s, t, pages))
  {
    TaskKnown(s, t) by { hide Inv; }
    KeepFinishDrain(s, t, pages) by { hide Inv, Core, Knows; }
    SteadyFinishDrain(s, t, pages) by { hide Inv, Core, Knows; }
    Combine(s, DoFinishDrain(s, t, pages), t) by { hide Inv, Core, PinsSteady, Knows; }
    hide *;
  }

  lemma InvFinishDrainAll(s: System, t: TaskId, pages: seq<PageId>)
    requires Inv(s) && CanFinishDrainAll(s, t, pages)
    ensures Inv(AfterDrainAll(s, t, pages))
  {
    TaskKnown(s, t) by { hide Inv; }
    KeepFinishDrainAll(s, t, pages) by { hide Inv, Core, Knows; }
    assert PinsSteady(s, AfterDrainAll(s, t, pages), t) by { hide Inv, Core, Knows, AllDrained, AllIdle; }
    Combine(s, AfterDrainAll(s, t, pages), t) by { hide Inv, Core, PinsSteady, Knows; }
    hide *;
  }

  lemma InvClose(s: System, t: TaskId, g: nat, freed: seq<nat>)
    requires Inv(s) && t in s.tasks && (s.tasks[t].Drain? || s.tasks[t].Flush?) && RetirerIs(s, t, g)
    requires Drained(s.pool, g) && NoIo(s.pool, g) && EnumeratesFrames(freed, s.pool, g)
    ensures s.Wf() && Inv(AfterClose(s, t, g, freed))
  {
    InvParts(s) by { hide *; }
    forall f | 0 <= f < |s.pool.frames| && s.pool.frames[f].pins == 0 ensures s.pool.frames[f].latch.Unused() {
      UnpinnedIsUnlatched(s, f) by { hide Inv, Core, PinsOk, LatchesOk; }
    }
    assert Closes(s, t, g, freed) by { hide Inv, Core, PinsOk, LatchesOk, Drained, NoIo, EnumeratesFrames; }
    KeepClose(s, t, g, freed) by { hide Inv, Core, PinsOk, LatchesOk, Closes; }
    assert StateOk(s) by { hide Inv, StateOk, TaskOk, PinsOk, LatchesOk, Closes; }
    PinsClose(s, t, g, freed) by { hide Inv, Core, StateOk, PinsOk, LatchesOk, Closes; }
    hide Core, StateOk, PinsOk, LatchesOk, Closes, AfterClose;
  }

  lemma InvDiscard(s: System, t: TaskId, freed: seq<nat>)
    requires Inv(s) && CanDiscard(s, t, freed)
    ensures s.Wf() && Inv(DoDiscard(s, t, freed))
  {
    TaskKnown(s, t) by { hide Inv; }
    var g := s.tasks[t].file;
    assert RetirerIs(s, t, g) by { hide Inv, Core, FrameOk, LoadOk, Drained, NoIo, EnumeratesFrames; }
    InvClose(s, t, g, freed) by { hide Inv, Core, Knows, Drained, NoIo, EnumeratesFrames; }
    hide Inv, Core, Knows, Drained, NoIo, EnumeratesFrames, CloseFile;
  }

  /** When nothing of a drained file is dirty, nothing of it is being written. */
  lemma CleanIsIdle(s: System, g: nat)
    requires Core(s) && Drained(s.pool, g) && forall page :: !Matches(s.pool, Some(g), page)
    ensures NoIo(s.pool, g)
  {
    forall page | page in s.pool.table && page.file == g && s.pool.table[page].frame < |s.pool.frames|
      ensures s.pool.frames[s.pool.table[page].frame].io == Idle
    {
      CleanPageIsIdle(s, g, page) by { hide Core; }
    }
    hide Core, Drained, Matches;
  }

  lemma CleanPageIsIdle(s: System, g: nat, page: PageId)
    requires Core(s) && Drained(s.pool, g) && page in s.pool.table && page.file == g && s.pool.table[page].frame < |s.pool.frames|
    requires !Matches(s.pool, Some(g), page)
    ensures s.pool.frames[s.pool.table[page].frame].io == Idle
  {
    EntryAt(s, page) by { hide TaskOk; }
    FrameAt(s, s.pool.table[page].frame) by { hide TaskOk; }
    hide Core, SameContent;
  }

  lemma InvRetireCloses(s: System, t: TaskId, file: nat, freed: seq<nat>)
    requires Inv(s) && CanFinishFlush(s, t, freed) && s.tasks[t] == Flush(RetiringFile(file), [], false)
    ensures s.Wf() && file in s.pool.files && Inv(DoFinishFlush(s, t, freed))
  {
    TaskKnown(s, t) by { hide Inv; }
    assert RetirerIs(s, t, file) && Drained(s.pool, file) && forall page :: !Matches(s.pool, Some(file), page) by {
      hide Inv, Core, FrameOk, LoadOk, Drained, Matches, EnumeratesFrames;
    }
    CleanIsIdle(s, file) by { hide Inv, Core, Knows, Drained, Matches; }
    InvClose(s, t, file, freed) by { hide Inv, Core, Knows, Drained, NoIo, EnumeratesFrames, Matches; }
    assert (map page | page in s.published && !Matches(s.pool, Some(file), page) :: s.published[page]) == s.published by {
      hide Inv, Core, Knows, Drained, NoIo, EnumeratesFrames, Matches;
    }
    hide Inv, Core, Knows, Drained, NoIo, EnumeratesFrames, CloseFile, Matches;
  }

  lemma InvRetireFails(s: System, t: TaskId, file: nat)
    requires Inv(s) && t in s.tasks && s.tasks[t].Flush? && s.tasks[t].job == RetiringFile(file)
    ensures file in s.pool.files && Inv(AfterRetireFails(s, t, file))
  {
    TaskKnown(s, t) by { hide Inv; }
    assert file in s.pool.files by { hide Inv, Core, FrameOk, LoadOk, Drained, Matches; }
    KeepRetireFails(s, t, file) by { hide Inv, Core, Knows; }
    assert PinsSteady(s, AfterRetireFails(s, t, file), t) by { hide Inv, Core, Knows; }
    Combine(s, AfterRetireFails(s, t, file), t) by { hide Inv, Core, PinsSteady, Knows; }
    hide *;
  }

  lemma InvShutdown(s: System, t: TaskId, failed: bool)
    requires Inv(s) && t in s.tasks && s.tasks[t] == Flush(ShuttingDown, [], failed)
    ensures Inv(AfterShutdown(s, t, failed))
  {
    TaskKnown(s, t) by { hide Inv; }
    KeepShutdown(s, t, failed) by { hide Inv, Core, Knows; }
    assert PinsSteady(s, AfterShutdown(s, t, failed), t) by { hide Inv, Core, Knows; }
    Combine(s, AfterShutdown(s, t, failed), t) by { hide Inv, Core, PinsSteady, Knows; }
    hide *;
  }

  lemma InvFinishFlush(s: System, t: TaskId, freed: seq<nat>)
    requires s.Wf() && Inv(s) && CanFinishFlush(s, t, freed)
    ensures Inv(DoFinishFlush(s, t, freed))
  {
    match s.tasks[t].job {
      case Flushing => InvDeparture(s, t) by { hide Inv; }
      case ShuttingDown => InvShutdown(s, t, s.tasks[t].failed) by { hide Inv; }
      case RetiringFile(file) =>
        if s.tasks[t].failed {
          InvRetireFails(s, t, file) by { hide Inv, EnumeratesFrames; }
        } else {
          InvRetireCloses(s, t, file, freed) by { hide Inv, EnumeratesFrames; }
        }
    }
    hide Inv, CloseFile;
  }

  lemma CleansKeep(s: System, step: Cleaning)
    requires s.Wf() && Inv(s) && CleansEnabled(s, step)
    ensures Inv(ApplyCleans(s, step))
  {
    match step {
      case FlushNext(t) => InvFlushNext(s, t) by { hide Inv; }
      case CopyImage(t) => InvCopyImage(s, t) by { hide Inv; }
      case FinishWrite(t) => InvFinishWrite(s, t) by { hide Inv; }
      case FinishDrain(t, pages) => InvFinishDrain(s, t, pages) by { hide Inv, CanFinishDrain; }
      case DiscardDrained(t, freed) => InvDiscard(s, t, freed) by { hide Inv, CanDiscard; }
      case FinishDrainAll(t, pages) => InvFinishDrainAll(s, t, pages) by { hide Inv, CanFinishDrainAll; }
      case FinishFlush(t, freed) => InvFinishFlush(s, t, freed) by { hide Inv, CanFinishFlush; }
    }
    hide Inv, DoFlushNext, DoFinishWrite, DoFinishFlush, DoDiscard, CanFinishFlush, CanDiscard, CanFinishDrain;
  }

  // ---- The disk ----

  lemma InvTear(s: System, t: TaskId, bytes: Image)
    requires s.Wf() && Inv(s) && Transfers(s, t, Pending)
    ensures Inv(DoTear(s, t, bytes))
  {
    TaskKnown(s, t) by { hide Inv; }
    KeepTear(s, t, bytes) by { hide Inv, Core, Knows; }
    SteadyTear(s, t, bytes) by { hide Inv, Core, Knows; }
    Combine(s, DoTear(s, t, bytes), t) by { hide Inv, Core, PinsSteady, Knows; }
    hide *;
  }

  lemma InvWriteDone(s: System, t: TaskId)
    requires s.Wf() && Inv(s) && Transfers(s, t, Pending)
    ensures Inv(DoWriteDone(s, t))
  {
    TaskKnown(s, t) by { hide Inv; }
    KeepWriteDone(s, t) by { hide Inv, Core, Knows; }
    SteadyWriteDone(s, t) by { hide Inv, Core, Knows; }
    Combine(s, DoWriteDone(s, t), t) by { hide Inv, Core, PinsSteady, Knows; }
    hide *;
  }

  lemma InvSyncDone(s: System, t: TaskId)
    requires s.Wf() && Inv(s) && Transfers(s, t, Written)
    ensures Inv(DoSyncDone(s, t))
  {
    TaskKnown(s, t) by { hide Inv; }
    KeepSyncDone(s, t) by { hide Inv, Core, Knows; }
    SteadySyncDone(s, t) by { hide Inv, Core, Knows; }
    Combine(s, DoSyncDone(s, t), t) by { hide Inv, Core, PinsSteady, Knows; }
    hide *;
  }

  lemma InvIoFails(s: System, t: TaskId, progress: Progress)
    requires s.Wf() && Inv(s) && Transfers(s, t, progress)
    ensures Inv(DoIoFails(s, t))
  {
    TaskKnown(s, t) by { hide Inv; }
    KeepIoFails(s, t, progress) by { hide Inv, Core, Knows; }
    SteadyIoFails(s, t) by { hide Inv, Core, Knows; }
    Combine(s, DoIoFails(s, t), t) by { hide Inv, Core, PinsSteady, Knows; }
    hide *;
  }

  lemma InvFlushed(s: System, page: PageId)
    requires s.Wf() && Inv(s) && page in s.disk.volatile
    ensures Inv(DoFlushed(s, page))
  {
    InvParts(s) by { hide *; }
    KeepFlushed(s, page) by { hide Inv, Core, PinsOk, LatchesOk; }
    assert PinsSteady(s, DoFlushed(s, page), 0) by { hide Inv, Core, PinsOk, LatchesOk; }
    Combine(s, DoFlushed(s, page), 0) by { hide Inv, Core, PinsSteady, PinsOk, LatchesOk; }
    hide *;
  }

  lemma DisksKeep(s: System, step: DiskStep)
    requires s.Wf() && Inv(s) && DisksEnabled(s, step)
    ensures Inv(ApplyDisks(s, step))
  {
    match step {
      case Tear(t, bytes) => InvTear(s, t, bytes) by { hide Inv; }
      case WriteDone(t) => InvWriteDone(s, t) by { hide Inv; }
      case SyncDone(t) => InvSyncDone(s, t) by { hide Inv; }
      case IoFails(t) =>
        if Transfers(s, t, Pending) {
          InvIoFails(s, t, Pending) by { hide Inv; }
        } else {
          InvIoFails(s, t, Written) by { hide Inv; }
        }
      case Flushed(page) => InvFlushed(s, page) by { hide Inv; }
    }
    hide Inv;
  }

  // ---- Every step ----

  lemma StepKeeps(s: System, l: Label)
    requires s.Wf() && Inv(s) && Enabled(s, l)
    ensures Inv(Apply(s, l))
  {
    match l {
      case Starts(step) => StartsKeep(s, step);
      case Fetches(step) => FetchesKeep(s, step);
      case Replaces(step) => ReplacesKeep(s, step);
      case Creates(step) => CreatesKeep(s, step);
      case Guards(step) => GuardsKeep(s, step);
      case Cleans(step) => CleansKeep(s, step);
      case Disks(step) => DisksKeep(s, step);
    }
    hide Inv, StartsEnabled, FetchesEnabled, ReplacesEnabled, CreatesEnabled, GuardsEnabled, CleansEnabled, DisksEnabled,
         ApplyStarts, ApplyFetches, ApplyReplaces, ApplyCreates, ApplyGuards, ApplyCleans, ApplyDisks;
  }
}
