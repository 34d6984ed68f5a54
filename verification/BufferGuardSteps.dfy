/** Preservation by the steps of pinned callers and live guards. */
module BufferGuardSteps {
  import opened Basics
  import opened PageChecksum
  import opened BufferState
  import opened BufferSystem
  import opened BufferInvariant
  import opened BufferRely
  import opened BufferLocal

  lemma BusyPage(s: System, s': System, t: TaskId, f: nat, p: PageId, g: nat, page: PageId)
    requires StateOk(s) && Confined(s, s', t, f, p, g) && page in s'.pool.table && page.file != p.file
    requires s.pool.frames[f] == s'.pool.frames[f] || s.pool.frames[f].page == p || s.pool.frames[f].state == Free
    ensures page in s.pool.table && s'.pool.table[page] == s.pool.table[page]
    ensures s.pool.table[page].state == ResidentEntry ==>
      s.pool.table[page].frame < |s.pool.frames|
      && s'.pool.frames[s.pool.table[page].frame] == s.pool.frames[s.pool.table[page].frame]
  {
    EntryAt(s, page);
    hide StateOk, LoaderOf, WantOf;
  }

  /** Drained files elsewhere do not notice a step on a page whose own file is not drained. */
  lemma BusyDrains(s: System, s': System, t: TaskId, f: nat, p: PageId, g: nat)
    requires StateOk(s) && Confined(s, s', t, f, p, g)
    requires s.pool.frames[f] == s'.pool.frames[f] || s.pool.frames[f].page == p || s.pool.frames[f].state == Free
    requires !Drained(s.pool, p.file) || (p.file in s.pool.files && s.pool.files[p.file].state == Active)
    requires !(s.pool.quiescing && AllDrained(s.pool))
    requires g == p.file || (g in s.pool.files && s.pool.files[g].state == Active)
    ensures SparesDrains(s, s', t)
  {
    forall file | file in s.pool.files && s.pool.files[file].state == Retiring && Drained(s.pool, file)
      ensures Drained(s'.pool, file)
      ensures forall page :: Matches(s'.pool, Some(file), page) ==> Matches(s.pool, Some(file), page)
    {
      assert file != p.file && file != g;
      forall page | page in s'.pool.table && page.file == file
        ensures page in s.pool.table && s'.pool.table[page] == s.pool.table[page]
        ensures s.pool.table[page].state == ResidentEntry ==>
          s.pool.table[page].frame < |s.pool.frames|
          && s'.pool.frames[s.pool.table[page].frame] == s.pool.frames[s.pool.table[page].frame]
      {
        BusyPage(s, s', t, f, p, g, page) by { hide StateOk, Confined, Drained, AllDrained; }
      }
    }
    hide StateOk, AllDrained;
  }

  /** A pinned frame is resident, and keeps its file from being drained. */
  lemma PinnedIsBusy(s: System, f: nat)
    requires StateOk(s) && f < |s.pool.frames| && s.pool.frames[f].pins > 0
    ensures s.pool.frames[f].state == Resident && Bound(s, f, ResidentEntry) && s.pool.frames[f].page in s.published
    ensures s.pool.frames[f].page.file in s.pool.files
    ensures !Drained(s.pool, s.pool.frames[f].page.file) && !AllDrained(s.pool)
  {
    FrameAt(s, f);
    EntryAt(s, s.pool.frames[f].page);
    hide StateOk, SameContent;
  }

  /** An update that leaves the free list alone, of a frame that is not free. */
  lemma BoundKeeps(s: System, s': System, t: TaskId, f: nat, p: PageId, g: nat, u: Update)
    requires Core(s) && Sound(s, f, u) && s' == Updated(s, t, f, p, g, u)
    requires s.pool.frames[f].state != Free && u.free == s.pool.free
    requires Owning(s, s', t, f, p, g) && Repaired(s', t, f, p, g)
    requires (u.frame.dirty ==> s.pool.frames[f].dirty) || !(s.pool.quiescing && AllDrained(s.pool))
    requires t in s'.tasks ==> TaskOk(s', t)
    ensures Core(s')
  {
    assert FreeOk(s) by { hide Owning, Repaired, TaskOk, FreeOk; }
    UpdateKeeps(s, s', t, f, p, g, u) by { hide Core, Owning, Repaired, TaskOk, AllDrained; }
    hide *;
  }


  /** A step that keeps a resident frame where it is: only its bytes, pins, latch and dirtiness move. */
  predicate Touches(s: System, t: TaskId, f: nat, u: Update)
    requires s.Wf() && f < |s.pool.frames|
  {
    var frame := s.pool.frames[f];
    && Sound(s, f, u) && frame.state == Resident && t in s.tasks && FrameOf(s.tasks[t]) == None
    && LoaderOf(s.tasks[t]) == None && CreatorOf(s.tasks[t]) == None
    && u.task != Keep && (u.task.Put? ==> FrameOf(u.task.value) == None)
    && u.load == Keep && u.entry == Keep && u.file == Keep && u.holder == s.holders[f] && u.free == s.pool.free
    && u.frame.page == frame.page && u.frame.state == frame.state && u.frame.io == frame.io && u.frame.epoch == frame.epoch
    && match u.image
       case Keep => u.frame.dirty == frame.dirty && u.frame.generation == frame.generation
       case Put(image) => u.frame.dirty && u.frame.generation > frame.generation && u.frame.bytes == image
       case Gone => false
  }

  /** What the latch protects: readers exclude changes, and unlatched frames show the published image. */
  ghost predicate KeepsLatch(s: System, t: TaskId, f: nat, u: Update)
    requires s.Wf() && f < |s.pool.frames|
  {
    var frame := s.pool.frames[f];
    && (u.frame.latch.writer.Some? ==> u.frame.latch.readers == {})
    && (forall v :: v != t && v in frame.latch.readers ==> v in u.frame.latch.readers)
    && (forall v :: v != t && frame.latch.writer == Some(v) ==> u.frame.latch.writer == Some(v))
    && (u.frame.bytes != frame.bytes || u.image != Keep ==> frame.latch.writer == Some(t))
    && (u.frame.latch.writer == None && u.image == Keep ==> u.frame.bytes == frame.bytes && Shows(s, f))
  }

  lemma TouchRepaired(s: System, s': System, t: TaskId, f: nat, p: PageId, u: Update)
    requires Around(s, t, f, p, p.file) && p == s.pool.frames[f].page && Touches(s, t, f, u) && KeepsLatch(s, t, f, u)
    requires s' == Updated(s, t, f, p, p.file, u)
    ensures Repaired(s', t, f, p, p.file)
  {
    assert FrameOk(s', f) by { hide EntryOk, PageOk, FileOk, LoadOk, TaskOk, SameContent; }
    assert p in s'.pool.table ==> EntryOk(s', p) by { hide FrameOk, PageOk, FileOk, LoadOk, TaskOk, KeepsLatch; }
    assert p in s'.published ==> PageOk(s', p) by { hide EntryOk, FileOk, LoadOk, TaskOk, KeepsLatch, SameContent; }
    assert p.file in s'.pool.files ==> FileOk(s', p.file) by { hide EntryOk, FrameOk, PageOk, LoadOk, TaskOk, KeepsLatch, SameContent; }
    assert t in s'.pool.loads ==> LoadOk(s', t) by { hide EntryOk, FrameOk, PageOk, FileOk, TaskOk, KeepsLatch, SameContent; }
    hide Around, FrameOk, EntryOk, PageOk, FileOk, LoadOk, TaskOk, KeepsLatch;
  }

  lemma TouchOwning(s: System, s': System, t: TaskId, f: nat, p: PageId, u: Update)
    requires Around(s, t, f, p, p.file) && p == s.pool.frames[f].page && Touches(s, t, f, u) && KeepsLatch(s, t, f, u)
    requires s' == Updated(s, t, f, p, p.file, u) && SparesDrains(s, s', t)
    ensures Owning(s, s', t, f, p, p.file)
  {
    assert SparesFrame(s, s', f) || !Other(s.holders[f], t) by {
      hide EntryOk, PageOk, FileOk, LoadOk, TaskOk, SparesDrains, KeepsLatch, SameContent;
    }
    forall v | v != t && Latched(s.pool.frames[f].latch, v) ensures SparesGuard(s, s', f, v) {
      hide EntryOk, PageOk, FileOk, LoadOk, TaskOk, SparesDrains, SameContent;
    }
    hide EntryOk, PageOk, FileOk, LoadOk, TaskOk, SparesDrains, KeepsLatch, SparesFrame, SparesGuard, SameContent;
  }

  lemma TouchKeeps(s: System, s': System, t: TaskId, f: nat, u: Update)
    requires Core(s) && f < |s.pool.frames| && Touches(s, t, f, u) && KeepsLatch(s, t, f, u)
    requires s' == Updated(s, t, f, s.pool.frames[f].page, s.pool.frames[f].page.file, u)
    requires s.pool.frames[f].pins > 0 || Fetchable(s.pool, s.pool.frames[f].page) == None
    requires t in s'.tasks ==> TaskOk(s', t)
    ensures Core(s')
  {
    var p := s.pool.frames[f].page;
    AroundAt(s, t, f, p, p.file);
    if s.pool.frames[f].pins > 0 { PinnedIsBusy(s, f) by { hide Around, Touches, KeepsLatch, TaskOk; } }
    UpdateConfined(s, t, f, p, p.file, u) by { hide Around, StateOk, KeepsLatch, TaskOk; }
    BusyDrains(s, s', t, f, p, p.file) by { hide Around, KeepsLatch, TaskOk, Confined; }
    TouchRepaired(s, s', t, f, p, u) by { hide Around, StateOk, KeepsLatch, TaskOk, Touches; }
    TouchOwning(s, s', t, f, p, u) by { hide Around, StateOk, KeepsLatch, TaskOk, Touches; }
    BoundKeeps(s, s', t, f, p, p.file, u) by { hide Around, StateOk, KeepsLatch, TaskOk, Confined; }
    hide *;
  }

  // ---- The steps ----

  function Retouch(s: System, f: nat, task: Change<Task>, frame: Frame, image: Change<Image>): Update
    requires s.Wf() && f < |s.holders|
  {
    Update(task, Keep, frame, s.holders[f], Keep, image, Keep, s.pool.free, s.pool.clock)
  }

  /** Such a step, described by an update. */
  ghost predicate TouchStep(s: System, s': System, t: TaskId, f: nat, u: Update)
    requires s.Wf() && f < |s.pool.frames|
  {
    && Touches(s, t, f, u) && KeepsLatch(s, t, f, u) && s'.Wf()
    && s' == Updated(s, t, f, s.pool.frames[f].page, s.pool.frames[f].page.file, u)
    && (t in s'.tasks ==> TaskOk(s', t))
  }

  lemma TouchStepKeeps(s: System, s': System, t: TaskId, f: nat, u: Update)
    requires Core(s) && f < |s.pool.frames| && TouchStep(s, s', t, f, u)
    requires s.pool.frames[f].pins > 0 || Fetchable(s.pool, s.pool.frames[f].page) == None
    ensures Core(s')
  {
    TouchKeeps(s, s', t, f, u) by { hide StateOk, Core, KeepsLatch, Touches, TaskOk; }
    hide *;
  }

  /** What a step on a frame its task has pinned may use. */
  ghost predicate PinnedBy(s: System, t: TaskId, f: nat)
  {
    s.Wf() && t in s.tasks && f < |s.pool.frames| && FrameOk(s, f) && TaskOk(s, t) && s.pool.frames[f].state == Resident
  }

  lemma PinnedAt(s: System, t: TaskId, f: nat)
    requires Core(s) && t in s.tasks && f < |s.pool.frames| && s.pool.frames[f].pins > 0
    ensures PinnedBy(s, t, f)
  {
    TaskAt(s, t);
    FrameAt(s, f);
    PinnedIsBusy(s, f);
    hide StateOk, FrameOk, TaskOk;
  }

  lemma TouchReleasePin(s: System, t: TaskId, f: nat)
    requires PinnedBy(s, t, f) && CanReleasePin(s, t) && f == s.tasks[t].frame && s.pool.frames[f].pins > 0
    ensures var s' := DoReleasePin(s, t);
      TouchStep(s, s', t, f, Retouch(s, f, Gone, s'.pool.frames[f], Keep))
  {
    hide SameContent;
  }

  lemma KeepReleasePin(s: System, t: TaskId)
    requires Core(s) && CanReleasePin(s, t) && s.tasks[t].frame < |s.pool.frames| && s.pool.frames[s.tasks[t].frame].pins > 0
    ensures Core(DoReleasePin(s, t))
  {
    var f := s.tasks[t].frame;
    PinnedAt(s, t, f) by { hide Core; }
    TouchReleasePin(s, t, f) by { hide Core, PinnedBy; }
    var s' := DoReleasePin(s, t);
    TouchStepKeeps(s, s', t, f, Retouch(s, f, Gone, s'.pool.frames[f], Keep)) by { hide Core, TouchStep, PinnedBy; }
    hide *;
  }

  lemma TouchTakeLatch(s: System, t: TaskId, f: nat)
    requires PinnedBy(s, t, f) && CanTakeLatch(s, t) && f == s.tasks[t].frame
    ensures var s' := DoTakeLatch(s, t);
      t in s'.tasks && TouchStep(s, s', t, f, Retouch(s, f, Put(s'.tasks[t]), s'.pool.frames[f], Keep))
  {
    hide SameContent;
  }

  lemma KeepTakeLatch(s: System, t: TaskId)
    requires Core(s) && CanTakeLatch(s, t) && s.tasks[t].frame < |s.pool.frames| && s.pool.frames[s.tasks[t].frame].pins > 0
    ensures Core(DoTakeLatch(s, t))
  {
    var f := s.tasks[t].frame;
    PinnedAt(s, t, f) by { hide Core; }
    TouchTakeLatch(s, t, f) by { hide Core, PinnedBy; }
    var s' := DoTakeLatch(s, t);
    TouchStepKeeps(s, s', t, f, Retouch(s, f, Put(s'.tasks[t]), s'.pool.frames[f], Keep)) by { hide Core, TouchStep, PinnedBy; }
    hide *;
  }

  lemma TouchMutate(s: System, t: TaskId, f: nat, bytes: Image)
    requires PinnedBy(s, t, f) && CanMutate(s, t) && f == s.tasks[t].frame
    ensures var s' := DoMutate(s, t, bytes);
      t in s'.tasks && TouchStep(s, s', t, f, Retouch(s, f, Put(s'.tasks[t]), s'.pool.frames[f], Keep))
  {
    hide SameContent;
  }

  lemma KeepMutate(s: System, t: TaskId, bytes: Image)
    requires Core(s) && CanMutate(s, t) && s.tasks[t].frame < |s.pool.frames| && s.pool.frames[s.tasks[t].frame].pins > 0
    ensures Core(DoMutate(s, t, bytes))
  {
    var f := s.tasks[t].frame;
    PinnedAt(s, t, f) by { hide Core; }
    TouchMutate(s, t, f, bytes) by { hide Core, PinnedBy; }
    var s' := DoMutate(s, t, bytes);
    TouchStepKeeps(s, s', t, f, Retouch(s, f, Put(s'.tasks[t]), s'.pool.frames[f], Keep)) by { hide Core, TouchStep, PinnedBy; }
    hide *;
  }

  lemma TouchMarkDirty(s: System, t: TaskId, f: nat)
    requires PinnedBy(s, t, f) && CanMutate(s, t) && f == s.tasks[t].frame
    ensures var s' := DoMarkDirty(s, t);
      t in s'.tasks && TouchStep(s, s', t, f, Retouch(s, f, Put(s'.tasks[t]), s'.pool.frames[f], Put(s.pool.frames[f].bytes)))
  {}

  lemma KeepMarkDirty(s: System, t: TaskId)
    requires Core(s) && CanMutate(s, t) && s.tasks[t].frame < |s.pool.frames| && s.pool.frames[s.tasks[t].frame].pins > 0
    ensures Core(DoMarkDirty(s, t))
  {
    var f := s.tasks[t].frame;
    PinnedAt(s, t, f) by { hide Core; }
    TouchMarkDirty(s, t, f) by { hide Core, PinnedBy; }
    var s' := DoMarkDirty(s, t);
    TouchStepKeeps(s, s', t, f, Retouch(s, f, Put(s'.tasks[t]), s'.pool.frames[f], Put(s.pool.frames[f].bytes))) by { hide Core, TouchStep, PinnedBy; }
    hide *;
  }

  lemma TouchReleaseLatch(s: System, t: TaskId, f: nat)
    requires PinnedBy(s, t, f) && CanReleaseLatch(s, t) && f == s.tasks[t].frame
    ensures var s' := DoReleaseLatch(s, t);
      t in s'.tasks && TouchStep(s, s', t, f, Retouch(s, f, Put(s'.tasks[t]), s'.pool.frames[f], Keep))
  {
    hide SameContent;
  }

  lemma KeepReleaseLatch(s: System, t: TaskId)
    requires Core(s) && CanReleaseLatch(s, t) && s.tasks[t].frame < |s.pool.frames| && s.pool.frames[s.tasks[t].frame].pins > 0
    ensures Core(DoReleaseLatch(s, t))
  {
    var f := s.tasks[t].frame;
    PinnedAt(s, t, f) by { hide Core; }
    TouchReleaseLatch(s, t, f) by { hide Core, PinnedBy; }
    var s' := DoReleaseLatch(s, t);
    TouchStepKeeps(s, s', t, f, Retouch(s, f, Put(s'.tasks[t]), s'.pool.frames[f], Keep)) by { hide Core, TouchStep, PinnedBy; }
    hide *;
  }
  // ---- PinPage finds the page resident ----

  function AfterPin(s: System, t: TaskId, f: nat): System
    requires s.Wf() && CanExamine(s, t) && f < |s.pool.frames|
  {
    s.(pool := PinResident(s.pool, f)).At(t, Pinned(f, s.tasks[t].mode))
  }

  ghost predicate Pins(s: System, t: TaskId, f: nat)
  {
    && s.Wf() && CanExamine(s, t) && f < |s.pool.frames| && FrameOk(s, f) && s.pool.frames[f].state == Resident
  }

  lemma TouchPin(s: System, t: TaskId, f: nat)
    requires Pins(s, t, f)
    ensures var s' := AfterPin(s, t, f);
      TouchStep(s, s', t, f, Retouch(s, f, Put(Pinned(f, s.tasks[t].mode)), s'.pool.frames[f], Keep).(clock := s'.pool.clock))
  {
    hide SameContent;
  }

  lemma KeepPinResident(s: System, t: TaskId, f: nat)
    requires Core(s) && s.Wf() && CanExamine(s, t) && Fetchable(s.pool, s.tasks[t].page) == None
    requires s.tasks[t].page in s.pool.table && s.pool.table[s.tasks[t].page] == Entry(ResidentEntry, f, None)
    requires f < |s.pool.frames|
    ensures Core(AfterPin(s, t, f))
  {
    FrameAt(s, f) by { hide TaskOk; }
    EntryAt(s, s.tasks[t].page) by { hide TaskOk, FrameOk; }
    assert s.pool.frames[f].page == s.tasks[t].page && s.pool.frames[f].state == Resident by { hide Core, FrameOk; }
    TouchPin(s, t, f) by { hide Core, FrameOk, EntryOk; }
    var s' := AfterPin(s, t, f);
    TouchStepKeeps(s, s', t, f, Retouch(s, f, Put(Pinned(f, s.tasks[t].mode)), s'.pool.frames[f], Keep).(clock := s'.pool.clock)) by {
      hide Core, TouchStep, FrameOk, EntryOk;
    }
    hide *;
  }
}
