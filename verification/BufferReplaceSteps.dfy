/** Preservation by AcquireFrame: free frames, victims and their writeback. */
module BufferReplaceSteps {
  import opened Basics
  import opened PageChecksum
  import opened ClockReplacement
  import opened BufferState
  import opened BufferSystem
  import opened BufferInvariant
  import opened BufferLocal
  import opened BufferMoves

  // ---- A frame leaves the free list for exactly one task ----

  ghost predicate TakesFree(s: System, t: TaskId, want: Want, f: nat, p: PageId)
  {
    && Around(s, t, f, p, p.file) && FreeOk(s) && t in s.tasks && s.tasks[t] == Acquire(want) && p == Home(want)
    && |s.pool.free| > 0 && f == s.pool.free[|s.pool.free| - 1]
  }

  lemma ShapeTakeFree(s: System, t: TaskId, want: Want, f: nat, p: PageId)
    requires TakesFree(s, t, want, f, p)
    ensures Shape(s, DoSearch(s, t), t, f, p, p.file, Seen(DoSearch(s, t), f, Put(Owned(want, f)), Keep, Keep, Keep, Keep))
  {
    PopLast(s.pool.free);
    hide SameContent, TaskOk, EntryOk, PageOk, FileOk, LoadOk;
  }

  lemma MendTakeFree(s: System, t: TaskId, want: Want, f: nat, p: PageId)
    requires TakesFree(s, t, want, f, p)
    ensures Mended(DoSearch(s, t), t, f, p, p.file)
  {
    PopLast(s.pool.free);
    hide SameContent;
  }

  lemma LastFree(s: System)
    requires Core(s) && |s.pool.free| > 0
    ensures FreeOk(s) && s.pool.free[|s.pool.free| - 1] < |s.pool.frames|
  {
    assert FreeOk(s) by { hide TaskOk, FreeOk; }
    assert s.pool.free[|s.pool.free| - 1] in s.pool.free;
    hide Core;
  }

  lemma TakesFreeAt(s: System, t: TaskId)
    requires Core(s) && CanSearch(s, t) && |s.pool.free| > 0
    ensures var f, p := s.pool.free[|s.pool.free| - 1], Home(s.tasks[t].want);
      TakesFree(s, t, s.tasks[t].want, f, p) && Busy(s, p, p.file)
  {
    var want, f := s.tasks[t].want, s.pool.free[|s.pool.free| - 1];
    LastFree(s) by { hide Core; }
    AroundAt(s, t, f, Home(want), Home(want).file) by { hide Core, FreeOk; }
    TaskAt(s, t) by { hide Core, FreeOk, Around; }
    WantBusy(s, t, want) by { hide Core, FreeOk, Around, Drained, AllDrained, StateOk; }
    hide Core, StateOk, TaskOk, FreeOk, Around, Drained, AllDrained;
  }

  lemma KeepTakeFree(s: System, t: TaskId)
    requires Core(s) && CanSearch(s, t) && |s.pool.free| > 0
    ensures Core(DoSearch(s, t))
  {
    var want, f := s.tasks[t].want, s.pool.free[|s.pool.free| - 1];
    var p := Home(want);
    TakesFreeAt(s, t) by { hide Core; }
    ShapeTakeFree(s, t, want, f, p) by { hide Core, TakesFree, Busy; }
    MendTakeFree(s, t, want, f, p) by { hide Core, TakesFree, Busy; }
    var s' := DoSearch(s, t);
    MoveKeeps(s, s', t, f, p, p.file, Seen(s', f, Put(Owned(want, f)), Keep, Keep, Keep, Keep)) by {
      hide Core, Shape, Mended, TakesFree, Busy;
    }
    hide *;
  }

  // ---- A victim is reserved ----

  /** Eligible, with its latch unused because nobody pins it. */
  ghost predicate Reserves(s: System, t: TaskId, want: Want, f: nat, p: PageId, clock: Clock)
  {
    && Around(s, t, f, p, p.file) && FreeOk(s) && t in s.tasks
    && (s.tasks[t] == Acquire(want) || (s.tasks[t].Observed? && s.tasks[t].want == want))
    && p == s.pool.frames[f].page && Eligible(s.pool, f) && s.pool.frames[f].latch.Unused()
    && clock.Valid() && |clock.referenced| == |s.pool.frames|
  }

  function AfterReserve(s: System, t: TaskId, want: Want, f: nat, clock: Clock): System
    requires s.Wf() && f < |s.pool.frames| && clock.Valid() && |clock.referenced| == |s.pool.frames|
  {
    Reserve(s.(pool := s.pool.(clock := clock)), t, want, f)
  }

  function ReserveUpdate(s: System, t: TaskId, want: Want, f: nat, p: PageId, clock: Clock): Update
    requires Reserves(s, t, want, f, p, clock)
  {
    Seen(AfterReserve(s, t, want, f, clock), f, Put(Reserved(want, f, p)), Keep, Put(Entry(EvictingEntry, f, None)), Keep, Keep)
  }

  lemma ShapeReserve(s: System, t: TaskId, want: Want, f: nat, p: PageId, clock: Clock)
    requires Reserves(s, t, want, f, p, clock)
    ensures Shape(s, AfterReserve(s, t, want, f, clock), t, f, p, p.file, ReserveUpdate(s, t, want, f, p, clock))
  {
    hide SameContent, TaskOk, PageOk, FileOk, LoadOk;
  }

  lemma MendReserve(s: System, t: TaskId, want: Want, f: nat, p: PageId, clock: Clock)
    requires Reserves(s, t, want, f, p, clock)
    ensures Mended(AfterReserve(s, t, want, f, clock), t, f, p, p.file)
  {
    hide SameContent;
  }

  lemma KeepReserve(s: System, t: TaskId, want: Want, f: nat, clock: Clock)
    requires Core(s) && t in s.tasks && (s.tasks[t] == Acquire(want) || (s.tasks[t].Observed? && s.tasks[t].want == want))
    requires f < |s.pool.frames| && Eligible(s.pool, f) && s.pool.frames[f].latch.Unused()
    requires clock.Valid() && |clock.referenced| == |s.pool.frames|
    ensures Core(AfterReserve(s, t, want, f, clock))
  {
    var p := s.pool.frames[f].page;
    assert FreeOk(s) by { hide TaskOk; }
    AroundAt(s, t, f, p, p.file);
    TaskAt(s, t);
    WantBusy(s, t, want) by { hide Core, FreeOk, Around, Drained, AllDrained; }
    ShapeReserve(s, t, want, f, p, clock) by { hide Core, TaskOk, FreeOk, Around; }
    MendReserve(s, t, want, f, p, clock) by { hide Core, TaskOk, FreeOk, Around; }
    MoveKeeps(s, AfterReserve(s, t, want, f, clock), t, f, p, p.file, ReserveUpdate(s, t, want, f, p, clock)) by {
      hide Core, Shape, Mended, TaskOk, Around, FreeOk, Drained, AllDrained;
    }
    hide *;
  }

  // ---- A reserved victim leaves its frame, or comes back ----

  ghost predicate Victim(s: System, t: TaskId, f: nat, p: PageId)
  {
    && Around(s, t, f, p, p.file) && FreeOk(s) && t in s.tasks && OnFrame(s, f, p, Evicting) && Holds(s, t, f)
    && (s.tasks[t].Reserved? || s.tasks[t].Evict?) && s.tasks[t].frame == f && s.tasks[t].victim == p
  }

  lemma VictimAt(s: System, t: TaskId)
    requires Core(s) && t in s.tasks && (s.tasks[t].Reserved? || s.tasks[t].Evict?)
    ensures Victim(s, t, s.tasks[t].frame, s.tasks[t].victim)
    ensures Busy(s, s.tasks[t].victim, s.tasks[t].victim.file)
  {
    var f, p := s.tasks[t].frame, s.tasks[t].victim;
    TaskAt(s, t);
    assert OnFrame(s, f, p, Evicting) && Holds(s, t, f) by { hide Core; }
    AroundAt(s, t, f, p, p.file);
    assert FreeOk(s) by { hide TaskOk; }
    assert p in s.pool.table && s.pool.table[p].state == EvictingEntry by { hide Core, TaskOk, FreeOk, SameContent; }
    EntryBusy(s, p);
    hide *;
  }

  lemma ShapeBeginEvict(s: System, t: TaskId, f: nat, p: PageId)
    requires Victim(s, t, f, p) && CanBeginEvict(s, t) && s.pool.frames[f].dirty
    ensures var s' := DoBeginEvict(s, t);
      t in s'.tasks && Shape(s, s', t, f, p, p.file, Seen(s', f, Put(s'.tasks[t]), Keep, Keep, Keep, Keep))
  {
    hide Finalized, SameContent, TaskOk, PageOk, FileOk, LoadOk;
  }

  lemma MendBeginEvict(s: System, t: TaskId, f: nat, p: PageId)
    requires Victim(s, t, f, p) && CanBeginEvict(s, t) && s.pool.frames[f].dirty
    ensures Mended(DoBeginEvict(s, t), t, f, p, p.file)
  {
    FinalizeVerifies(s.pool.frames[f].bytes);
    hide Finalized, Verifies;
  }

  lemma KeepBeginEvict(s: System, t: TaskId)
    requires Core(s) && CanBeginEvict(s, t) && s.tasks[t].frame < |s.pool.frames| && s.pool.frames[s.tasks[t].frame].dirty
    ensures Core(DoBeginEvict(s, t))
  {
    var f, p := s.tasks[t].frame, s.tasks[t].victim;
    VictimAt(s, t);
    ShapeBeginEvict(s, t, f, p) by { hide Core, Victim, Busy; }
    MendBeginEvict(s, t, f, p) by { hide Core, Victim, Busy; }
    var s' := DoBeginEvict(s, t);
    MoveKeeps(s, s', t, f, p, p.file, Seen(s', f, Put(s'.tasks[t]), Keep, Keep, Keep, Keep)) by {
      hide Core, Shape, Mended, Victim, Busy;
    }
    hide *;
  }

  // ---- The old mapping goes: its image is on disk ----

  function AfterDrop(s: System, t: TaskId, f: nat, want: Want): System
    requires s.Wf() && f < |s.pool.frames|
  {
    s.(pool := DropVictim(s.pool, f)).At(t, Owned(want, f))
  }

  ghost predicate Drops(s: System, t: TaskId, f: nat, p: PageId)
  {
    Victim(s, t, f, p) && (s.pool.frames[f].dirty ==> s.tasks[t].Evict? && s.tasks[t].progress == Synced)
  }

  lemma ShapeDrop(s: System, t: TaskId, f: nat, p: PageId)
    requires Drops(s, t, f, p)
    ensures var s' := AfterDrop(s, t, f, s.tasks[t].want);
      Shape(s, s', t, f, p, p.file, Seen(s', f, Put(Owned(s.tasks[t].want, f)), Keep, Gone, Keep, Keep))
  {
    hide SameContent, TaskOk, PageOk, FileOk, LoadOk;
  }

  lemma MendDrop(s: System, t: TaskId, f: nat, p: PageId)
    requires Drops(s, t, f, p)
    ensures Mended(AfterDrop(s, t, f, s.tasks[t].want), t, f, p, p.file)
  {}

  lemma KeepDrop(s: System, t: TaskId)
    requires Core(s) && t in s.tasks && (s.tasks[t].Reserved? || s.tasks[t].Evict?) && s.tasks[t].frame < |s.pool.frames|
    requires s.pool.frames[s.tasks[t].frame].dirty ==> s.tasks[t].Evict? && s.tasks[t].progress == Synced
    ensures Core(AfterDrop(s, t, s.tasks[t].frame, s.tasks[t].want))
  {
    var f, p := s.tasks[t].frame, s.tasks[t].victim;
    VictimAt(s, t);
    ShapeDrop(s, t, f, p) by { hide Core, Victim, Busy; }
    MendDrop(s, t, f, p) by { hide Core, Victim, Busy; }
    var s' := AfterDrop(s, t, f, s.tasks[t].want);
    MoveKeeps(s, s', t, f, p, p.file, Seen(s', f, Put(Owned(s.tasks[t].want, f)), Keep, Gone, Keep, Keep)) by {
      hide Core, Shape, Mended, Victim, Busy;
    }
    hide *;
  }

  // ---- A failed writeback restores the victim ----

  function AfterRestore(s: System, t: TaskId, f: nat, want: Want): System
    requires s.Wf() && f < |s.pool.frames|
  {
    s.(pool := RestoreVictim(s.pool, f)).Hold(f, None).At(t, Acquire(want))
  }

  lemma ShapeRestore(s: System, t: TaskId, f: nat, p: PageId)
    requires Victim(s, t, f, p)
    ensures var s' := AfterRestore(s, t, f, s.tasks[t].want);
      Shape(s, s', t, f, p, p.file, Seen(s', f, Put(Acquire(s.tasks[t].want)), Keep, Put(Entry(ResidentEntry, f, None)), Keep, Keep))
  {
    hide SameContent, TaskOk, PageOk, FileOk, LoadOk;
  }

  lemma MendRestore(s: System, t: TaskId, f: nat, p: PageId)
    requires Victim(s, t, f, p)
    ensures Mended(AfterRestore(s, t, f, s.tasks[t].want), t, f, p, p.file)
  {
    hide SameContent;
  }

  lemma KeepRestore(s: System, t: TaskId)
    requires Core(s) && t in s.tasks && s.tasks[t].Evict? && s.tasks[t].frame < |s.pool.frames|
    ensures Core(AfterRestore(s, t, s.tasks[t].frame, s.tasks[t].want))
  {
    var f, p := s.tasks[t].frame, s.tasks[t].victim;
    VictimAt(s, t);
    ShapeRestore(s, t, f, p) by { hide Core, Victim, Busy; }
    MendRestore(s, t, f, p) by { hide Core, Victim, Busy; }
    var s' := AfterRestore(s, t, f, s.tasks[t].want);
    MoveKeeps(s, s', t, f, p, p.file, Seen(s', f, Put(Acquire(s.tasks[t].want)), Keep, Put(Entry(ResidentEntry, f, None)), Keep, Keep)) by {
      hide Core, Shape, Mended, Victim, Busy;
    }
    hide *;
  }
}
