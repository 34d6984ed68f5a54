/** Preservation by registration, the start and failure of retirement, and shutdown. */
module BufferFileSteps {
  import opened Basics
  import opened PageChecksum
  import opened BufferState
  import opened BufferSystem
  import opened BufferInvariant
  import opened BufferRely
  import opened BufferTaskStep

  /** Only file `g`'s state and retirer, and the pool's quiescing and closed flags, may move. */
  ghost predicate FlagsOnly(s: System, s': System, t: TaskId, g: nat)
  {
    && s.Wf() && s'.pool == s.pool.(files := s'.pool.files, quiescing := s'.pool.quiescing)
    && (s.pool.quiescing ==> s'.pool.quiescing) && (s.closed ==> s'.closed)
    && s'.holders == s.holders && s'.disk == s.disk && s'.published == s.published && s'.unsynced == s.unsynced
    && (forall u :: u in s.tasks && u != t ==> u in s'.tasks && s'.tasks[u] == s.tasks[u])
    && (forall u :: u in s'.tasks && u != t ==> u in s.tasks)
    && RoleOf(s', t) == RoleOf(s, t) == Role(None, false, false, None, None)
    && (forall k :: k in s.pool.files <==> k in s'.pool.files)
    && (forall k :: k in s.pool.files ==>
          s'.pool.files[k] == s.pool.files[k].(state := s'.pool.files[k].state, retirer := s'.pool.files[k].retirer))
    && (forall k :: k in s.pool.files && k != g ==> s'.pool.files[k] == s.pool.files[k])
    && (g in s.pool.files ==> !Other(s.pool.files[g].retirer, t))
    && ClosedOk(s')
  }

  lemma FlagsState(s: System, s': System, t: TaskId, g: nat)
    requires StateOk(s) && FlagsOnly(s, s', t, g)
    ensures StateOk(s')
  {
    forall f | 0 <= f < |s'.pool.frames| ensures FrameOk(s', f) {
      FrameAt(s, f);
      hide StateOk, SameContent, RoleOf, ClosedOk;
    }
    forall q | q in s'.pool.table ensures EntryOk(s', q) { FlagsEntry(s, s', t, g, q); }
    forall l | l in s'.pool.loads ensures LoadOk(s', l) { FlagsLoad(s, s', t, g, l); }
    forall k | k in s'.pool.files ensures FileOk(s', k) { FlagsFile(s, s', t, g, k); }
    forall q | q in s'.published ensures PageOk(s', q) {
      PageAt(s, q);
      hide StateOk, SameContent, RoleOf, ClosedOk;
    }
    FlagsRest(s, s', t, g);
    hide FrameOk, EntryOk, LoadOk, FileOk, PageOk, FreeOk, HoldersOk, ClosedOk, DiskOk;
  }

  lemma FlagsEntry(s: System, s': System, t: TaskId, g: nat, q: PageId)
    requires StateOk(s) && FlagsOnly(s, s', t, g) && q in s'.pool.table
    ensures EntryOk(s', q)
  {
    EntryAt(s, q);
    hide StateOk, ClosedOk;
  }

  lemma FlagsLoad(s: System, s': System, t: TaskId, g: nat, l: TaskId)
    requires StateOk(s) && FlagsOnly(s, s', t, g) && l in s'.pool.loads
    ensures LoadOk(s', l)
  {
    LoadAt(s, l);
    hide StateOk, ClosedOk;
  }

  lemma FlagsFile(s: System, s': System, t: TaskId, g: nat, k: nat)
    requires StateOk(s) && FlagsOnly(s, s', t, g) && k in s'.pool.files
    ensures FileOk(s', k)
  {
    FileAt(s, k);
    hide StateOk, ClosedOk;
  }

  lemma FlagsRest(s: System, s': System, t: TaskId, g: nat)
    requires StateOk(s) && FlagsOnly(s, s', t, g)
    ensures DiskOk(s'.disk) && FreeOk(s') && HoldersOk(s')
  {
    hide FrameOk, EntryOk, LoadOk, FileOk, PageOk, ClosedOk;
  }

  lemma FlagsSpares(s: System, s': System, t: TaskId, g: nat)
    requires FlagsOnly(s, s', t, g)
    ensures Spares(s, s', t)
  {
    hide RoleOf, SameContent, ClosedOk;
  }

  lemma FlagsKeeps(s: System, s': System, t: TaskId, g: nat)
    requires Core(s) && FlagsOnly(s, s', t, g) && (t in s'.tasks ==> TaskOk(s', t))
    ensures Core(s')
  {
    FlagsState(s, s', t, g) by { hide FlagsOnly, StateOk, TaskOk; }
    FlagsSpares(s, s', t, g) by { hide FlagsOnly, StateOk, TaskOk, Core; }
    Assemble(s, s', t) by { hide FlagsOnly, StateOk, TaskOk, Spares, Core; }
    hide *;
  }

  lemma StateClosed(s: System)
    requires Core(s)
    ensures s.Wf() && ClosedOk(s)
  {
    hide TaskOk, ClosedOk;
  }

  // ---- The steps ----

  lemma FlagsStartRetire(s: System, t: TaskId, file: nat, discard: bool)
    requires s.Wf() && ClosedOk(s) && CanStartRetire(s, t, file)
    ensures var s' := DoStartRetire(s, t, file, discard);
      FlagsOnly(s, s', t, file) && t in s'.tasks && TaskOk(s', t)
  {}

  lemma KeepStartRetire(s: System, t: TaskId, file: nat, discard: bool)
    requires Core(s) && CanStartRetire(s, t, file)
    ensures Core(DoStartRetire(s, t, file, discard))
  {
    StateClosed(s);
    FlagsStartRetire(s, t, file, discard) by { hide Core, ClosedOk; }
    FlagsKeeps(s, DoStartRetire(s, t, file, discard), t, file) by { hide Core, ClosedOk, FlagsOnly, TaskOk; }
    hide *;
  }

  function AfterStartShutdown(s: System, t: TaskId): System
  {
    s.(pool := s.pool.(quiescing := true)).At(t, DrainAll)
  }

  lemma FlagsStartShutdown(s: System, t: TaskId)
    requires s.Wf() && ClosedOk(s) && Fresh(s, t) && 0 !in s.pool.files
    ensures var s' := AfterStartShutdown(s, t);
      FlagsOnly(s, s', t, 0) && t in s'.tasks && TaskOk(s', t)
  {}

  lemma KeepStartShutdown(s: System, t: TaskId)
    requires Core(s) && Fresh(s, t)
    ensures Core(AfterStartShutdown(s, t))
  {
    StateClosed(s);
    ZeroIsNoFile(s);
    FlagsStartShutdown(s, t) by { hide Core, ClosedOk; }
    FlagsKeeps(s, AfterStartShutdown(s, t), t, 0) by { hide Core, ClosedOk, FlagsOnly, TaskOk; }
    hide *;
  }

  lemma ZeroIsNoFile(s: System)
    requires Core(s)
    ensures 0 !in s.pool.files
  {
    if 0 in s.pool.files { FileAt(s, 0); }
    hide StateOk, TaskOk;
  }

  /** RetireFile's flush failed: the file stays RETIRING and may be retired again. */
  function AfterRetireFails(s: System, t: TaskId, file: nat): System
    requires file in s.pool.files
  {
    s.(pool := s.pool.(files := s.pool.files[file := s.pool.files[file].(retirer := None)])).End(t)
  }

  lemma FlagsRetireFails(s: System, t: TaskId, file: nat)
    requires s.Wf() && ClosedOk(s) && t in s.tasks && s.tasks[t].Flush? && s.tasks[t].job == RetiringFile(file) && TaskOk(s, t)
    ensures file in s.pool.files && FlagsOnly(s, AfterRetireFails(s, t, file), t, file)
  {
    hide Drained, Matches;
  }

  lemma KeepRetireFails(s: System, t: TaskId, file: nat)
    requires Core(s) && t in s.tasks && s.tasks[t].Flush? && s.tasks[t].job == RetiringFile(file) && file in s.pool.files
    ensures Core(AfterRetireFails(s, t, file))
  {
    StateClosed(s);
    TaskAt(s, t);
    FlagsRetireFails(s, t, file) by { hide Core, ClosedOk, TaskOk; }
    FlagsKeeps(s, AfterRetireFails(s, t, file), t, file) by { hide Core, ClosedOk, FlagsOnly, TaskOk; }
    hide *;
  }

  /** Every matching page was on the list, and the list is empty. */
  lemma NothingDirty(s: System, f: nat)
    requires Core(s) && f < |s.pool.frames| && AllDrained(s.pool) && forall page :: !Matches(s.pool, None, page)
    ensures !s.pool.frames[f].dirty && s.pool.frames[f].io == Idle
  {
    FrameAt(s, f) by { hide TaskOk; }
    var page := s.pool.frames[f].page;
    if page in s.pool.table {
      assert s.pool.table[page].state == ResidentEntry by { hide Core, FrameOk; }
      assert !Matches(s.pool, None, page) by { hide Core, FrameOk, AllDrained; }
    }
    hide Core, AllDrained;
  }

  function AfterShutdown(s: System, t: TaskId, failed: bool): System { s.(closed := s.closed || !failed).End(t) }

  lemma FlagsShutdown(s: System, t: TaskId, failed: bool)
    requires s.Wf() && ClosedOk(s) && t in s.tasks && s.tasks[t] == Flush(ShuttingDown, [], failed) && TaskOk(s, t) && 0 !in s.pool.files
    requires failed || forall f :: 0 <= f < |s.pool.frames| ==> !s.pool.frames[f].dirty
    ensures FlagsOnly(s, AfterShutdown(s, t, failed), t, 0)
  {
    hide AllDrained, Matches;
  }

  lemma KeepShutdown(s: System, t: TaskId, failed: bool)
    requires Core(s) && t in s.tasks && s.tasks[t] == Flush(ShuttingDown, [], failed)
    ensures Core(AfterShutdown(s, t, failed))
  {
    StateClosed(s);
    TaskAt(s, t);
    ZeroIsNoFile(s);
    if !failed {
      assert AllDrained(s.pool) && forall page :: !Matches(s.pool, None, page) by { hide Core, AllDrained, Matches, ClosedOk; }
      forall f | 0 <= f < |s.pool.frames| ensures !s.pool.frames[f].dirty {
        NothingDirty(s, f) by { hide Core, AllDrained, Matches, TaskOk, ClosedOk; }
      }
    }
    FlagsShutdown(s, t, failed) by { hide Core, ClosedOk, TaskOk; }
    FlagsKeeps(s, AfterShutdown(s, t, failed), t, 0) by { hide Core, ClosedOk, FlagsOnly, TaskOk; }
    hide *;
  }
}
