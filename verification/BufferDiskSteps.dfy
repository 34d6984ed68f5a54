/** Preservation by the disk: torn and finished writes, syncs, spontaneous flushes and file growth. */
module BufferDiskSteps {
  import opened Basics
  import opened PageChecksum
  import opened BufferState
  import opened BufferSystem
  import opened BufferInvariant
  import opened BufferRely
  import opened BufferTaskStep

  /** Only the disk moves, and perhaps the progress of the transfer that task `t` runs. */
  ghost predicate DiskOnly(s: System, s': System, t: TaskId)
  {
    && s.Wf() && s'.pool == s.pool && s'.holders == s.holders && s'.published == s.published && s'.closed == s.closed
    && (forall u :: u in s.tasks && u != t ==> u in s'.tasks && s'.tasks[u] == s.tasks[u])
    && (forall u :: u in s'.tasks && u != t ==> u in s.tasks)
    && RoleOf(s', t) == RoleOf(s, t)
    && DiskOk(s'.disk) && SparesTransfers(s, s', t)
    && (forall page :: page in s'.published ==> PageOk(s', page))
  }

  lemma DiskState(s: System, s': System, t: TaskId)
    requires StateOk(s) && DiskOnly(s, s', t)
    ensures StateOk(s')
  {
    forall f | 0 <= f < |s'.pool.frames| ensures FrameOk(s', f) { DiskFrame(s, s', t, f); }
    forall q | q in s'.pool.table ensures EntryOk(s', q) { DiskEntry(s, s', t, q); }
    forall l | l in s'.pool.loads ensures LoadOk(s', l) { DiskLoad(s, s', t, l); }
    forall k | k in s'.pool.files ensures FileOk(s', k) { DiskFile(s, s', t, k); }
    DiskRest(s, s', t);
    hide FrameOk, EntryOk, LoadOk, FileOk, PageOk, FreeOk, HoldersOk, ClosedOk, DiskOk, SparesTransfers;
  }

  lemma DiskFrame(s: System, s': System, t: TaskId, f: nat)
    requires StateOk(s) && DiskOnly(s, s', t) && f < |s'.pool.frames|
    ensures FrameOk(s', f)
  {
    FrameAt(s, f);
    hide StateOk, SameContent, RoleOf, SparesTransfers, DiskOk, PageOk;
  }

  lemma DiskEntry(s: System, s': System, t: TaskId, q: PageId)
    requires StateOk(s) && DiskOnly(s, s', t) && q in s'.pool.table
    ensures EntryOk(s', q)
  {
    EntryAt(s, q);
    hide StateOk, SparesTransfers, DiskOk, PageOk;
  }

  lemma DiskLoad(s: System, s': System, t: TaskId, l: TaskId)
    requires StateOk(s) && DiskOnly(s, s', t) && l in s'.pool.loads
    ensures LoadOk(s', l)
  {
    LoadAt(s, l);
    hide StateOk, SparesTransfers, DiskOk, PageOk;
  }

  lemma DiskFile(s: System, s': System, t: TaskId, k: nat)
    requires StateOk(s) && DiskOnly(s, s', t) && k in s'.pool.files
    ensures FileOk(s', k)
  {
    FileAt(s, k);
    hide StateOk, DiskOk, PageOk;
  }

  lemma DiskRest(s: System, s': System, t: TaskId)
    requires StateOk(s) && DiskOnly(s, s', t)
    ensures FreeOk(s') && HoldersOk(s') && ClosedOk(s')
  {
    hide FrameOk, EntryOk, LoadOk, FileOk, PageOk, DiskOk, SparesTransfers;
  }

  lemma DiskSpares(s: System, s': System, t: TaskId)
    requires DiskOnly(s, s', t)
    ensures Spares(s, s', t)
  {
    hide RoleOf, SameContent, DiskOk, PageOk, SparesTransfers;
  }

  lemma DiskStepKeeps(s: System, s': System, t: TaskId)
    requires Core(s) && DiskOnly(s, s', t) && (t in s'.tasks ==> TaskOk(s', t))
    ensures Core(s')
  {
    DiskState(s, s', t) by { hide DiskOnly, StateOk, TaskOk; }
    DiskSpares(s, s', t) by { hide DiskOnly, StateOk, TaskOk, Core; }
    Assemble(s, s', t) by { hide DiskOnly, StateOk, TaskOk, Spares, Core; }
    hide *;
  }

  // ---- Writers ----

  /** At most one transfer of a page is in flight, and its frame is dirty. */
  lemma WriterAt(s: System, t: TaskId)
    requires Core(s) && t in s.tasks && WriterPage(s.tasks[t]).Some? && (s.tasks[t].Evict? || s.tasks[t].Write?)
    ensures var p, f := WriterPage(s.tasks[t]).value, s.tasks[t].frame;
      && f < |s.pool.frames| && s.pool.frames[f].page == p && s.pool.frames[f].dirty && s.pool.frames[f].state != Free
      && DirtyInPool(s.pool, p) && s.pool.table[p].frame == f && s.holders[f] == Some(t) && p in s.published && p in s.disk.volatile && s.Wf()
      && PageOk(s, p) && TaskOk(s, t)
  {
    TaskAt(s, t);
    var f := s.tasks[t].frame;
    assert Holds(s, t, f) && s.pool.frames[f].state != Free && s.Wf() by { hide Core, SameContent, JobOk; }
    FrameAt(s, f) by { hide Core, TaskOk; }
    WriterIsPublished(s, t) by { hide Core, TaskOk, FrameOk; }
    PageAt(s, WriterPage(s.tasks[t]).value) by { hide Core, TaskOk, FrameOk; }
    hide Core, StateOk, SameContent, JobOk;
  }

  lemma OneWriterPerPage(s: System, t: TaskId, u: TaskId)
    requires Core(s) && t in s.tasks && u in s.tasks && WriterPage(s.tasks[t]).Some? && t != u
    ensures WriterPage(s.tasks[u]) != WriterPage(s.tasks[t])
  {
    WriterAt(s, t) by { hide Core; }
    if WriterPage(s.tasks[u]).Some? { WriterAt(s, u) by { hide Core; } }
    hide StateOk, Core, SameContent, TaskOk, PageOk;
  }

  // ---- The transfers ----

  ghost predicate Transferring(s: System, t: TaskId, p: PageId)
  {
    && s.Wf() && t in s.tasks && (s.tasks[t].Evict? || s.tasks[t].Write?) && WriterPage(s.tasks[t]) == Some(p)
    && DirtyInPool(s.pool, p) && p in s.published && p in s.disk.volatile && TaskOk(s, t) && DiskOk(s.disk)
    && (forall u :: u in s.tasks && u != t ==> WriterPage(s.tasks[u]) != Some(p))
    && (forall page :: page in s.published ==> PageOk(s, page))
  }

  lemma TransferAt(s: System, t: TaskId, progress: Progress)
    requires Core(s) && s.Wf() && Transfers(s, t, progress)
    ensures Transferring(s, t, WriterPage(s.tasks[t]).value)
  {
    WriterAt(s, t) by { hide Core; }
    forall u | u in s.tasks && u != t ensures WriterPage(s.tasks[u]) != WriterPage(s.tasks[t]) {
      OneWriterPerPage(s, t, u) by { hide Core; }
    }
    assert DiskOk(s.disk) && forall page :: page in s.published ==> PageOk(s, page) by { hide DiskOk, PageOk, TaskOk; }
    hide Core, TaskOk, PageOk, DiskOk;
  }

  /** The disk may change the image of a page whose latest bytes are dirty in the pool. */
  lemma OverwriteOnly(s: System, s': System, t: TaskId, p: PageId, image: Image)
    requires Transferring(s, t, p) && RoleOf(s', t) == RoleOf(s, t)
    requires s' == s.(disk := s.disk.(volatile := s.disk.volatile[p := image]), tasks := s.tasks[t := s'.tasks[t]])
    requires t in s'.tasks
    ensures DiskOnly(s, s', t)
  {
    forall page | page in s'.published ensures PageOk(s', page) {
      assert PageOk(s, page);
      hide TaskOk, SameContent, RoleOf;
    }
    hide TaskOk, PageOk, RoleOf;
  }

  lemma AdvanceOk(s: System, t: TaskId, progress: Progress, p: PageId)
    requires s.Wf() && t in s.tasks && TaskOk(s, t) && (s.tasks[t].Evict? || s.tasks[t].Write?) && WriterPage(s.tasks[t]) == Some(p)
    ensures var s' := s.At(t, Advance(s.tasks[t], progress));
      RoleOf(s', t) == RoleOf(s, t)
      && (ProgressOk(s, p, WriterImage(s.tasks[t]), progress) ==> TaskOk(s', t))
  {
    hide SameContent, Drained, AllDrained, Matches;
  }

  lemma TornOk(s: System, t: TaskId, p: PageId, bytes: Image)
    requires Transferring(s, t, p) && Transfers(s, t, Pending)
    ensures t in DoTear(s, t, bytes).tasks && TaskOk(DoTear(s, t, bytes), t)
  {
    hide SameContent, Drained, AllDrained, Matches, PageOk, DiskOk;
  }

  lemma KeepTear(s: System, t: TaskId, bytes: Image)
    requires Core(s) && s.Wf() && Transfers(s, t, Pending)
    ensures Core(DoTear(s, t, bytes))
  {
    var p, s' := WriterPage(s.tasks[t]).value, DoTear(s, t, bytes);
    TransferAt(s, t, Pending) by { hide Core; }
    OverwriteOnly(s, s', t, p, bytes) by { hide Core, Transferring; }
    TornOk(s, t, p, bytes) by { hide Core, Transferring, DiskOnly; }
    DiskStepKeeps(s, s', t) by { hide Core, Transferring, DiskOnly, TaskOk; }
    hide *;
  }

  lemma WrittenOk(s: System, t: TaskId, p: PageId)
    requires Transferring(s, t, p) && Transfers(s, t, Pending)
    ensures var s' := DoWriteDone(s, t);
      t in s'.tasks && TaskOk(s', t) && RoleOf(s', t) == RoleOf(s, t)
  {
    hide SameContent, Drained, AllDrained, Matches, PageOk, DiskOk;
  }

  lemma KeepWriteDone(s: System, t: TaskId)
    requires Core(s) && s.Wf() && Transfers(s, t, Pending)
    ensures Core(DoWriteDone(s, t))
  {
    var p, s' := WriterPage(s.tasks[t]).value, DoWriteDone(s, t);
    TransferAt(s, t, Pending) by { hide Core; }
    WrittenOk(s, t, p) by { hide Core, Transferring; }
    OverwriteOnly(s, s', t, p, WriterImage(s.tasks[t])) by { hide Core, Transferring, TaskOk, RoleOf; }
    DiskStepKeeps(s, s', t) by { hide Core, Transferring, DiskOnly, TaskOk; }
    hide *;
  }

  /** fdatasync makes every page of the file durable as it is. */
  lemma SyncOnly(s: System, t: TaskId, p: PageId)
    requires Transferring(s, t, p) && Transfers(s, t, Written)
    ensures DiskOnly(s, DoSyncDone(s, t), t)
  {
    var s' := DoSyncDone(s, t);
    assert RoleOf(s', t) == RoleOf(s, t) by { hide TaskOk, SameContent, PageOk, DiskOk; }
    forall page | page in s'.published ensures PageOk(s', page) {
      assert PageOk(s, page);
      hide TaskOk, SameContent, RoleOf;
    }
    assert SparesTransfers(s, s', t) by { hide TaskOk, PageOk, RoleOf, DiskOk; }
    hide TaskOk, PageOk, RoleOf, SparesTransfers;
  }

  lemma SyncedOk(s: System, t: TaskId, p: PageId)
    requires Transferring(s, t, p) && Transfers(s, t, Written)
    ensures var s' := DoSyncDone(s, t);
      t in s'.tasks && TaskOk(s', t)
  {
    hide SameContent, Drained, AllDrained, Matches, PageOk, DiskOk;
  }

  lemma KeepSyncDone(s: System, t: TaskId)
    requires Core(s) && s.Wf() && Transfers(s, t, Written)
    ensures Core(DoSyncDone(s, t))
  {
    var p, s' := WriterPage(s.tasks[t]).value, DoSyncDone(s, t);
    TransferAt(s, t, Written) by { hide Core; }
    SyncedOk(s, t, p) by { hide Core, Transferring; }
    SyncOnly(s, t, p) by { hide Core, Transferring, TaskOk, RoleOf; }
    DiskStepKeeps(s, s', t) by { hide Core, Transferring, DiskOnly, TaskOk; }
    hide *;
  }

  lemma FailOnly(s: System, t: TaskId, p: PageId)
    requires Transferring(s, t, p)
    ensures var s' := DoIoFails(s, t);
      DiskOnly(s, s', t) && t in s'.tasks && TaskOk(s', t)
  {
    var s' := DoIoFails(s, t);
    AdvanceOk(s, t, Failed, p) by { hide PageOk, TaskOk, SparesTransfers; }
    forall page | page in s'.published ensures PageOk(s', page) {
      assert PageOk(s, page);
      hide TaskOk, SameContent, RoleOf;
    }
    assert ProgressOk(s, p, WriterImage(s.tasks[t]), Failed) by { hide TaskOk, PageOk, RoleOf, DiskOk; }
    hide TaskOk, PageOk, RoleOf;
  }

  lemma KeepIoFails(s: System, t: TaskId, progress: Progress)
    requires Core(s) && s.Wf() && Transfers(s, t, progress)
    ensures Core(DoIoFails(s, t))
  {
    var p := WriterPage(s.tasks[t]).value;
    TransferAt(s, t, progress) by { hide Core; }
    FailOnly(s, t, p) by { hide Core, Transferring; }
    DiskStepKeeps(s, DoIoFails(s, t), t) by { hide Core, Transferring, DiskOnly, TaskOk; }
    hide *;
  }

  // ---- The disk by itself ----

  /** Some task identity is not in use. */
  lemma UnusedTask(tasks: map<TaskId, Task>) returns (t: TaskId)
    ensures t !in tasks
  {
    t := Above(tasks.Keys);
  }

  lemma Above(ids: set<TaskId>) returns (t: TaskId)
    ensures forall u :: u in ids ==> u < t
  {
    if ids == {} {
      t := 0;
    } else {
      var u :| u in ids;
      var rest := Above(ids - {u});
      t := if rest > u then rest else u + 1;
      assert forall v :: v in ids ==> v == u || v in ids - {u};
    }
  }

  lemma FlushedOnly(s: System, page: PageId, t: TaskId)
    requires StateOk(s) && page in s.disk.volatile && t !in s.tasks
    ensures DiskOnly(s, DoFlushed(s, page), t)
  {
    var s' := DoFlushed(s, page);
    forall q | q in s'.published ensures PageOk(s', q) {
      PageAt(s, q);
      hide StateOk, SameContent;
    }
    assert DiskOk(s'.disk) by { hide FrameOk, EntryOk, LoadOk, FileOk, PageOk, FreeOk, HoldersOk, ClosedOk; }
    hide StateOk, PageOk, SameContent, DiskOk;
  }

  lemma KeepFlushed(s: System, page: PageId)
    requires Core(s) && page in s.disk.volatile
    ensures Core(DoFlushed(s, page))
  {
    assert s.Wf() && StateOk(s) by { hide TaskOk; }
    var t := UnusedTask(s.tasks);
    FlushedOnly(s, page, t) by { hide Core, StateOk; }
    DiskStepKeeps(s, DoFlushed(s, page), t) by { hide Core, DiskOnly, StateOk, TaskOk; }
    hide *;
  }

  /** DiskManager's ExtendFile: one zero page at the end. */
  function Extended(s: System, file: nat): System
  {
    var count := CountOf(s.disk, file);
    s.(disk := s.disk.(volatile := s.disk.volatile[PageId(file, count) := ZERO_PAGE], count := s.disk.count[file := count + 1]))
  }

  lemma ExtendedOnly(s: System, file: nat, t: TaskId)
    requires StateOk(s) && t !in s.tasks
    ensures DiskOnly(s, Extended(s, file), t)
    ensures PageId(file, CountOf(s.disk, file)) in Extended(s, file).disk.volatile
  {
    var s' := Extended(s, file);
    assert DiskOk(s.disk) && PageId(file, CountOf(s.disk, file)) !in s.disk.volatile by {
      hide FrameOk, EntryOk, LoadOk, FileOk, PageOk, FreeOk, HoldersOk, ClosedOk;
    }
    forall q | q in s'.published ensures PageOk(s', q) {
      PageAt(s, q);
      hide StateOk, SameContent, DiskOk;
    }
    assert SparesTransfers(s, s', t) by { hide StateOk, PageOk, SameContent, DiskOk, RoleOf; }
    assert DiskOk(s'.disk) by { hide StateOk, PageOk, SameContent, SparesTransfers, RoleOf; }
    hide StateOk, PageOk, SameContent, DiskOk, SparesTransfers;
  }

  lemma KeepExtended(s: System, file: nat)
    requires Core(s)
    ensures Core(Extended(s, file)) && PageId(file, CountOf(s.disk, file)) in Extended(s, file).disk.volatile
  {
    assert s.Wf() && StateOk(s) by { hide TaskOk; }
    var t := UnusedTask(s.tasks);
    ExtendedOnly(s, file, t) by { hide Core, StateOk; }
    DiskStepKeeps(s, Extended(s, file), t) by { hide Core, DiskOnly, StateOk, TaskOk; }
    hide *;
  }
}
