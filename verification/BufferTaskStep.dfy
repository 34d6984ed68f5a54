/** Steps that only move one task (and perhaps the CLOCK hand or a load's claims). */
module BufferTaskStep {
  import opened Basics
  import opened PageChecksum
  import opened BufferState
  import opened BufferSystem
  import opened BufferInvariant
  import opened BufferRely

  /** What table entries, files and frames may rely on about a task. */
  datatype Role = Role(loads: Option<PageId>, wants: bool, reading: bool, creates: Option<nat>, holds: Option<nat>)

  function RoleOf(s: System, t: TaskId): Role
  {
    if t in s.tasks then
      Role(LoaderOf(s.tasks[t]), LoaderOf(s.tasks[t]).Some? && WantOf(s.tasks[t]).Some?, s.tasks[t].LoadRead?, CreatorOf(s.tasks[t]), FrameOf(s.tasks[t]))
    else Role(None, false, false, None, None)
  }

  /** Loads may gain claims. */
  predicate SameLoads(s: System, s': System)
  {
    && (forall l :: l in s.pool.loads ==>
          l in s'.pool.loads
          && s'.pool.loads[l] == s.pool.loads[l].(claims := s'.pool.loads[l].claims)
          && s.pool.loads[l].claims <= s'.pool.loads[l].claims
          && (s'.pool.loads[l].claims <= s.pool.maxPins || s'.pool.loads[l] == s.pool.loads[l]))
    && (forall l :: l in s'.pool.loads ==> l in s.pool.loads)
  }

  ghost predicate OnlyTask(s: System, s': System, t: TaskId)
  {
    && s.Wf() && s'.pool == s.pool.(clock := s'.pool.clock, loads := s'.pool.loads) && s'.Wf()
    && SameLoads(s, s')
    && s'.holders == s.holders && s'.disk == s.disk && s'.published == s.published
    && s'.unsynced == s.unsynced && s'.closed == s.closed
    && (forall u :: u in s.tasks && u != t ==> u in s'.tasks && s'.tasks[u] == s.tasks[u])
    && (forall u :: u in s'.tasks && u != t ==> u in s.tasks)
    && RoleOf(s', t) == RoleOf(s, t)
  }

  lemma OnlyTaskState(s: System, s': System, t: TaskId)
    requires StateOk(s) && OnlyTask(s, s', t)
    ensures StateOk(s')
  {
    forall f | 0 <= f < |s'.pool.frames| ensures FrameOk(s', f) { OnlyTaskFrame(s, s', t, f); }
    forall q | q in s'.pool.table ensures EntryOk(s', q) { OnlyTaskEntry(s, s', t, q); }
    forall l | l in s'.pool.loads ensures LoadOk(s', l) { OnlyTaskLoad(s, s', t, l); }
    forall k | k in s'.pool.files ensures FileOk(s', k) { OnlyTaskFile(s, s', t, k); }
    forall q | q in s'.published ensures PageOk(s', q) { OnlyTaskPage(s, s', t, q); }
    OnlyTaskRest(s, s', t);
    hide OnlyTask, FrameOk, EntryOk, LoadOk, FileOk, PageOk, FreeOk, HoldersOk, ClosedOk, DiskOk;
  }

  lemma OnlyTaskFrame(s: System, s': System, t: TaskId, f: nat)
    requires StateOk(s) && OnlyTask(s, s', t) && f < |s'.pool.frames|
    ensures FrameOk(s', f)
  {
    FrameAt(s, f);
    hide StateOk, SameContent, RoleOf;
  }

  lemma OnlyTaskEntry(s: System, s': System, t: TaskId, q: PageId)
    requires StateOk(s) && OnlyTask(s, s', t) && q in s'.pool.table
    ensures EntryOk(s', q)
  {
    EntryAt(s, q);
    hide StateOk;
  }

  lemma OnlyTaskLoad(s: System, s': System, t: TaskId, l: TaskId)
    requires StateOk(s) && OnlyTask(s, s', t) && l in s'.pool.loads
    ensures LoadOk(s', l)
  {
    LoadAt(s, l);
    hide StateOk;
  }

  lemma OnlyTaskFile(s: System, s': System, t: TaskId, k: nat)
    requires StateOk(s) && OnlyTask(s, s', t) && k in s'.pool.files
    ensures FileOk(s', k)
  {
    FileAt(s, k);
    hide StateOk;
  }

  lemma OnlyTaskPage(s: System, s': System, t: TaskId, q: PageId)
    requires StateOk(s) && OnlyTask(s, s', t) && q in s'.published
    ensures PageOk(s', q)
  {
    PageAt(s, q);
    hide StateOk, RoleOf, SameContent;
  }

  lemma OnlyTaskRest(s: System, s': System, t: TaskId)
    requires StateOk(s) && OnlyTask(s, s', t)
    ensures DiskOk(s'.disk) && FreeOk(s') && HoldersOk(s') && ClosedOk(s')
  {
    hide FrameOk, EntryOk, LoadOk, FileOk, PageOk;
  }

  lemma OnlyTaskSpares(s: System, s': System, t: TaskId)
    requires OnlyTask(s, s', t)
    ensures Spares(s, s', t)
  {
    hide RoleOf, SameContent;
  }

  lemma TaskStepKeeps(s: System, s': System, t: TaskId)
    requires Core(s) && OnlyTask(s, s', t) && (t in s'.tasks ==> TaskOk(s', t))
    ensures Core(s')
  {
    OnlyTaskState(s, s', t);
    OnlyTaskSpares(s, s', t);
    Assemble(s, s', t);
    hide OnlyTask, StateOk, TaskOk, Spares;
  }
}
