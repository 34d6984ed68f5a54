/** Preservation by the steps that only move one call: arrivals, early returns, claims, copies. */
module BufferCallSteps {
  import opened Basics
  import opened PageChecksum
  import opened ClockReplacement
  import opened BufferState
  import opened BufferSystem
  import opened BufferInvariant
  import opened BufferTaskStep

  /** Such a step, seen by itself. */
  ghost predicate CallStep(s: System, s': System, t: TaskId)
  {
    OnlyTask(s, s', t) && (t in s'.tasks ==> TaskOk(s', t))
  }

  lemma CallStepKeeps(s: System, s': System, t: TaskId)
    requires Core(s) && CallStep(s, s', t)
    ensures Core(s')
  {
    TaskStepKeeps(s, s', t) by { hide Core, OnlyTask, TaskOk; }
    hide *;
  }

  // ---- Calls arrive, return early and wait ----

  predicate AsksNothing(s: System, task: Task)
  {
    || task.Fetch? || task.NewWait? || (task.Flush? && task.job == Flushing)
    || (task.Register? && task.count <= CountOf(s.disk, task.file))
  }

  lemma CallArrives(s: System, t: TaskId, task: Task)
    requires s.Wf() && Fresh(s, t) && AsksNothing(s, task)
    ensures CallStep(s, s.At(t, task), t)
  {}

  lemma KeepArrival(s: System, t: TaskId, task: Task)
    requires Core(s) && Fresh(s, t) && AsksNothing(s, task)
    ensures Core(s.At(t, task))
  {
    assert s.Wf() by { hide TaskOk; }
    CallArrives(s, t, task) by { hide Core; }
    CallStepKeeps(s, s.At(t, task), t) by { hide Core, CallStep; }
    hide *;
  }

  lemma CallDeparts(s: System, t: TaskId)
    requires s.Wf() && t in s.tasks && RoleOf(s, t) == Role(None, false, false, None, None)
    ensures CallStep(s, s.End(t), t)
  {}

  /** A call that owns nothing ends. */
  lemma KeepDeparture(s: System, t: TaskId)
    requires Core(s) && t in s.tasks && RoleOf(s, t) == Role(None, false, false, None, None)
    ensures Core(s.End(t))
  {
    assert s.Wf() by { hide TaskOk; }
    CallDeparts(s, t) by { hide Core; }
    CallStepKeeps(s, s.End(t), t) by { hide Core, CallStep; }
    hide *;
  }

  function AfterClaim(s: System, t: TaskId, l: TaskId): System
    requires CanExamine(s, t) && l in s.pool.loads
  {
    s.(pool := Claim(s.pool, l)).At(t, Join(s.tasks[t].page, s.tasks[t].mode, l))
  }

  lemma CallClaims(s: System, t: TaskId, l: TaskId)
    requires s.Wf() && CanExamine(s, t) && l in s.pool.loads && s.pool.loads[l].claims < s.pool.maxPins
    ensures CallStep(s, AfterClaim(s, t, l), t)
  {}

  lemma KeepClaim(s: System, t: TaskId, l: TaskId)
    requires Core(s) && CanExamine(s, t) && l in s.pool.loads && s.pool.loads[l].claims < s.pool.maxPins
    ensures Core(AfterClaim(s, t, l))
  {
    assert s.Wf() by { hide TaskOk; }
    CallClaims(s, t, l) by { hide Core; }
    CallStepKeeps(s, AfterClaim(s, t, l), t) by { hide Core, CallStep; }
    hide *;
  }

  lemma CallWakes(s: System, t: TaskId)
    requires s.Wf() && CanWake(s, t) && LoadOk(s, s.tasks[t].load)
    ensures CallStep(s, DoWake(s, t), t)
  {}

  lemma KeepWake(s: System, t: TaskId)
    requires Core(s) && CanWake(s, t)
    ensures Core(DoWake(s, t))
  {
    assert s.Wf() by { hide TaskOk; }
    LoadAt(s, s.tasks[t].load) by { hide TaskOk; }
    CallWakes(s, t) by { hide Core, LoadOk; }
    CallStepKeeps(s, DoWake(s, t), t) by { hide Core, CallStep, LoadOk; }
    hide *;
  }

  // ---- The hand moves; the want stays what it was ----

  predicate Hunts(task: Task, want: Want) { task == Acquire(want) || (task.Observed? && task.want == want) }

  function AfterHunt(s: System, t: TaskId, task: Task, clock: Clock): System
  {
    s.(pool := s.pool.(clock := clock)).At(t, task)
  }

  lemma CallHunts(s: System, t: TaskId, want: Want, task: Task, clock: Clock)
    requires s.Wf() && t in s.tasks && clock.Valid() && |clock.referenced| == |s.pool.frames|
    requires Hunts(s.tasks[t], want) && Hunts(task, want) && TaskOk(s, t)
    ensures CallStep(s, AfterHunt(s, t, task, clock), t)
  {}

  lemma KeepHunt(s: System, t: TaskId, want: Want, task: Task, clock: Clock)
    requires Core(s) && t in s.tasks && clock.Valid() && |clock.referenced| == |s.pool.frames|
    requires Hunts(s.tasks[t], want) && Hunts(task, want)
    ensures Core(AfterHunt(s, t, task, clock))
  {
    assert s.Wf() by { hide TaskOk; }
    TaskAt(s, t);
    CallHunts(s, t, want, task, clock) by { hide Core, TaskOk; }
    CallStepKeeps(s, AfterHunt(s, t, task, clock), t) by { hide Core, CallStep, TaskOk; }
    hide *;
  }

  function AfterNumber(s: System, t: TaskId, file: nat, f: nat): System
    requires file in s.pool.files
  {
    s.At(t, Numbered(file, f, s.pool.files[file].bound))
  }

  lemma CallNumbers(s: System, t: TaskId, file: nat, f: nat)
    requires s.Wf() && t in s.tasks && s.tasks[t] == Owned(ForNew(file), f) && TaskOk(s, t)
    requires file in s.pool.files && PageId(file, s.pool.files[file].bound) in s.disk.volatile
    ensures CallStep(s, AfterNumber(s, t, file, f), t)
  {}

  lemma KeepNumber(s: System, t: TaskId, file: nat, f: nat)
    requires Core(s) && t in s.tasks && s.tasks[t] == Owned(ForNew(file), f)
    requires file in s.pool.files && PageId(file, s.pool.files[file].bound) in s.disk.volatile
    ensures Core(AfterNumber(s, t, file, f))
  {
    assert s.Wf() by { hide TaskOk; }
    TaskAt(s, t);
    CallNumbers(s, t, file, f) by { hide Core, TaskOk; }
    CallStepKeeps(s, AfterNumber(s, t, file, f), t) by { hide Core, CallStep, TaskOk; }
    hide *;
  }

  // ---- Flushes ----

  lemma SameJob(s: System, s': System, t: TaskId, job: Job, pages: seq<PageId>, failed: bool)
    requires s'.pool == s.pool && JobOk(s, t, job, pages, failed)
    ensures JobOk(s', t, job, pages, failed)
  {
    hide Drained, AllDrained, Matches;
  }

  ghost predicate Copies(s: System, t: TaskId, f: nat, p: PageId)
  {
    && s.Wf() && CanCopyImage(s, t) && f == s.tasks[t].frame && |s.tasks[t].pages| > 0 && p == s.tasks[t].pages[0]
    && TaskOk(s, t) && FrameOk(s, f) && p in s.published && PageOk(s, p)
  }

  /** With no writer on the latch, the copied image is the published one. */
  lemma CopyOk(s: System, t: TaskId, f: nat, p: PageId)
    requires Copies(s, t, f, p)
    ensures t in DoCopyImage(s, t).tasks && TaskOk(DoCopyImage(s, t), t)
  {
    FinalizeVerifies(s.pool.frames[f].bytes);
    SameJob(s, DoCopyImage(s, t), t, s.tasks[t].job, s.tasks[t].pages, s.tasks[t].failed);
    hide Finalized, Verifies, JobOk;
  }

  lemma CallCopies(s: System, t: TaskId, f: nat, p: PageId)
    requires Copies(s, t, f, p)
    ensures CallStep(s, DoCopyImage(s, t), t)
  {
    CopyOk(s, t, f, p) by { hide Copies; }
    hide TaskOk, FrameOk, PageOk, Finalized;
  }

  lemma KeepCopyImage(s: System, t: TaskId)
    requires Core(s) && CanCopyImage(s, t)
    ensures Core(DoCopyImage(s, t))
  {
    var f := s.tasks[t].frame;
    TaskAt(s, t);
    FrameAt(s, f) by { hide Core, TaskOk; }
    var p := s.tasks[t].pages[0];
    assert p in s.published by { hide Core, JobOk, StateOk; }
    PageAt(s, p) by { hide Core, StateOk, TaskOk; }
    assert |s.tasks[t].pages| > 0 && s.Wf() by { hide Core, JobOk, FrameOk; }
    CallCopies(s, t, f, p) by { hide Core, TaskOk, FrameOk, PageOk, StateOk; }
    CallStepKeeps(s, DoCopyImage(s, t), t) by { hide Core, CallStep, TaskOk, FrameOk, PageOk, StateOk; }
    hide *;
  }

  function AfterSkip(s: System, t: TaskId): System
    requires CanFlushNext(s, t)
  {
    s.At(t, Flush(s.tasks[t].job, s.tasks[t].pages[1..], s.tasks[t].failed))
  }

  lemma CallSkips(s: System, t: TaskId)
    requires s.Wf() && CanFlushNext(s, t) && TaskOk(s, t)
    requires forall o :: !Matches(s.pool, o, s.tasks[t].pages[0])
    ensures CallStep(s, AfterSkip(s, t), t)
  {
    assert s.tasks[t].pages == [s.tasks[t].pages[0]] + s.tasks[t].pages[1..];
    hide Drained, AllDrained, Matches;
  }

  /** FlushPageLocked returns at once: the page no longer needs this flush. */
  lemma KeepSkip(s: System, t: TaskId)
    requires Core(s) && CanFlushNext(s, t)
    requires forall o :: !Matches(s.pool, o, s.tasks[t].pages[0])
    ensures Core(AfterSkip(s, t))
  {
    assert s.Wf() by { hide TaskOk; }
    TaskAt(s, t);
    CallSkips(s, t) by { hide Core, TaskOk, Matches; }
    CallStepKeeps(s, AfterSkip(s, t), t) by { hide Core, CallStep, TaskOk; }
    hide *;
  }

  lemma CallDrained(s: System, t: TaskId, pages: seq<PageId>)
    requires s.Wf() && CanFinishDrain(s, t, pages) && TaskOk(s, t)
    ensures CallStep(s, DoFinishDrain(s, t, pages), t)
  {
    hide Drained, Matches;
  }

  lemma KeepFinishDrain(s: System, t: TaskId, pages: seq<PageId>)
    requires Core(s) && CanFinishDrain(s, t, pages)
    ensures Core(DoFinishDrain(s, t, pages))
  {
    assert s.Wf() by { hide TaskOk; }
    TaskAt(s, t);
    CallDrained(s, t, pages) by { hide Core, TaskOk; }
    CallStepKeeps(s, DoFinishDrain(s, t, pages), t) by { hide Core, CallStep, TaskOk; }
    hide *;
  }

  function AfterDrainAll(s: System, t: TaskId, pages: seq<PageId>): System { s.At(t, Flush(ShuttingDown, pages, false)) }

  lemma CallDrainedAll(s: System, t: TaskId, pages: seq<PageId>)
    requires s.Wf() && CanFinishDrainAll(s, t, pages) && TaskOk(s, t)
    ensures CallStep(s, AfterDrainAll(s, t, pages), t)
  {
    hide AllDrained, Matches;
  }

  lemma KeepFinishDrainAll(s: System, t: TaskId, pages: seq<PageId>)
    requires Core(s) && CanFinishDrainAll(s, t, pages)
    ensures Core(AfterDrainAll(s, t, pages))
  {
    assert s.Wf() by { hide TaskOk; }
    TaskAt(s, t);
    CallDrainedAll(s, t, pages) by { hide Core, TaskOk; }
    CallStepKeeps(s, AfterDrainAll(s, t, pages), t) by { hide Core, CallStep, TaskOk; }
    hide *;
  }
}
