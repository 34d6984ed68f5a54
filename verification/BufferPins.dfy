/** Pins are counted by their owners, claims by their joiners, and latches belong to live guards. */
module BufferPins {
  import opened Basics
  import opened PageChecksum
  import opened ClockReplacement
  import opened BufferState
  import opened BufferSystem
  import opened BufferInvariant
  import opened BufferReplaceSteps
  import opened BufferCreateSteps
  import opened BufferCallSteps

  /** The pin a task accounts for, if it is in flight. */
  function PinAt(s: System, t: TaskId): Option<nat>
  {
    if t in s.tasks then PinOf(s.pool.loads, s.tasks[t]) else None
  }

  /** The load a task waits for. */
  function WaitAt(s: System, t: TaskId): Option<TaskId>
  {
    if t in s.tasks && s.tasks[t].Join? then Some(s.tasks[t].load) else None
  }

  function GuardAt(s: System, t: TaskId): Option<nat>
  {
    if t in s.tasks && s.tasks[t].Guard? then Some(s.tasks[t].frame) else None
  }

  /** Nobody gains or loses a pin or a claim. */
  predicate CountsSteady(s: System, s': System, t: TaskId)
  {
    && |s'.pool.frames| == |s.pool.frames| && s'.pool.maxPins == s.pool.maxPins
    && (forall f :: 0 <= f < |s.pool.frames| ==> s'.pool.frames[f].pins == s.pool.frames[f].pins)
    && OthersStay(s, s', t)
    && (forall l :: l in s.pool.loads ==> l in s'.pool.loads)
    && (forall l :: l in s'.pool.loads && (l !in s.pool.loads || s'.pool.loads[l] != s.pool.loads[l]) ==>
          s'.pool.loads[l].done && s'.pool.loads[l].frame == None && l in s.pool.loads && !s.pool.loads[l].done)
    && PinAt(s', t) == PinAt(s, t)
    && (WaitAt(s', t) == WaitAt(s, t) || (WaitAt(s', t) == None && WaitAt(s, t).value in s.pool.loads && s.pool.loads[WaitAt(s, t).value].done))
  }

  predicate OthersStay(s: System, s': System, t: TaskId)
  {
    && (forall u :: u in s.tasks && u != t ==> u in s'.tasks && s'.tasks[u] == s.tasks[u])
    && (forall u :: u in s'.tasks && u != t ==> u in s.tasks)
  }

  /** Nor a latch. */
  predicate PinsSteady(s: System, s': System, t: TaskId)
  {
    && CountsSteady(s, s', t)
    && (forall f :: 0 <= f < |s.pool.frames| ==> s'.pool.frames[f].latch == s.pool.frames[f].latch)
    && GuardAt(s', t) == GuardAt(s, t)
  }

  lemma SteadyOwners(s: System, s': System, t: TaskId, f: nat)
    requires CountsSteady(s, s', t)
    ensures Owners(s', f) == Owners(s, f)
  {
    forall u ensures u in Owners(s', f) <==> u in Owners(s, f) {
      assert u in Owners(s, f) <==> PinAt(s, u) == Some(f);
      assert u in Owners(s', f) <==> PinAt(s', u) == Some(f);
    }
  }

  lemma SteadyJoiners(s: System, s': System, t: TaskId, l: TaskId)
    requires CountsSteady(s, s', t) && l in s'.pool.loads && !s'.pool.loads[l].done
    ensures l in s.pool.loads && s.pool.loads[l] == s'.pool.loads[l] && Joiners(s', l) == Joiners(s, l)
  {
    forall u ensures u in Joiners(s', l) <==> u in Joiners(s, l) {
      assert u in Joiners(s, l) <==> WaitAt(s, u) == Some(l);
      assert u in Joiners(s', l) <==> WaitAt(s', u) == Some(l);
    }
  }

  lemma CountsKeep(s: System, s': System, t: TaskId)
    requires PinsOk(s) && CountsSteady(s, s', t)
    ensures PinsOk(s')
  {
    forall f | 0 <= f < |s'.pool.frames| ensures s'.pool.frames[f].pins == |Owners(s', f)| <= s'.pool.maxPins {
      SteadyOwners(s, s', t, f);
    }
    forall l | l in s'.pool.loads && !s'.pool.loads[l].done ensures s'.pool.loads[l].claims == 1 + |Joiners(s', l)| {
      SteadyJoiners(s, s', t, l);
    }
    hide Owners, Joiners, PinAt, WaitAt;
  }

  lemma SteadyKeeps(s: System, s': System, t: TaskId)
    requires PinsOk(s) && LatchesOk(s) && PinsSteady(s, s', t)
    ensures PinsOk(s') && LatchesOk(s')
  {
    CountsKeep(s, s', t) by { hide LatchesOk, CountsSteady; }
    hide PinsOk, PinAt, WaitAt;
  }

  // ---- Steps that leave pins alone ----

  /** What a step may use about its own task. */
  ghost predicate Knows(s: System, t: TaskId)
  {
    && s.Wf() && t in s.tasks && TaskOk(s, t) && (t in s.pool.loads ==> LoadOk(s, t))
    && (FrameOf(s.tasks[t]).Some? ==> FrameOf(s.tasks[t]).value < |s.pool.frames| && FrameOk(s, FrameOf(s.tasks[t]).value))
  }

  lemma KnowsAt(s: System, t: TaskId)
    requires Core(s) && t in s.tasks
    ensures Knows(s, t)
  {
    TaskAt(s, t);
    var f := FrameOf(s.tasks[t]);
    if f.Some? {
      assert f.value < |s.pool.frames| by { hide Core, StateOk, SameContent, ProgressOk, WantOk; }
      FrameAt(s, f.value);
    }
    if t in s.pool.loads { LoadAt(s, t); }
    hide FrameOk, LoadOk, TaskOk, EntryOk, FileOk, PageOk, DiskOk, FreeOk, HoldersOk, ClosedOk;
  }

  lemma SteadyArrives(s: System, t: TaskId, task: Task)
    requires s.Wf() && Fresh(s, t) && !task.Guard? && !task.Join? && PinOf(s.pool.loads, task) == None
    ensures PinsSteady(s, s.At(t, task), t)
  {
    hide SameContent, ProgressOk, JobOk;
  }

  lemma SteadyStartRetire(s: System, t: TaskId, file: nat, discard: bool)
    requires s.Wf() && CanStartRetire(s, t, file)
    ensures PinsSteady(s, DoStartRetire(s, t, file, discard), t)
  {
    hide SameContent, ProgressOk, JobOk;
  }

  lemma SteadyStartShutdown(s: System, t: TaskId)
    requires s.Wf() && Fresh(s, t)
    ensures PinsSteady(s, s.(pool := s.pool.(quiescing := true)).At(t, DrainAll), t)
  {
    hide SameContent, ProgressOk, JobOk;
  }

  lemma SteadyRegister(s: System, t: TaskId)
    requires Knows(s, t) && CanFinishRegister(s, t)
    ensures PinsSteady(s, DoFinishRegister(s, t), t)
  {
    hide SameContent, ProgressOk, JobOk;
  }

  lemma SteadyWake(s: System, t: TaskId)
    requires Knows(s, t) && CanWake(s, t)
    ensures PinsSteady(s, DoWake(s, t), t)
  {
    hide SameContent, ProgressOk, JobOk;
  }

  lemma SteadyDeparts(s: System, t: TaskId)
    requires Knows(s, t) && !s.tasks[t].Guard? && !s.tasks[t].Join? && PinOf(s.pool.loads, s.tasks[t]) == None
    ensures PinsSteady(s, s.End(t), t)
  {
    hide SameContent, ProgressOk, JobOk;
  }

  lemma SteadyBind(s: System, t: TaskId)
    requires Knows(s, t) && CanBind(s, t)
    ensures PinsSteady(s, DoBind(s, t), t)
  {
    hide SameContent, ProgressOk, JobOk;
  }

  lemma SteadyReadPage(s: System, t: TaskId, verdict: Verdict, bytes: Image)
    requires Knows(s, t) && CanReadPage(s, t, verdict)
    ensures PinsSteady(s, DoReadPage(s, t, verdict, bytes), t)
  {
    hide SameContent, ProgressOk, JobOk;
  }

  lemma SteadyFailRead(s: System, t: TaskId)
    requires Knows(s, t) && CanFinishLoad(s, t) && (s.tasks[t].verdict != Some(Valid) || s.tasks[t].page.file !in s.pool.files || s.pool.files[s.tasks[t].page.file].state != Active)
    ensures PinsSteady(s, DoFinishLoad(s, t), t)
  {
    hide SameContent, ProgressOk, JobOk;
  }

  lemma SteadyGiveUp(s: System, t: TaskId, want: Want)
    requires Knows(s, t) && WantOf(s.tasks[t]) == Some(want)
    ensures PinsSteady(s, GiveUp(s, t, want), t)
  {
    hide SameContent, ProgressOk, JobOk;
  }

  lemma SteadyTakeTurn(s: System, t: TaskId)
    requires Knows(s, t) && CanTakeTurn(s, t)
    ensures PinsSteady(s, DoTakeTurn(s, t), t)
  {
    hide SameContent, ProgressOk, JobOk;
  }

  lemma SteadyConstruct(s: System, t: TaskId, built: bool, bytes: Image)
    requires Knows(s, t) && CanConstruct(s, t, built, bytes)
    ensures PinsSteady(s, DoConstruct(s, t, built, bytes), t)
  {
    hide SameContent, ProgressOk, JobOk;
  }

  lemma SteadyAbortNew(s: System, t: TaskId)
    requires Knows(s, t) && CanFinishNew(s, t) && (s.tasks[t].built == Some(false) || s.tasks[t].page.file !in s.pool.files || s.pool.files[s.tasks[t].page.file].state != Active)
    ensures PinsSteady(s, DoFinishNew(s, t), t)
  {
    hide SameContent, ProgressOk, JobOk;
  }

  lemma SteadyMutate(s: System, t: TaskId, bytes: Image)
    requires Knows(s, t) && CanMutate(s, t)
    ensures PinsSteady(s, DoMutate(s, t, bytes), t)
  {
    hide SameContent, ProgressOk, JobOk;
  }

  lemma SteadyMarkDirty(s: System, t: TaskId)
    requires Knows(s, t) && CanMutate(s, t)
    ensures PinsSteady(s, DoMarkDirty(s, t), t)
  {
    hide SameContent, ProgressOk, JobOk;
  }

  lemma SteadySkip(s: System, t: TaskId)
    requires Knows(s, t) && CanFlushNext(s, t)
    ensures PinsSteady(s, AfterSkip(s, t), t)
  {
    hide SameContent, ProgressOk, JobOk;
  }

  lemma SteadyClaim(s: System, t: TaskId, f: nat, p: PageId)
    requires s.Wf() && CanFlushNext(s, t) && p == s.tasks[t].pages[0] && f < |s.pool.frames|
    requires p in s.pool.table && s.pool.table[p].state == ResidentEntry && s.pool.table[p].frame == f
    requires s.pool.frames[f].dirty && s.pool.frames[f].io == Idle
    ensures PinsSteady(s, DoFlushNext(s, t), t)
  {
    var Flush(job, pages, failed) := s.tasks[t];
    var s' := s.(pool := SetIo(s.pool, f, Writing)).Hold(f, Some(t)).At(t, Copy(job, pages, failed, f, s.pool.frames[f].epoch));
    assert DoFlushNext(s, t) == s';
    SteadyWriting(s, s', t, f) by { hide DoFlushNext; }
    hide DoFlushNext, PinsSteady;
  }

  lemma SteadyWriting(s: System, s': System, t: TaskId, f: nat)
    requires s.Wf() && t in s.tasks && s.tasks[t].Flush? && f < |s.pool.frames|
    requires t in s'.tasks && s'.tasks[t].Copy?
    requires s'.pool == SetIo(s.pool, f, Writing) && s'.tasks == s.tasks[t := s'.tasks[t]]
    ensures PinsSteady(s, s', t)
  {}

  lemma SteadyCopyImage(s: System, t: TaskId)
    requires Knows(s, t) && CanCopyImage(s, t)
    ensures PinsSteady(s, DoCopyImage(s, t), t)
  {
    hide SameContent, ProgressOk, JobOk;
  }

  lemma SteadyFinishWrite(s: System, t: TaskId)
    requires Knows(s, t) && CanFinishWrite(s, t)
    ensures PinsSteady(s, DoFinishWrite(s, t), t)
  {
    hide SameContent, ProgressOk, JobOk;
  }

  lemma SteadyFinishDrain(s: System, t: TaskId, pages: seq<PageId>)
    requires Knows(s, t) && CanFinishDrain(s, t, pages)
    ensures PinsSteady(s, DoFinishDrain(s, t, pages), t)
  {
    hide SameContent, ProgressOk, JobOk;
  }

  lemma SteadyTear(s: System, t: TaskId, bytes: Image)
    requires Knows(s, t) && Transfers(s, t, Pending)
    ensures PinsSteady(s, DoTear(s, t, bytes), t)
  {
    hide SameContent, ProgressOk, JobOk;
  }

  lemma SteadyWriteDone(s: System, t: TaskId)
    requires Knows(s, t) && Transfers(s, t, Pending)
    ensures PinsSteady(s, DoWriteDone(s, t), t)
  {
    hide SameContent, ProgressOk, JobOk;
  }

  lemma SteadySyncDone(s: System, t: TaskId)
    requires Knows(s, t) && Transfers(s, t, Written)
    ensures PinsSteady(s, DoSyncDone(s, t), t)
  {
    hide SameContent, ProgressOk, JobOk;
  }

  lemma SteadyIoFails(s: System, t: TaskId)
    requires Knows(s, t) && (s.tasks[t].Evict? || s.tasks[t].Write?)
    ensures PinsSteady(s, DoIoFails(s, t), t)
  {
    hide SameContent, ProgressOk, JobOk;
  }

  lemma SteadyTakeFree(s: System, t: TaskId)
    requires Knows(s, t) && CanSearch(s, t) && |s.pool.free| > 0
    ensures PinsSteady(s, DoSearch(s, t), t)
  {
    hide SameContent, ProgressOk, JobOk;
  }

  lemma SteadyHunt(s: System, t: TaskId, want: Want, task: Task, clock: Clock)
    requires Knows(s, t) && Hunts(s.tasks[t], want) && Hunts(task, want)
    ensures PinsSteady(s, AfterHunt(s, t, task, clock), t)
  {
    hide SameContent, ProgressOk, JobOk;
  }

  lemma SteadyReserve(s: System, t: TaskId, want: Want, f: nat, clock: Clock)
    requires Knows(s, t) && f < |s.pool.frames| && clock.Valid() && |clock.referenced| == |s.pool.frames| && Hunts(s.tasks[t], want)
    ensures PinsSteady(s, AfterReserve(s, t, want, f, clock), t)
  {
    hide SameContent, ProgressOk, JobOk;
  }

  lemma SteadyBeginEvict(s: System, t: TaskId)
    requires Knows(s, t) && CanBeginEvict(s, t) && s.pool.frames[s.tasks[t].frame].dirty
    ensures PinsSteady(s, DoBeginEvict(s, t), t)
  {
    hide SameContent, ProgressOk, JobOk;
  }

  lemma SteadyDrop(s: System, t: TaskId)
    requires Knows(s, t) && (s.tasks[t].Reserved? || s.tasks[t].Evict?)
    ensures PinsSteady(s, AfterDrop(s, t, s.tasks[t].frame, s.tasks[t].want), t)
  {
    hide SameContent, ProgressOk, JobOk;
  }

  lemma SteadyRestore(s: System, t: TaskId)
    requires Knows(s, t) && s.tasks[t].Evict?
    ensures PinsSteady(s, AfterRestore(s, t, s.tasks[t].frame, s.tasks[t].want), t)
  {
    hide SameContent, ProgressOk, JobOk;
  }

  lemma SteadyGiveBack(s: System, t: TaskId, file: nat)
    requires Knows(s, t) && (s.tasks[t].Owned? || s.tasks[t].Numbered?)
    ensures PinsSteady(s, AfterGiveBack(s, t, s.tasks[t].frame, file), t)
  {
    hide SameContent, ProgressOk, JobOk;
  }

  lemma SteadyNumber(s: System, t: TaskId, file: nat, f: nat)
    requires Knows(s, t) && file in s.pool.files && s.tasks[t].Owned?
    ensures PinsSteady(s, AfterNumber(s, t, file, f), t)
  {
    hide SameContent, ProgressOk, JobOk;
  }

  lemma SteadyBindPage(s: System, t: TaskId)
    requires Knows(s, t) && CanBindPage(s, t) && s.tasks[t].no != 0
    ensures PinsSteady(s, DoBindPage(s, t), t)
  {
    hide SameContent, ProgressOk, JobOk;
  }
}
