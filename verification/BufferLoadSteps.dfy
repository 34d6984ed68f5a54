/** Preservation by LoadPage: intents, reads, their publication and their failure. */
module BufferLoadSteps {
  import opened Basics
  import opened PageChecksum
  import opened BufferState
  import opened BufferSystem
  import opened BufferInvariant
  import opened BufferLocal
  import opened BufferMoves

  // ---- The sole intent ----

  function AfterInstall(s: System, t: TaskId): System
    requires s.Wf() && CanExamine(s, t)
  {
    s.(pool := InstallIntent(s.pool, t, s.tasks[t].page)).At(t, Acquire(ForLoad(s.tasks[t].page, s.tasks[t].mode)))
  }

  ghost predicate Installs(s: System, t: TaskId, p: PageId)
  {
    && Around(s, t, 0, p, p.file) && FreeOk(s) && CanExamine(s, t) && p == s.tasks[t].page
    && Fetchable(s.pool, p) == None && p !in s.pool.table
  }

  function InstallUpdate(s: System, t: TaskId, p: PageId): Update
    requires Installs(s, t, p)
  {
    Seen(s, 0, Put(Acquire(ForLoad(p, s.tasks[t].mode))), Put(Load(1, false, None)), Put(Entry(IntentEntry, 0, Some(t))), Keep, Keep)
  }

  lemma ShapeInstall(s: System, t: TaskId, p: PageId)
    requires Installs(s, t, p)
    ensures Shape(s, AfterInstall(s, t), t, 0, p, p.file, InstallUpdate(s, t, p))
  {
    hide SameContent, PageOk, FileOk, LoadOk;
  }

  lemma MendInstall(s: System, t: TaskId, p: PageId)
    requires Installs(s, t, p)
    ensures Mended(AfterInstall(s, t), t, 0, p, p.file)
  {
    hide SameContent;
  }

  lemma KeepInstall(s: System, t: TaskId)
    requires Core(s) && CanExamine(s, t) && Fetchable(s.pool, s.tasks[t].page) == None && s.tasks[t].page !in s.pool.table
    ensures Core(AfterInstall(s, t))
  {
    var p := s.tasks[t].page;
    assert FreeOk(s) && s.Wf() by { hide TaskOk; }
    AroundAt(s, t, 0, p, p.file);
    ShapeInstall(s, t, p) by { hide Core, FreeOk, Around; }
    MendInstall(s, t, p) by { hide Core, FreeOk, Around; }
    assert Busy(s, p, p.file) by { hide Core, FreeOk, Around, Drained, AllDrained; }
    MoveKeeps(s, AfterInstall(s, t), t, 0, p, p.file, InstallUpdate(s, t, p)) by {
      hide Core, Shape, Mended, Around, FreeOk, Busy;
    }
    hide *;
  }

  // ---- A load owns its entry ----

  ghost predicate Loads(s: System, t: TaskId, f: nat, p: PageId)
  {
    && Around(s, t, f, p, p.file) && FreeOk(s) && t in s.tasks && LoaderOf(s.tasks[t]) == Some(p)
    && FrameOf(s.tasks[t]) in {None, Some(f)}
    && p in s.pool.table && s.pool.table[p].state in {IntentEntry, LoadingEntry} && s.pool.table[p].load == Some(t)
  }

  lemma LoadsAt(s: System, t: TaskId, f: nat, p: PageId)
    requires Core(s) && t in s.tasks && LoaderOf(s.tasks[t]) == Some(p) && f < |s.pool.frames|
    requires FrameOf(s.tasks[t]) in {None, Some(f)}
    ensures Loads(s, t, f, p) && Busy(s, p, p.file)
  {
    AroundAt(s, t, f, p, p.file);
    TaskAt(s, t);
    assert FreeOk(s) by { hide TaskOk; }
    assert p in s.pool.table && s.pool.table[p].state in {IntentEntry, LoadingEntry} && s.pool.table[p].load == Some(t) by {
      hide Core, FreeOk, SameContent, Around, ProgressOk;
    }
    EntryBusy(s, p);
    hide *;
  }

  lemma ShapeGiveUpLoad(s: System, t: TaskId, p: PageId)
    requires Loads(s, t, 0, p) && s.tasks[t].Acquire? && s.tasks[t].want.ForLoad?
    ensures t in s.pool.loads
    ensures Shape(s, GiveUp(s, t, s.tasks[t].want), t, 0, p, p.file,
      Seen(s, 0, Gone, Put(s.pool.loads[t].(done := true)), Gone, Keep, Keep))
  {
    assert s.pool.frames[0].page != p by { hide SameContent, PageOk, TaskOk, LoadOk; }
    hide SameContent, PageOk, FileOk, LoadOk;
  }

  lemma MendGiveUpLoad(s: System, t: TaskId, p: PageId)
    requires Loads(s, t, 0, p) && s.tasks[t].Acquire? && s.tasks[t].want.ForLoad?
    ensures Mended(GiveUp(s, t, s.tasks[t].want), t, 0, p, p.file)
  {
    hide SameContent;
  }

  lemma KeepGiveUpLoad(s: System, t: TaskId)
    requires Core(s) && CanSearch(s, t) && s.tasks[t].want.ForLoad?
    ensures Core(GiveUp(s, t, s.tasks[t].want))
  {
    var p := s.tasks[t].want.page;
    assert s.Wf() by { hide TaskOk; }
    LoadsAt(s, t, 0, p) by { hide Core; }
    ShapeGiveUpLoad(s, t, p) by { hide Core, Loads, Busy; }
    MendGiveUpLoad(s, t, p) by { hide Core, Loads, Busy; }
    MoveKeeps(s, GiveUp(s, t, s.tasks[t].want), t, 0, p, p.file,
              Seen(s, 0, Gone, Put(s.pool.loads[t].(done := true)), Gone, Keep, Keep)) by {
      hide Core, Shape, Mended, Loads, Busy;
    }
    hide *;
  }

  lemma ShapeBind(s: System, t: TaskId, f: nat, p: PageId)
    requires Loads(s, t, f, p) && CanBind(s, t) && s.tasks[t].frame == f
    ensures var s' := DoBind(s, t);
      Shape(s, s', t, f, p, p.file, Seen(s', f, Put(LoadRead(p, s.tasks[t].want.mode, f, None)), Keep, Put(Entry(LoadingEntry, f, Some(t))), Keep, Keep))
  {
    hide SameContent, PageOk, FileOk, LoadOk;
  }

  lemma MendBind(s: System, t: TaskId, f: nat, p: PageId)
    requires Loads(s, t, f, p) && CanBind(s, t) && s.tasks[t].frame == f
    ensures Mended(DoBind(s, t), t, f, p, p.file)
  {
    hide SameContent;
  }

  lemma KeepBind(s: System, t: TaskId)
    requires Core(s) && CanBind(s, t) && s.tasks[t].frame < |s.pool.frames|
    ensures Core(DoBind(s, t))
  {
    var p, f := s.tasks[t].want.page, s.tasks[t].frame;
    LoadsAt(s, t, f, p) by { hide Core; }
    ShapeBind(s, t, f, p) by { hide Core, Loads, Busy; }
    MendBind(s, t, f, p) by { hide Core, Loads, Busy; }
    var s' := DoBind(s, t);
    MoveKeeps(s, s', t, f, p, p.file, Seen(s', f, Put(LoadRead(p, s.tasks[t].want.mode, f, None)), Keep, Put(Entry(LoadingEntry, f, Some(t))), Keep, Keep)) by {
      hide Core, Shape, Mended, Loads, Busy;
    }
    hide *;
  }

  lemma ShapeReadPage(s: System, t: TaskId, f: nat, p: PageId, verdict: Verdict, bytes: Image)
    requires Loads(s, t, f, p) && CanReadPage(s, t, verdict) && s.tasks[t].frame == f
    ensures var s' := DoReadPage(s, t, verdict, bytes);
      t in s'.tasks && Shape(s, s', t, f, p, p.file, Seen(s', f, Put(s'.tasks[t]), Keep, Keep, Keep, Keep))
  {
    hide SameContent, PageOk, FileOk, LoadOk, LoadVerdict;
  }

  /** A page that is not in the pool is settled: the read finds the published image. */
  lemma MendReadPage(s: System, t: TaskId, f: nat, p: PageId, verdict: Verdict, bytes: Image)
    requires Loads(s, t, f, p) && CanReadPage(s, t, verdict) && s.tasks[t].frame == f
    ensures Mended(DoReadPage(s, t, verdict, bytes), t, f, p, p.file)
  {
    hide SameContent, Verifies, HeaderPageNo;
  }

  lemma KeepReadPage(s: System, t: TaskId, verdict: Verdict, bytes: Image)
    requires Core(s) && CanReadPage(s, t, verdict) && s.tasks[t].frame < |s.pool.frames|
    ensures Core(DoReadPage(s, t, verdict, bytes))
  {
    var p, f := s.tasks[t].page, s.tasks[t].frame;
    LoadsAt(s, t, f, p) by { hide Core; }
    ShapeReadPage(s, t, f, p, verdict, bytes) by { hide Core, Loads, Busy; }
    MendReadPage(s, t, f, p, verdict, bytes) by { hide Core, Loads, Busy; }
    var s' := DoReadPage(s, t, verdict, bytes);
    MoveKeeps(s, s', t, f, p, p.file, Seen(s', f, Put(s'.tasks[t]), Keep, Keep, Keep, Keep)) by {
      hide Core, Shape, Mended, Loads, Busy;
    }
    hide *;
  }

  // ---- The load ends ----

  predicate LoadFails(s: System, t: TaskId)
    requires CanFinishLoad(s, t)
  {
    s.tasks[t].verdict != Some(Valid) || !ActiveFile(s, s.tasks[t].page.file)
  }

  lemma ShapeFinishLoad(s: System, t: TaskId, f: nat, p: PageId)
    requires Loads(s, t, f, p) && CanFinishLoad(s, t) && s.tasks[t].frame == f && !LoadFails(s, t)
    ensures var s' := DoFinishLoad(s, t);
      t in s'.pool.loads && Shape(s, s', t, f, p, p.file, Seen(s', f, Put(Pinned(f, s.tasks[t].mode)), Put(s'.pool.loads[t]), Put(Entry(ResidentEntry, f, None)), Keep, Keep))
  {
    hide SameContent, PageOk, FileOk, LoadOk;
  }

  lemma MendFinishLoad(s: System, t: TaskId, f: nat, p: PageId)
    requires Loads(s, t, f, p) && CanFinishLoad(s, t) && s.tasks[t].frame == f && !LoadFails(s, t)
    ensures Mended(DoFinishLoad(s, t), t, f, p, p.file)
  {
    hide SameContent;
  }

  lemma KeepFinishLoad(s: System, t: TaskId)
    requires Core(s) && CanFinishLoad(s, t) && s.tasks[t].frame < |s.pool.frames| && !LoadFails(s, t)
    ensures Core(DoFinishLoad(s, t))
  {
    var p, f := s.tasks[t].page, s.tasks[t].frame;
    LoadsAt(s, t, f, p) by { hide Core; }
    ShapeFinishLoad(s, t, f, p) by { hide Core, Loads, Busy; }
    MendFinishLoad(s, t, f, p) by { hide Core, Loads, Busy; }
    var s' := DoFinishLoad(s, t);
    MoveKeeps(s, s', t, f, p, p.file, Seen(s', f, Put(Pinned(f, s.tasks[t].mode)), Put(s'.pool.loads[t]), Put(Entry(ResidentEntry, f, None)), Keep, Keep)) by {
      hide Core, Shape, Mended, Loads, Busy;
    }
    hide *;
  }

  lemma ShapeFailRead(s: System, t: TaskId, f: nat, p: PageId)
    requires Loads(s, t, f, p) && CanFinishLoad(s, t) && s.tasks[t].frame == f && LoadFails(s, t)
    ensures var s' := DoFinishLoad(s, t);
      t in s'.pool.loads && Shape(s, s', t, f, p, p.file, Seen(s', f, Gone, Put(s'.pool.loads[t]), Gone, Keep, Keep))
  {
    AppendFree(s.pool.free, f);
    hide SameContent, PageOk, FileOk, LoadOk;
  }

  lemma MendFailRead(s: System, t: TaskId, f: nat, p: PageId)
    requires Loads(s, t, f, p) && CanFinishLoad(s, t) && s.tasks[t].frame == f && LoadFails(s, t)
    ensures Mended(DoFinishLoad(s, t), t, f, p, p.file)
  {
    AppendFree(s.pool.free, f);
    hide SameContent;
  }

  lemma KeepFailRead(s: System, t: TaskId)
    requires Core(s) && CanFinishLoad(s, t) && s.tasks[t].frame < |s.pool.frames| && LoadFails(s, t)
    ensures Core(DoFinishLoad(s, t))
  {
    var p, f := s.tasks[t].page, s.tasks[t].frame;
    LoadsAt(s, t, f, p) by { hide Core; }
    ShapeFailRead(s, t, f, p) by { hide Core, Loads, Busy; }
    MendFailRead(s, t, f, p) by { hide Core, Loads, Busy; }
    var s' := DoFinishLoad(s, t);
    MoveKeeps(s, s', t, f, p, p.file, Seen(s', f, Gone, Put(s'.pool.loads[t]), Gone, Keep, Keep)) by {
      hide Core, Shape, Mended, Loads, Busy;
    }
    hide *;
  }
}
