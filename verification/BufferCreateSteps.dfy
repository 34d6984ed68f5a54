/** Preservation by NewPage: turns, numbering, construction, publication and its failures. */
module BufferCreateSteps {
  import opened Basics
  import opened PageChecksum
  import opened BufferState
  import opened BufferSystem
  import opened BufferInvariant
  import opened BufferLocal
  import opened BufferMoves

  // ---- One creator per file ----

  function AfterTurn(s: System, t: TaskId, file: nat): System
    requires file in s.pool.files
  {
    s.(pool := SetCreator(s.pool, file, Some(t))).At(t, Acquire(ForNew(file)))
  }

  ghost predicate Turns(s: System, t: TaskId, file: nat)
  {
    && Around(s, t, 0, PageId(file, 0), file) && FreeOk(s) && t in s.tasks && s.tasks[t] == NewWait(file)
    && !s.pool.quiescing && ActiveFile(s, file) && s.pool.files[file].creator == None
  }

  lemma ShapeTurn(s: System, t: TaskId, file: nat)
    requires Turns(s, t, file)
    ensures var s' := AfterTurn(s, t, file);
      Shape(s, s', t, 0, PageId(file, 0), file, Seen(s, 0, Put(Acquire(ForNew(file))), Keep, Keep, Keep, Put(s'.pool.files[file])))
  {
    hide SameContent, PageOk, LoadOk;
  }

  lemma MendTurn(s: System, t: TaskId, file: nat)
    requires Turns(s, t, file)
    ensures Mended(AfterTurn(s, t, file), t, 0, PageId(file, 0), file)
  {
    hide SameContent;
  }

  lemma KeepTurn(s: System, t: TaskId, file: nat)
    requires Core(s) && t in s.tasks && s.tasks[t] == NewWait(file)
    requires !s.pool.quiescing && ActiveFile(s, file) && s.pool.files[file].creator == None
    ensures Core(AfterTurn(s, t, file))
  {
    assert FreeOk(s) && s.Wf() by { hide TaskOk; }
    AroundAt(s, t, 0, PageId(file, 0), file) by { hide Core, FreeOk; }
    ShapeTurn(s, t, file) by { hide Core, FreeOk, Around; }
    MendTurn(s, t, file) by { hide Core, FreeOk, Around; }
    assert Busy(s, PageId(file, 0), file) by { hide Core, FreeOk, Around, Drained, AllDrained; }
    var s' := AfterTurn(s, t, file);
    MoveKeeps(s, s', t, 0, PageId(file, 0), file, Seen(s, 0, Put(Acquire(ForNew(file))), Keep, Keep, Keep, Put(s'.pool.files[file]))) by {
      hide Core, Shape, Mended, Around, FreeOk, Busy;
    }
    hide *;
  }

  // ---- The creator's steps ----

  ghost predicate Creates(s: System, t: TaskId, f: nat, p: PageId)
  {
    && Around(s, t, f, p, p.file) && FreeOk(s) && DiskOk(s.disk) && t in s.tasks && CreatorIs(s, t, p.file)
    && CreatorOf(s.tasks[t]) == Some(p.file) && LoaderOf(s.tasks[t]) == None && FrameOf(s.tasks[t]) in {None, Some(f)}
  }

  lemma CreatesAt(s: System, t: TaskId, f: nat, p: PageId)
    requires Core(s) && t in s.tasks && CreatorOf(s.tasks[t]) == Some(p.file) && f < |s.pool.frames|
    requires FrameOf(s.tasks[t]) in {None, Some(f)}
    ensures Creates(s, t, f, p) && Busy(s, p, p.file)
  {
    AroundAt(s, t, f, p, p.file);
    TaskAt(s, t);
    assert FreeOk(s) && DiskOk(s.disk) by { hide TaskOk; }
    assert CreatorIs(s, t, p.file) && LoaderOf(s.tasks[t]) == None by { hide Core, FreeOk, DiskOk, SameContent, Around, ProgressOk; }
    CreatorBusy(s, t, p.file);
    hide *;
  }

  lemma ShapeGiveUpNew(s: System, t: TaskId, f: nat, p: PageId)
    requires Creates(s, t, f, p) && s.tasks[t].Acquire? && p.file in s.pool.files
    ensures var s' := GiveUp(s, t, s.tasks[t].want);
      p.file in s'.pool.files && Shape(s, s', t, f, p, p.file, Seen(s', f, Gone, Keep, Keep, Keep, Put(s'.pool.files[p.file])))
  {
    hide SameContent, PageOk, LoadOk;
  }

  lemma MendGiveUpNew(s: System, t: TaskId, f: nat, p: PageId)
    requires Creates(s, t, f, p) && s.tasks[t].Acquire? && p.file in s.pool.files
    ensures Mended(GiveUp(s, t, s.tasks[t].want), t, f, p, p.file)
  {
    hide SameContent;
  }

  lemma KeepGiveUpNew(s: System, t: TaskId, f: nat, p: PageId)
    requires Core(s) && t in s.tasks && CreatorOf(s.tasks[t]) == Some(p.file) && f < |s.pool.frames|
    requires FrameOf(s.tasks[t]) in {None, Some(f)} && s.tasks[t].Acquire? && p.file in s.pool.files
    ensures Core(GiveUp(s, t, s.tasks[t].want))
  {
    CreatesAt(s, t, f, p) by { hide Core; }
    ShapeGiveUpNew(s, t, f, p) by { hide Core, Creates, Busy; }
    MendGiveUpNew(s, t, f, p) by { hide Core, Creates, Busy; }
    var s' := GiveUp(s, t, s.tasks[t].want);
    MoveKeeps(s, s', t, f, p, p.file, Seen(s', f, Gone, Keep, Keep, Keep, Put(s'.pool.files[p.file]))) by {
      hide Core, Shape, Mended, Creates, Busy;
    }
    hide *;
  }

  /** An owned frame returns to the free list before the creation fails. */
  function AfterGiveBack(s: System, t: TaskId, f: nat, file: nat): System
    requires s.Wf() && f < |s.pool.frames|
  {
    s.(pool := ReleaseFrame(s.pool, f)).Hold(f, None).At(t, Acquire(ForNew(file)))
  }

  lemma ShapeGiveBack(s: System, t: TaskId, f: nat, p: PageId)
    requires Creates(s, t, f, p) && (s.tasks[t].Owned? || s.tasks[t].Numbered?) && f == s.tasks[t].frame
    ensures var s' := AfterGiveBack(s, t, f, p.file);
      Shape(s, s', t, f, p, p.file, Seen(s', f, Put(Acquire(ForNew(p.file))), Keep, Keep, Keep, Keep))
  {
    AppendFree(s.pool.free, f);
    hide SameContent, PageOk, LoadOk;
  }

  lemma MendGiveBack(s: System, t: TaskId, f: nat, p: PageId)
    requires Creates(s, t, f, p) && (s.tasks[t].Owned? || s.tasks[t].Numbered?) && f == s.tasks[t].frame
    ensures Mended(AfterGiveBack(s, t, f, p.file), t, f, p, p.file)
  {
    AppendFree(s.pool.free, f);
    hide SameContent;
  }

  lemma KeepGiveBack(s: System, t: TaskId, f: nat, p: PageId)
    requires Core(s) && t in s.tasks && CreatorOf(s.tasks[t]) == Some(p.file) && f < |s.pool.frames|
    requires FrameOf(s.tasks[t]) in {None, Some(f)} && (s.tasks[t].Owned? || s.tasks[t].Numbered?) && f == s.tasks[t].frame
    ensures Core(AfterGiveBack(s, t, f, p.file))
  {
    CreatesAt(s, t, f, p) by { hide Core; }
    ShapeGiveBack(s, t, f, p) by { hide Core, Creates, Busy; }
    MendGiveBack(s, t, f, p) by { hide Core, Creates, Busy; }
    var s' := AfterGiveBack(s, t, f, p.file);
    MoveKeeps(s, s', t, f, p, p.file, Seen(s', f, Put(Acquire(ForNew(p.file))), Keep, Keep, Keep, Keep)) by {
      hide Core, Shape, Mended, Creates, Busy;
    }
    hide *;
  }

  /** The page past the bound is in no frame: only its creator could have bound it. */
  lemma NumberedIsUnbound(s: System, t: TaskId)
    requires Core(s) && t in s.tasks && s.tasks[t].Numbered?
    ensures PageId(s.tasks[t].file, s.tasks[t].no) !in s.pool.table
  {
    var p := PageId(s.tasks[t].file, s.tasks[t].no);
    TaskAt(s, t);
    if p in s.pool.table {
      EntryAt(s, p);
      var h := s.pool.table[p].frame;
      assert s.pool.table[p].state == LoadingEntry && s.pool.table[p].load == None by { hide StateOk, Core; }
      FrameAt(s, h);
      var u := s.holders[h].value;
      HolderAt(s, h);
      TaskAt(s, u);
      assert false by { hide StateOk, Core, SameContent, ProgressOk; }
    }
    hide *;
  }

  lemma ShapeBindPage(s: System, t: TaskId, f: nat, p: PageId)
    requires Creates(s, t, f, p) && CanBindPage(s, t) && f == s.tasks[t].frame && p.no == s.tasks[t].no && p.no != 0 && p !in s.pool.table
    ensures var s' := DoBindPage(s, t);
      Shape(s, s', t, f, p, p.file, Seen(s', f, Put(Build(p, f, None)), Keep, Put(Entry(LoadingEntry, f, None)), Keep, Keep))
  {
    hide SameContent, PageOk, LoadOk;
  }

  lemma MendBindPage(s: System, t: TaskId, f: nat, p: PageId)
    requires Creates(s, t, f, p) && CanBindPage(s, t) && f == s.tasks[t].frame && p.no == s.tasks[t].no && p.no != 0 && p !in s.pool.table
    ensures Mended(DoBindPage(s, t), t, f, p, p.file)
  {
    hide SameContent;
  }

  lemma KeepBindPage(s: System, t: TaskId, f: nat, p: PageId)
    requires Core(s) && t in s.tasks && CreatorOf(s.tasks[t]) == Some(p.file) && f < |s.pool.frames|
    requires FrameOf(s.tasks[t]) in {None, Some(f)} && CanBindPage(s, t) && f == s.tasks[t].frame && p.no == s.tasks[t].no && p.no != 0 && p !in s.pool.table
    ensures Core(DoBindPage(s, t))
  {
    CreatesAt(s, t, f, p) by { hide Core; }
    ShapeBindPage(s, t, f, p) by { hide Core, Creates, Busy; }
    MendBindPage(s, t, f, p) by { hide Core, Creates, Busy; }
    var s' := DoBindPage(s, t);
    MoveKeeps(s, s', t, f, p, p.file, Seen(s', f, Put(Build(p, f, None)), Keep, Put(Entry(LoadingEntry, f, None)), Keep, Keep)) by {
      hide Core, Shape, Mended, Creates, Busy;
    }
    hide *;
  }

  lemma ShapeConstruct(s: System, t: TaskId, f: nat, p: PageId, built: bool, bytes: Image)
    requires Creates(s, t, f, p) && CanConstruct(s, t, built, bytes) && f == s.tasks[t].frame && p == s.tasks[t].page
    ensures var s' := DoConstruct(s, t, built, bytes);
      Shape(s, s', t, f, p, p.file, Seen(s', f, Put(Build(p, f, Some(built))), Keep, Keep, Keep, Keep))
  {
    hide SameContent, PageOk, LoadOk;
  }

  lemma MendConstruct(s: System, t: TaskId, f: nat, p: PageId, built: bool, bytes: Image)
    requires Creates(s, t, f, p) && CanConstruct(s, t, built, bytes) && f == s.tasks[t].frame && p == s.tasks[t].page
    ensures Mended(DoConstruct(s, t, built, bytes), t, f, p, p.file)
  {
    hide SameContent;
  }

  lemma KeepConstruct(s: System, t: TaskId, f: nat, p: PageId, built: bool, bytes: Image)
    requires Core(s) && t in s.tasks && CreatorOf(s.tasks[t]) == Some(p.file) && f < |s.pool.frames|
    requires FrameOf(s.tasks[t]) in {None, Some(f)} && CanConstruct(s, t, built, bytes) && f == s.tasks[t].frame && p == s.tasks[t].page
    ensures Core(DoConstruct(s, t, built, bytes))
  {
    CreatesAt(s, t, f, p) by { hide Core; }
    ShapeConstruct(s, t, f, p, built, bytes) by { hide Core, Creates, Busy; }
    MendConstruct(s, t, f, p, built, bytes) by { hide Core, Creates, Busy; }
    var s' := DoConstruct(s, t, built, bytes);
    MoveKeeps(s, s', t, f, p, p.file, Seen(s', f, Put(Build(p, f, Some(built))), Keep, Keep, Keep, Keep)) by {
      hide Core, Shape, Mended, Creates, Busy;
    }
    hide *;
  }

  predicate NewFails(s: System, t: TaskId)
    requires CanFinishNew(s, t)
  {
    s.tasks[t].built == Some(false) || !ActiveFile(s, s.tasks[t].page.file)
  }

  lemma UpdateAbortNew(s: System, t: TaskId, f: nat, p: PageId)
    requires s.Wf() && CanFinishNew(s, t) && NewFails(s, t) && f == s.tasks[t].frame && p == s.tasks[t].page && f < |s.pool.frames| && p.file in s.pool.files
    ensures var s' := DoFinishNew(s, t);
      p.file in s'.pool.files && s'.Wf() && |s'.pool.frames| == |s.pool.frames| &&
      var u := Seen(s', f, Gone, Keep, Gone, Keep, Put(s'.pool.files[p.file]));
      Sound(s, f, u) && u.free == s.pool.free + [f] && s' == Updated(s, t, f, p, p.file, u)
  {
    AppendFree(s.pool.free, f);
  }

  lemma OwnsAbortNew(s: System, t: TaskId, f: nat, p: PageId)
    requires Creates(s, t, f, p) && CanFinishNew(s, t) && NewFails(s, t) && f == s.tasks[t].frame && p == s.tasks[t].page
    ensures Owns(s, DoFinishNew(s, t), t, f, p, p.file)
  {
    hide SameContent, PageOk, LoadOk;
  }

  lemma ShapeAbortNew(s: System, t: TaskId, f: nat, p: PageId)
    requires Creates(s, t, f, p) && CanFinishNew(s, t) && NewFails(s, t) && f == s.tasks[t].frame && p == s.tasks[t].page
    ensures var s' := DoFinishNew(s, t);
      p.file in s'.pool.files && Shape(s, s', t, f, p, p.file, Seen(s', f, Gone, Keep, Gone, Keep, Put(s'.pool.files[p.file])))
  {
    AppendFree(s.pool.free, f);
    UpdateAbortNew(s, t, f, p) by { hide FrameOk, EntryOk, PageOk, FileOk, LoadOk, TaskOk, NewFails; }
    OwnsAbortNew(s, t, f, p) by { hide Creates, NewFails; }
    hide SameContent, EntryOk, PageOk, FileOk, LoadOk, Owns, Updated, Sound, NewFails;
  }

  lemma MendAbortNew(s: System, t: TaskId, f: nat, p: PageId)
    requires Creates(s, t, f, p) && CanFinishNew(s, t) && NewFails(s, t) && f == s.tasks[t].frame && p == s.tasks[t].page
    ensures Mended(DoFinishNew(s, t), t, f, p, p.file)
  {
    AppendFree(s.pool.free, f);
    hide SameContent;
  }

  lemma KeepAbortNew(s: System, t: TaskId, f: nat, p: PageId)
    requires Core(s) && t in s.tasks && CreatorOf(s.tasks[t]) == Some(p.file) && f < |s.pool.frames|
    requires FrameOf(s.tasks[t]) in {None, Some(f)} && CanFinishNew(s, t) && NewFails(s, t) && f == s.tasks[t].frame && p == s.tasks[t].page
    ensures Core(DoFinishNew(s, t))
  {
    CreatesAt(s, t, f, p) by { hide Core; }
    ShapeAbortNew(s, t, f, p) by { hide Core, Creates, Busy; }
    MendAbortNew(s, t, f, p) by { hide Core, Creates, Busy; }
    var s' := DoFinishNew(s, t);
    MoveKeeps(s, s', t, f, p, p.file, Seen(s', f, Gone, Keep, Gone, Keep, Put(s'.pool.files[p.file]))) by {
      hide Core, Shape, Mended, Creates, Busy;
    }
    hide *;
  }

  lemma UpdatePublishNew(s: System, t: TaskId, f: nat, p: PageId)
    requires s.Wf() && CanFinishNew(s, t) && !NewFails(s, t) && f == s.tasks[t].frame < |s.pool.frames| && p == s.tasks[t].page
    ensures var s' := DoFinishNew(s, t);
      p.file in s'.pool.files && s'.Wf() && |s'.pool.frames| == |s.pool.frames| &&
      var u := Seen(s', f, Put(Pinned(f, Exclusive)), Keep, Put(Entry(ResidentEntry, f, None)), Put(s.pool.frames[f].bytes), Put(s'.pool.files[p.file]));
      Sound(s, f, u) && u.free == s.pool.free && s' == Updated(s, t, f, p, p.file, u)
  {}

  lemma OwnsPublishNew(s: System, t: TaskId, f: nat, p: PageId)
    requires Creates(s, t, f, p) && CanFinishNew(s, t) && !NewFails(s, t) && f == s.tasks[t].frame && p == s.tasks[t].page
    ensures Owns(s, DoFinishNew(s, t), t, f, p, p.file)
  {
    hide SameContent, PageOk, LoadOk;
  }

  lemma ShapePublishNew(s: System, t: TaskId, f: nat, p: PageId)
    requires Creates(s, t, f, p) && CanFinishNew(s, t) && !NewFails(s, t) && f == s.tasks[t].frame && p == s.tasks[t].page
    ensures var s' := DoFinishNew(s, t);
      p.file in s'.pool.files && Shape(s, s', t, f, p, p.file, Seen(s', f, Put(Pinned(f, Exclusive)), Keep, Put(Entry(ResidentEntry, f, None)), Put(s.pool.frames[f].bytes), Put(s'.pool.files[p.file])))
  {
    UpdatePublishNew(s, t, f, p) by { hide FrameOk, EntryOk, PageOk, FileOk, LoadOk, TaskOk, NewFails; }
    OwnsPublishNew(s, t, f, p) by { hide Creates, NewFails; }
    hide SameContent, EntryOk, PageOk, FileOk, LoadOk, TaskOk, Owns, Updated, Sound, NewFails;
  }

  lemma PublishedFile(s: System, t: TaskId, f: nat, p: PageId)
    requires Creates(s, t, f, p) && CanFinishNew(s, t) && !NewFails(s, t) && f == s.tasks[t].frame && p == s.tasks[t].page
    ensures p.file in DoFinishNew(s, t).pool.files && FileOk(DoFinishNew(s, t), p.file)
  {
    hide SameContent, PageOk, EntryOk, FrameOk, LoadOk;
  }

  lemma PublishedPage(s: System, t: TaskId, f: nat, p: PageId)
    requires Creates(s, t, f, p) && CanFinishNew(s, t) && !NewFails(s, t) && f == s.tasks[t].frame && p == s.tasks[t].page
    ensures var s' := DoFinishNew(s, t);
      && p in s'.published && p in s'.pool.table && PageOk(s', p) && EntryOk(s', p)
  {
    hide SameContent, LoadOk, FreeOk;
  }

  lemma PublishedFrame(s: System, t: TaskId, f: nat, p: PageId)
    requires Creates(s, t, f, p) && CanFinishNew(s, t) && !NewFails(s, t) && f == s.tasks[t].frame && p == s.tasks[t].page
    ensures var s' := DoFinishNew(s, t);
      && s'.Wf() && f < |s'.pool.frames| && FrameOk(s', f) && s'.holders[f] == None
      && t in s'.tasks && s'.tasks[t] == Pinned(f, Exclusive) && (t in s'.pool.loads ==> LoadOk(s', t))
  {
    hide PageChecksum.Cleared, PageOk, EntryOk, FileOk, FreeOk;
  }

  lemma MendPublishNew(s: System, t: TaskId, f: nat, p: PageId)
    requires Creates(s, t, f, p) && CanFinishNew(s, t) && !NewFails(s, t) && f == s.tasks[t].frame && p == s.tasks[t].page
    ensures Mended(DoFinishNew(s, t), t, f, p, p.file)
  {
    hide Creates, NewFails, DoFinishNew, FrameOk, EntryOk, PageOk, FileOk, LoadOk;
    PublishedFile(s, t, f, p);
    PublishedPage(s, t, f, p);
    PublishedFrame(s, t, f, p);
  }

  lemma KeepPublishNew(s: System, t: TaskId, f: nat, p: PageId)
    requires Core(s) && t in s.tasks && CreatorOf(s.tasks[t]) == Some(p.file) && f < |s.pool.frames|
    requires FrameOf(s.tasks[t]) in {None, Some(f)} && CanFinishNew(s, t) && !NewFails(s, t) && f == s.tasks[t].frame && p == s.tasks[t].page
    ensures Core(DoFinishNew(s, t))
  {
    CreatesAt(s, t, f, p) by { hide Core; }
    ShapePublishNew(s, t, f, p) by { hide Core, Creates, Busy; }
    MendPublishNew(s, t, f, p) by { hide Core, Creates, Busy; }
    var s' := DoFinishNew(s, t);
    MoveKeeps(s, s', t, f, p, p.file, Seen(s', f, Put(Pinned(f, Exclusive)), Keep, Put(Entry(ResidentEntry, f, None)), Put(s.pool.frames[f].bytes), Put(s'.pool.files[p.file]))) by {
      hide Core, Shape, Mended, Creates, Busy;
    }
    hide *;
  }
}
