/**
 * Whole critical sections of AcquireFrame, LoadPage, NewPage and WritebackResident as the class runs
 * them: in every state the machine can be in, they leave what the machine's step leaves.
 */
module BufferSections {
  import opened Basics
  import opened PageChecksum
  import opened ClockReplacement
  import opened BufferState
  import opened BufferSystem
  import opened BufferInvariant
  import opened BufferPins
  import opened BufferPreservation
  import opened BufferTheorems
  import opened BufferPools

  /** What the call does next; None if it returns. */
  function Next(s: System, t: TaskId): Option<Task> { if t in s.tasks then Some(s.tasks[t]) else None }

  /** The class is about to take a step of the machine. */
  ghost predicate Mirrors(pool: BufferPool, s: System)
    reads pool, pool.frames, pool.clock, pool.clock.referenced
  {
    pool.Valid() && s.Wf() && Inv(s) && pool.View() == s.pool
  }

  // ---- What the invariant says at each section ----

  lemma AtSearch(s: System, t: TaskId)
    requires s.Wf() && Inv(s) && CanSearch(s, t)
    ensures forall f :: f in s.pool.free ==> f < |s.pool.frames|
    ensures match s.tasks[t].want
      case ForLoad(_, _) => t in s.pool.loads
      case ForNew(file) => file in s.pool.files
  {
    FreeListIsDistinct(s) by { hide Inv; }
    TaskKnown(s, t) by { hide Inv; }
    hide Inv, Core, LoadOk, Distinct;
  }

  lemma AtEviction(s: System, t: TaskId)
    requires s.Wf() && Inv(s) && t in s.tasks && (s.tasks[t].Reserved? || s.tasks[t].Evict?)
    ensures s.tasks[t].frame < |s.pool.frames|
    ensures match s.tasks[t].want
      case ForLoad(_, _) => t in s.pool.loads
      case ForNew(file) => file in s.pool.files
  {
    TaskKnown(s, t) by { hide Inv; }
    hide Inv, Core, LoadOk, FrameOk, SameContent, ProgressOk;
  }

  lemma AtLoad(s: System, t: TaskId)
    requires s.Wf() && Inv(s) && CanFinishLoad(s, t)
    ensures s.tasks[t].frame < |s.pool.frames| && t in s.pool.loads && s.tasks[t].page.file in s.pool.files
  {
    TaskKnown(s, t) by { hide Inv; }
    assert s.tasks[t].page in s.pool.table && s.tasks[t].frame < |s.pool.frames| && t in s.pool.loads by {
      hide Inv, Core, LoadOk, FrameOk, SameContent;
    }
    InvParts(s) by { hide Inv; }
    EntryAt(s, s.tasks[t].page) by { hide Inv, Knows, TaskOk, PinsOk, LatchesOk; }
    hide Inv, Core, Knows, PinsOk, LatchesOk;
  }

  lemma AtCreation(s: System, t: TaskId)
    requires s.Wf() && Inv(s) && (CanBindPage(s, t) || CanFinishNew(s, t))
    ensures s.tasks[t].frame < |s.pool.frames|
    ensures (if s.tasks[t].Numbered? then s.tasks[t].file else s.tasks[t].page.file) in s.pool.files
  {
    TaskKnown(s, t) by { hide Inv; }
    hide Inv, Core, LoadOk, FrameOk;
  }

  lemma AtWriteback(s: System, t: TaskId)
    requires s.Wf() && Inv(s) && CanFinishWrite(s, t)
    ensures s.tasks[t].frame < |s.pool.frames|
  {
    TaskKnown(s, t) by { hide Inv; }
    hide Inv, Core, LoadOk, FrameOk, SameContent, ProgressOk, JobOk;
  }

  // ---- AcquireFrame ----

  /** The caller gives up: LoadPage's fail, or NewPage's finish. */
  method AbandonWant(pool: BufferPool, t: TaskId, want: Want)
    requires pool.Valid()
    requires match want
      case ForLoad(_, _) => t in pool.loads
      case ForNew(file) => file in pool.files
    modifies pool
    ensures pool.Valid()
    ensures pool.View() == match want
      case ForLoad(page, _) => FailLoad(old(pool.View()), t, page)
      case ForNew(file) => SetCreator(old(pool.View()), file, None)
  {
    match want {
      case ForLoad(page, _) => pool.FailLoadOperation(t, page);
      case ForNew(file) => pool.files := pool.files[file := pool.files[file].(creator := None)];
    }
  }

  /** The loop body: a free frame, else a reserved victim, else NO_REPLACEABLE_FRAME. */
  method SearchFrame(pool: BufferPool, ghost s: System, t: TaskId, want: Want) returns (next: Option<Task>)
    requires Mirrors(pool, s) && CanSearch(s, t) && s.tasks[t].want == want
    modifies pool, pool.frames, pool.clock, pool.clock.referenced
    ensures pool.Valid() && pool.View() == DoSearch(s, t).pool && next == Next(DoSearch(s, t), t)
  {
    AtSearch(s, t) by { hide Inv; }
    hide Inv, Find, Eligible;
    if |pool.free| > 0 {
      assert s.pool.free[|s.pool.free| - 1] in s.pool.free;
      var f := pool.TakeFreeFrame();
      return Some(Owned(want, f));
    }
    FindSound(s.pool.clock, Eligibility(s.pool));
    var candidate := pool.FindVictim();
    if candidate == None {
      AbandonWant(pool, t, want);
      return None;
    }
    var victim := pool.frames[candidate.value].page;
    pool.ReserveFrame(candidate.value);
    return Some(Reserved(want, candidate.value, victim));
  }

  /** After VICTIM_RESERVED: a clean victim is evicted at once, a dirty one is copied for its writeback. */
  method BeginEviction(pool: BufferPool, ghost s: System, t: TaskId, want: Want, f: nat, victim: PageId) returns (next: Option<Task>)
    requires Mirrors(pool, s) && CanBeginEvict(s, t) && s.tasks[t] == Reserved(want, f, victim)
    modifies pool, pool.frames, pool.clock.referenced
    ensures pool.Valid() && pool.View() == DoBeginEvict(s, t).pool && next == Next(DoBeginEvict(s, t), t)
  {
    AtEviction(s, t) by { hide Inv; }
    hide Inv, Finalized;
    if pool.frames[f].dirty {
      var image := Finalized(pool.frames[f].bytes);
      pool.frames[f] := pool.frames[f].(io := Writing);
      return Some(Evict(want, f, victim, image, Pending));
    }
    pool.EvictFrame(f);
    return Some(Owned(want, f));
  }

  /** After the writeback: evicted, or restored as a pinnable dirty page while the request fails. */
  method EndEviction(pool: BufferPool, ghost s: System, t: TaskId, want: Want, f: nat, written: bool) returns (next: Option<Task>)
    requires Mirrors(pool, s) && CanFinishEvict(s, t)
    requires s.tasks[t].want == want && s.tasks[t].frame == f && written == (s.tasks[t].progress == Synced)
    modifies pool, pool.frames, pool.clock.referenced
    ensures pool.Valid() && pool.View() == DoFinishEvict(s, t).pool && next == Next(DoFinishEvict(s, t), t)
  {
    AtEviction(s, t) by { hide Inv; }
    hide Inv;
    if !written {
      pool.RestoreFrame(f);
      AbandonWant(pool, t, want);
      return None;
    }
    pool.EvictFrame(f);
    return Some(Owned(want, f));
  }

  // ---- LoadPage ----

  /** After the read: all joiners get the page or the error. */
  method EndLoad(pool: BufferPool, ghost s: System, t: TaskId, page: PageId, mode: Mode, f: nat, verdict: Verdict) returns (next: Option<Task>)
    requires Mirrors(pool, s) && CanFinishLoad(s, t) && s.tasks[t] == LoadRead(page, mode, f, Some(verdict))
    modifies pool, pool.frames, pool.clock.referenced
    ensures pool.Valid() && pool.View() == DoFinishLoad(s, t).pool && next == Next(DoFinishLoad(s, t), t)
  {
    AtLoad(s, t) by { hide Inv; }
    hide Inv;
    if verdict != Valid || pool.files[page.file].state != Active {
      pool.Reset(f);
      pool.Release(f);
      pool.FailLoadOperation(t, page);
      return None;
    }
    pool.PublishLoadOperation(t, page, f);
    return Some(Pinned(f, mode));
  }

  // ---- NewPage ----

  /** With the number in hand: the wrong number gives the frame back, the right one is bound privately. */
  method BindNumber(pool: BufferPool, ghost s: System, t: TaskId, file: nat, f: nat, no: nat) returns (next: Option<Task>)
    requires Mirrors(pool, s) && CanBindPage(s, t) && s.tasks[t] == Numbered(file, f, no)
    modifies pool, pool.frames
    ensures pool.Valid() && pool.View() == DoBindPage(s, t).pool && next == Next(DoBindPage(s, t), t)
  {
    AtCreation(s, t) by { hide Inv; }
    hide Inv;
    if no == 0 || no != pool.files[file].bound {
      pool.Release(f);
      AbandonWant(pool, t, ForNew(file));
      return None;
    }
    pool.BindConstruction(PageId(file, no), f);
    return Some(Build(PageId(file, no), f, None));
  }

  /** After the initializer: the bound and the resident frame are published together, or nothing is. */
  method EndCreation(pool: BufferPool, ghost s: System, t: TaskId, page: PageId, f: nat, built: bool) returns (next: Option<Task>)
    requires Mirrors(pool, s) && CanFinishNew(s, t) && s.tasks[t] == Build(page, f, Some(built))
    modifies pool, pool.frames, pool.clock.referenced
    ensures pool.Valid() && pool.View() == DoFinishNew(s, t).pool && next == Next(DoFinishNew(s, t), t)
  {
    AtCreation(s, t) by { hide Inv; }
    hide Inv;
    if !built || pool.files[page.file].state != Active {
      pool.AbortConstruction(page, f);
      AbandonWant(pool, t, ForNew(page.file));
      return None;
    }
    pool.PublishConstruction(page, f);
    AbandonWant(pool, t, ForNew(page.file));
    return Some(Pinned(f, Exclusive));
  }

  // ---- WritebackResident ----

  method EndWriteback(pool: BufferPool, ghost s: System, t: TaskId, f: nat, page: PageId, epoch: nat, generation: nat, written: bool)
    requires Mirrors(pool, s) && CanFinishWrite(s, t)
    requires var Write(_, pages, _, g, e, n, _, progress) := s.tasks[t];
      f == g && page == pages[0] && epoch == e && generation == n && written == (progress == Synced)
    modifies pool.frames
    ensures pool.Valid() && pool.View() == DoFinishWrite(s, t).pool
  {
    AtWriteback(s, t) by { hide Inv; }
    hide Inv;
    pool.ReconcileWriteback(f, written, page, epoch, generation);
  }
}
