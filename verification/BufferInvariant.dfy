/** What holds of the buffer pool at every point where its mutex is free. */
module BufferInvariant {
  import opened Basics
  import opened PageChecksum
  import opened BufferState
  import opened BufferSystem

  // ---- Roles of tasks ----

  /** The frame, or the frame's I/O, that a task owns exclusively. */
  function FrameOf(task: Task): Option<nat>
  {
    match task
    case Reserved(_, f, _) => Some(f)
    case Evict(_, f, _, _, _) => Some(f)
    case Owned(_, f) => Some(f)
    case LoadRead(_, _, f, _) => Some(f)
    case Numbered(_, f, _) => Some(f)
    case Build(_, f, _) => Some(f)
    case Copy(_, _, _, f, _) => Some(f)
    case Write(_, _, _, f, _, _, _, _) => Some(f)
    case _ => None
  }

  function WantOf(task: Task): Option<Want>
  {
    match task
    case Acquire(want) => Some(want)
    case Observed(want, _, _) => Some(want)
    case Reserved(want, _, _) => Some(want)
    case Evict(want, _, _, _, _) => Some(want)
    case Owned(want, _) => Some(want)
    case _ => None
  }

  /** The page whose load a task runs. */
  function LoaderOf(task: Task): Option<PageId>
  {
    match WantOf(task)
    case Some(ForLoad(page, _)) => Some(page)
    case _ => if task.LoadRead? then Some(task.page) else None
  }

  /** The file whose new_page_in_progress flag a task owns. */
  function CreatorOf(task: Task): Option<nat>
  {
    match WantOf(task)
    case Some(ForNew(file)) => Some(file)
    case _ =>
      if task.Numbered? then Some(task.file) else if task.Build? then Some(task.page.file) else None
  }

  /** The frame of the pin a task accounts for: it is about to latch, holds, or is about to drop one. */
  function PinOf(loads: map<TaskId, Load>, task: Task): Option<nat>
  {
    match task
    case Pinned(f, _) => Some(f)
    case Guard(f, _, _) => Some(f)
    case Unpin(f) => Some(f)
    case Join(_, _, l) => if l in loads && loads[l].done then loads[l].frame else None
    case _ => None
  }

  function Owners(s: System, f: nat): set<TaskId>
  {
    set t | t in s.tasks && PinOf(s.pool.loads, s.tasks[t]) == Some(f)
  }

  function Joiners(s: System, l: TaskId): set<TaskId>
  {
    set t | t in s.tasks && s.tasks[t].Join? && s.tasks[t].load == l
  }

  // ---- Frames and table entries ----

  predicate Bound(s: System, f: nat, state: EntryState)
    requires f < |s.pool.frames|
  {
    var page := s.pool.frames[f].page;
    page in s.pool.table && s.pool.table[page].frame == f && s.pool.table[page].state == state
  }

  ghost predicate Shows(s: System, f: nat)
    requires f < |s.pool.frames|
  {
    var frame := s.pool.frames[f];
    frame.page in s.published && SameContent(frame.bytes, s.published[frame.page])
  }

  /** The table of legal state and I/O combinations, and what each promises. */
  ghost predicate FrameOk(s: System, f: nat)
    requires s.Wf() && f < |s.pool.frames|
  {
    var frame := s.pool.frames[f];
    && (frame.latch.writer.Some? ==> frame.latch.readers == {})
    && (frame.state != Resident ==> frame.pins == 0 && frame.latch.Unused())
    && (frame.io == Writing ==> frame.dirty)
    && match frame.state
       case Free =>
         frame.io == Idle && !frame.dirty && frame.page == NO_PAGE && ((f in s.pool.free) <==> s.holders[f] == None)
       case Loading =>
         && Bound(s, f, LoadingEntry) && !frame.dirty && s.holders[f].Some?
         && frame.io == if s.pool.table[frame.page].load.Some? then Reading else Idle
       case Resident =>
         && Bound(s, f, ResidentEntry) && frame.io != Reading && (frame.io == Writing <==> s.holders[f].Some?)
         && frame.page in s.published && (frame.latch.writer == None ==> Shows(s, f))
       case Evicting =>
         Bound(s, f, EvictingEntry) && frame.io != Reading && s.holders[f].Some? && Shows(s, f)
  }

  predicate EntryOk(s: System, page: PageId)
    requires page in s.pool.table
  {
    var entry := s.pool.table[page];
    && page.file in s.pool.files
    && (page.no < s.pool.files[page.file].bound || (entry.state == LoadingEntry && entry.load == None))
    && (entry.load.Some? ==>
          entry.load.value in s.tasks && LoaderOf(s.tasks[entry.load.value]) == Some(page))
    && match entry.state
       case IntentEntry => entry.load.Some? && WantOf(s.tasks[entry.load.value]).Some?
       case LoadingEntry => OnFrame(s, entry.frame, page, Loading) && (entry.load.Some? ==> s.tasks[entry.load.value].LoadRead?)
       case ResidentEntry => OnFrame(s, entry.frame, page, Resident) && entry.load == None
       case EvictingEntry => OnFrame(s, entry.frame, page, Evicting) && entry.load == None
  }

  predicate OnFrame(s: System, f: nat, page: PageId, state: FrameState)
  {
    f < |s.pool.frames| && s.pool.frames[f].page == page && s.pool.frames[f].state == state
  }

  // ---- Tasks ----

  predicate Holds(s: System, t: TaskId, f: nat)
  {
    f < |s.holders| && s.holders[f] == Some(t)
  }

  predicate LoadOpen(s: System, t: TaskId)
  {
    t in s.pool.loads && !s.pool.loads[t].done
  }

  predicate CreatorIs(s: System, t: TaskId, file: nat)
  {
    file in s.pool.files && s.pool.files[file].creator == Some(t)
  }

  predicate WantOk(s: System, t: TaskId, want: Want)
  {
    match want
    case ForLoad(page, _) =>
      page in s.pool.table && s.pool.table[page] == Entry(IntentEntry, 0, Some(t)) && LoadOpen(s, t)
      && page in s.published
    case ForNew(file) => CreatorIs(s, t, file)
  }

  /** What the disk holds of an image under transfer. */
  predicate ProgressOk(s: System, page: PageId, image: Image, progress: Progress)
  {
    && page in s.disk.volatile
    && (progress in {Written, Synced} ==> s.disk.volatile[page] == image)
    && (progress == Synced ==>
          page in s.disk.durable && s.disk.durable[page] == image && page !in s.unsynced)
  }

  /** Every dirty page a flush must clean is still on its list, unless it has failed. */
  ghost predicate Listed(s: System, only: Option<nat>, pages: seq<PageId>, failed: bool)
  {
    failed || forall page :: Matches(s.pool, only, page) ==> page in pages
  }

  predicate RetirerIs(s: System, t: TaskId, file: nat)
  {
    file in s.pool.files && s.pool.files[file].state == Retiring && s.pool.files[file].retirer == Some(t)
  }

  ghost predicate JobOk(s: System, t: TaskId, job: Job, pages: seq<PageId>, failed: bool)
  {
    match job
    case Flushing => true
    case RetiringFile(file) =>
      RetirerIs(s, t, file) && Drained(s.pool, file) && Listed(s, Some(file), pages, failed)
    case ShuttingDown =>
      s.pool.quiescing && AllDrained(s.pool) && Listed(s, None, pages, failed)
  }

  /** A writeback keeps its residency: page, epoch and dirtiness are those it started with. */
  predicate WritingBack(s: System, t: TaskId, pages: seq<PageId>, f: nat, epoch: nat)
  {
    && |pages| > 0 && Holds(s, t, f) && OnFrame(s, f, pages[0], Resident)
    && s.pool.frames[f].io == Writing && s.pool.frames[f].dirty && s.pool.frames[f].epoch == epoch
  }

  ghost predicate TaskOk(s: System, t: TaskId)
    requires s.Wf() && t in s.tasks
  {
    match s.tasks[t]
    case Fetch(_, _) => t !in s.pool.loads
    case Join(_, _, l) => l in s.pool.loads
    case Acquire(want) => WantOk(s, t, want)
    case Observed(want, _, _) => WantOk(s, t, want)
    case Reserved(want, f, victim) =>
      WantOk(s, t, want) && Holds(s, t, f) && OnFrame(s, f, victim, Evicting) && s.pool.frames[f].io == Idle
    case Evict(want, f, victim, image, progress) =>
      && WantOk(s, t, want) && Holds(s, t, f) && OnFrame(s, f, victim, Evicting) && s.pool.frames[f].io == Writing
      && victim in s.published && SameContent(image, s.published[victim]) && ProgressOk(s, victim, image, progress)
    case Owned(want, f) => WantOk(s, t, want) && Holds(s, t, f) && OnFrame(s, f, NO_PAGE, Free)
    case LoadRead(page, _, f, verdict) =>
      && Holds(s, t, f) && OnFrame(s, f, page, Loading) && LoadOpen(s, t) && page in s.published
      && page in s.pool.table && s.pool.table[page] == Entry(LoadingEntry, f, Some(t))
      && (verdict == Some(Valid) ==> SameContent(s.pool.frames[f].bytes, s.published[page]))
    case Pinned(f, _) => f < |s.pool.frames|
    case Guard(f, mode, mutated) =>
      && f < |s.pool.frames|
      && (mode == Shared ==> t in s.pool.frames[f].latch.readers && !mutated)
      && (mode == Exclusive ==> s.pool.frames[f].latch.writer == Some(t))
      && (!mutated ==> Shows(s, f))
    case Unpin(f) => f < |s.pool.frames|
    case NewWait(_) => true
    case Numbered(file, f, no) =>
      && CreatorIs(s, t, file) && Holds(s, t, f) && OnFrame(s, f, NO_PAGE, Free)
      && no == s.pool.files[file].bound && PageId(file, no) in s.disk.volatile
    case Build(page, f, _) =>
      && CreatorIs(s, t, page.file) && Holds(s, t, f) && OnFrame(s, f, page, Loading)
      && page in s.pool.table && s.pool.table[page] == Entry(LoadingEntry, f, None)
      && 0 < page.no == s.pool.files[page.file].bound && page in s.disk.volatile
    case Flush(job, pages, failed) => JobOk(s, t, job, pages, failed)
    case Copy(job, pages, failed, f, epoch) =>
      JobOk(s, t, job, pages, failed) && WritingBack(s, t, pages, f, epoch)
    case Write(job, pages, failed, f, epoch, generation, image, progress) =>
      && JobOk(s, t, job, pages, failed) && WritingBack(s, t, pages, f, epoch)
      && generation <= s.pool.frames[f].generation
      && (generation == s.pool.frames[f].generation ==>
            pages[0] in s.published && SameContent(image, s.published[pages[0]]))
      && ProgressOk(s, pages[0], image, progress)
    case Drain(file, _) => RetirerIs(s, t, file)
    case DrainAll => s.pool.quiescing
    case Register(file, count) => count <= CountOf(s.disk, file)
  }

  predicate LoadOk(s: System, l: TaskId)
    requires l in s.pool.loads
  {
    var load := s.pool.loads[l];
    && 1 <= load.claims <= s.pool.maxPins
    && (load.frame.Some? ==> load.done && load.frame.value < |s.pool.frames|)
    && (!load.done ==> l in s.tasks && LoaderOf(s.tasks[l]).Some?)
  }

  predicate FileOk(s: System, file: nat)
    requires file in s.pool.files
  {
    var entry := s.pool.files[file];
    && file != 0 && entry.bound <= CountOf(s.disk, file)
    && (entry.creator.Some? ==> entry.creator.value in s.tasks && CreatorOf(s.tasks[entry.creator.value]) == Some(file))
    && forall no :: 1 <= no < entry.bound ==> PageId(file, no) in s.published
  }

  // ---- The abstract map and the disk ----

  /** The page's latest bytes are in a frame and not yet on disk. */
  predicate DirtyInPool(p: Pool, page: PageId)
  {
    && page in p.table && p.table[page].state in {ResidentEntry, EvictingEntry}
    && p.table[page].frame < |p.frames| && p.frames[p.table[page].frame].dirty
  }

  /** The disk holds the last published image, synced unless the page was adopted unsynced. */
  ghost predicate Settled(s: System, page: PageId)
    requires page in s.published
  {
    && page in s.disk.volatile && SameContent(s.disk.volatile[page], s.published[page])
    && (page in s.unsynced || (page in s.disk.durable && SameContent(s.disk.durable[page], s.published[page])))
  }

  ghost predicate PageOk(s: System, page: PageId)
    requires page in s.published
  {
    page.file != 0 && 1 <= page.no && page in s.disk.volatile && (DirtyInPool(s.pool, page) || Settled(s, page))
  }

  predicate DiskOk(d: Disk)
  {
    && (forall page :: page in d.volatile ==> page.file in d.count && page.no < d.count[page.file])
    && (forall file, no :: file in d.count && 0 <= no < d.count[file] ==> PageId(file, no) in d.volatile)
  }

  predicate FreeOk(s: System)
    requires s.Wf()
  {
    && Distinct(s.pool.free)
    && forall f :: f in s.pool.free ==> f < |s.pool.frames| && s.pool.frames[f].state == Free && s.holders[f] == None
  }

  predicate HoldersOk(s: System)
    requires s.Wf()
  {
    forall f :: 0 <= f < |s.holders| && s.holders[f].Some? ==>
      s.holders[f].value in s.tasks && FrameOf(s.tasks[s.holders[f].value]) == Some(f)
  }

  predicate ClosedOk(s: System)
  {
    s.closed ==>
      && s.pool.quiescing && AllDrained(s.pool)
      && forall f :: 0 <= f < |s.pool.frames| ==> !s.pool.frames[f].dirty
  }

  /** Everything but the tasks' own assertions. */
  ghost predicate StateOk(s: System)
  {
    && s.Wf()
    && (forall f :: 0 <= f < |s.pool.frames| ==> FrameOk(s, f))
    && (forall page :: page in s.pool.table ==> EntryOk(s, page))
    && (forall l :: l in s.pool.loads ==> LoadOk(s, l))
    && (forall file :: file in s.pool.files ==> FileOk(s, file))
    && (forall page :: page in s.published ==> PageOk(s, page))
    && DiskOk(s.disk) && FreeOk(s) && HoldersOk(s) && ClosedOk(s)
  }

  ghost predicate Core(s: System)
  {
    StateOk(s) && forall t :: t in s.tasks ==> TaskOk(s, t)
  }

  predicate PinsOk(s: System)
  {
    && (forall f :: 0 <= f < |s.pool.frames| ==> s.pool.frames[f].pins == |Owners(s, f)| <= s.pool.maxPins)
    && (forall l :: l in s.pool.loads && !s.pool.loads[l].done ==> s.pool.loads[l].claims == 1 + |Joiners(s, l)|)
  }

  /** Every latch is held by live guards of its frame. */
  ghost predicate LatchesOk(s: System)
  {
    forall f, u :: 0 <= f < |s.pool.frames| && (u in s.pool.frames[f].latch.readers || s.pool.frames[f].latch.writer == Some(u)) ==>
      u in s.tasks && s.tasks[u].Guard? && s.tasks[u].frame == f
  }

  ghost predicate Inv(s: System) { Core(s) && PinsOk(s) && LatchesOk(s) }

  // ---- One instance at a time ----

  lemma FrameAt(s: System, f: nat)
    requires StateOk(s) && f < |s.pool.frames|
    ensures FrameOk(s, f)
  {}

  lemma EntryAt(s: System, page: PageId)
    requires StateOk(s) && page in s.pool.table
    ensures EntryOk(s, page)
  {}

  lemma LoadAt(s: System, l: TaskId)
    requires StateOk(s) && l in s.pool.loads
    ensures LoadOk(s, l)
  {}

  lemma FileAt(s: System, file: nat)
    requires StateOk(s) && file in s.pool.files
    ensures FileOk(s, file)
  {}

  lemma PageAt(s: System, page: PageId)
    requires StateOk(s) && page in s.published
    ensures PageOk(s, page)
  {}

  lemma TaskAt(s: System, t: TaskId)
    requires Core(s) && t in s.tasks
    ensures TaskOk(s, t) && StateOk(s)
  {
    hide StateOk;
  }

  lemma HolderAt(s: System, f: nat)
    requires StateOk(s) && f < |s.holders| && s.holders[f].Some?
    ensures s.holders[f].value in s.tasks && FrameOf(s.tasks[s.holders[f].value]) == Some(f)
  {}
}
