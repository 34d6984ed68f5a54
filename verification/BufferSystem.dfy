/**
 * The buffer pool as a concurrent system: calls in flight and live guards (tasks), a disk that can
 * fail, and one label for every critical section, disk transfer and guard operation. Every point
 * where the source releases its mutex ends a step.
 */
module BufferSystem {
  import opened Basics
  import opened Bytes
  import opened PageChecksum
  import opened ClockReplacement
  import opened BufferState

  datatype Mode = Shared | Exclusive

  /** What AcquireFrame was called for. */
  datatype Want = ForLoad(page: PageId, mode: Mode) | ForNew(file: nat)

  /** What FlushMatching or FlushPage was called for. */
  datatype Job = Flushing | RetiringFile(file: nat) | ShuttingDown

  /** Where the transfer of a private image stands. */
  datatype Progress = Pending | Written | Synced | Failed

  datatype Verdict = Valid | Corrupt | Unsupported | ReadFailed

  /** A call in flight, at one of the points where it does not hold the mutex, or a live guard. */
  datatype Task =
    | Fetch(page: PageId, mode: Mode)
    | Join(page: PageId, mode: Mode, load: TaskId)
    | Acquire(want: Want)
    | Observed(want: Want, candidate: nat, victim: PageId)
    | Reserved(want: Want, frame: nat, victim: PageId)
    | Evict(want: Want, frame: nat, victim: PageId, image: Image, progress: Progress)
    | Owned(want: Want, frame: nat)
    | LoadRead(page: PageId, mode: Mode, frame: nat, verdict: Option<Verdict>)
    | Pinned(frame: nat, mode: Mode)
    | Guard(frame: nat, mode: Mode, mutated: bool)
    | Unpin(frame: nat)
    | NewWait(file: nat)
    | Numbered(file: nat, frame: nat, no: nat)
    | Build(page: PageId, frame: nat, built: Option<bool>)
    | Flush(job: Job, pages: seq<PageId>, failed: bool)
    | Copy(job: Job, pages: seq<PageId>, failed: bool, frame: nat, epoch: nat)
    | Write(job: Job, pages: seq<PageId>, failed: bool, frame: nat, epoch: nat,
            generation: nat, image: Image, progress: Progress)
    | Drain(file: nat, discard: bool)
    | DrainAll
    | Register(file: nat, count: nat)

  /** What the operating system holds, and what survives a crash. */
  datatype Disk = Disk(volatile: map<PageId, Image>, durable: map<PageId, Image>, count: map<nat, nat>)

  /**
   * `holders` (auxiliary) names the task that owns each frame or its I/O. `published` (auxiliary)
   * is the abstract map: the last published image of every published page. `unsynced` (auxiliary)
   * holds the pages whose image at registration has not been covered by a successful sync since.
   * `closed` (auxiliary) records that Shutdown has succeeded.
   */
  datatype System = System(
    pool: Pool,
    tasks: map<TaskId, Task>,
    holders: seq<Option<TaskId>>,
    disk: Disk,
    published: map<PageId, Image>,
    unsynced: set<PageId>,
    closed: bool)
  {
    function At(t: TaskId, task: Task): System { this.(tasks := tasks[t := task]) }

    function End(t: TaskId): System { this.(tasks := tasks - {t}) }

    function Hold(f: nat, holder: Option<TaskId>): System
      requires f < |holders|
    {
      this.(holders := holders[f := holder])
    }

    predicate Wf() { pool.Wf() && |holders| == |pool.frames| }
  }

  /** A call begins. */
  datatype Start =
    | StartFetch(t: TaskId, page: PageId, mode: Mode)
    | StartNew(t: TaskId, file: nat)
    | StartFlushPage(t: TaskId, page: PageId)
    | StartFlush(t: TaskId, only: Option<nat>, pages: seq<PageId>)
    | StartRetire(t: TaskId, file: nat, discard: bool)
    | StartShutdown(t: TaskId)
    | StartRegister(t: TaskId, file: nat)

  /** PinPage, LoadPage and RegisterFile. */
  datatype Fetching =
    | FinishRegister(t: TaskId)
    | Examine(t: TaskId)
    | Wake(t: TaskId)
    | Bind(t: TaskId)
    | ReadPage(t: TaskId, verdict: Verdict, bytes: Image)
    | FinishLoad(t: TaskId)

  /** AcquireFrame. */
  datatype Replacing =
    | Search(t: TaskId)
    | Observe(t: TaskId)
    | Recheck(t: TaskId)
    | BeginEvict(t: TaskId)
    | FinishEvict(t: TaskId)

  /** NewPage. */
  datatype Creating =
    | TakeTurn(t: TaskId)
    | Number(t: TaskId, ok: bool)
    | BindPage(t: TaskId)
    | Construct(t: TaskId, built: bool, bytes: Image)
    | FinishNew(t: TaskId)

  /** MakeGuard and the life of a guard. */
  datatype Guarding =
    | TakeLatch(t: TaskId)
    | Mutate(t: TaskId, bytes: Image)
    | MarkDirty(t: TaskId)
    | ReleaseLatch(t: TaskId)
    | ReleasePin(t: TaskId)

  /** FlushPage, FlushMatching, RetireFile and Shutdown. */
  datatype Cleaning =
    | FlushNext(t: TaskId)
    | CopyImage(t: TaskId)
    | FinishWrite(t: TaskId)
    | FinishDrain(t: TaskId, pages: seq<PageId>)
    | DiscardDrained(t: TaskId, freed: seq<nat>)
    | FinishDrainAll(t: TaskId, pages: seq<PageId>)
    | FinishFlush(t: TaskId, freed: seq<nat>)

  /** The disk. */
  datatype DiskStep =
    | Tear(t: TaskId, bytes: Image)
    | WriteDone(t: TaskId)
    | SyncDone(t: TaskId)
    | IoFails(t: TaskId)
    | Flushed(page: PageId)

  /** A step: which task takes it, and every choice the environment makes. */
  datatype Label =
    | Starts(start: Start)
    | Fetches(fetch: Fetching)
    | Replaces(replace: Replacing)
    | Creates(create: Creating)
    | Guards(guarding: Guarding)
    | Cleans(clean: Cleaning)
    | Disks(transfer: DiskStep)

  // ---- Helpers ----

  predicate Fresh(s: System, t: TaskId) { t !in s.tasks && t !in s.pool.loads }

  /** The page number a common page header stores (bytes 24..31). */
  function HeaderPageNo(bytes: Image): nat { Read(bytes, 24, 8) }

  /** The identity checks of ValidateLoadedPage; the owner validator's verdict is a free choice. */
  function LoadVerdict(page: PageId, bytes: Image, verdict: Verdict): Verdict
  {
    if !Verifies(bytes) || HeaderPageNo(bytes) != page.no then Corrupt else verdict
  }

  /** The page whose private image a task is writing, and how far it got. */
  function WriterPage(task: Task): Option<PageId>
  {
    match task
    case Evict(_, _, victim, _, _) => Some(victim)
    case Write(_, pages, _, _, _, _, _, _) => if |pages| > 0 then Some(pages[0]) else None
    case _ => None
  }

  predicate Transfers(s: System, t: TaskId, progress: Progress)
  {
    && t in s.tasks && (s.tasks[t].Evict? || s.tasks[t].Write?)
    && WriterPage(s.tasks[t]).Some? && s.tasks[t].progress == progress
  }

  function Advance(task: Task, progress: Progress): (r: Task)
  {
    match task
    case Evict(want, f, victim, image, _) => Evict(want, f, victim, image, progress)
    case Write(job, pages, failed, f, epoch, generation, image, _) =>
      Write(job, pages, failed, f, epoch, generation, image, progress)
    case _ => task
  }

  /** The private image a task is writing. */
  function WriterImage(task: Task): Image
  {
    match task
    case Evict(_, _, _, image, _) => image
    case Write(_, _, _, _, _, _, image, _) => image
    case _ => ZERO_PAGE
  }

  ghost predicate Enumerates(pages: seq<PageId>, p: Pool, only: Option<nat>)
  {
    Distinct(pages) && forall page :: page in pages <==> Matches(p, only, page)
  }

  ghost predicate EnumeratesFrames(freed: seq<nat>, p: Pool, file: nat)
  {
    Distinct(freed) && forall f :: f in freed <==> f in FileFrames(p, file)
  }

  function CountOf(d: Disk, file: nat): nat { if file in d.count then d.count[file] else 0 }

  predicate LatchFree(latch: Latch, mode: Mode)
  {
    latch.writer == None && (mode == Exclusive ==> latch.readers == {})
  }

  /** The pages of `file` that registration adopts at their current disk image. */
  function Adopted(s: System, file: nat, count: nat): map<PageId, Image>
  {
    map page | page in s.disk.volatile && page.file == file && 1 <= page.no < count && page !in s.published
      :: s.disk.volatile[page]
  }

  // ---- What a step may do ----

  ghost predicate StartsEnabled(s: System, step: Start)
    requires s.Wf()
  {
    match step
    case StartFetch(t, _, _) => Fresh(s, t)
    case StartNew(t, _) => Fresh(s, t)
    case StartFlushPage(t, _) => Fresh(s, t)
    case StartFlush(t, only, pages) => Fresh(s, t) && Enumerates(pages, s.pool, only)
    case StartRetire(t, file, _) => CanStartRetire(s, t, file)
    case StartShutdown(t) => Fresh(s, t)
    case StartRegister(t, file) => Fresh(s, t) && file in s.disk.count
  }

  ghost predicate FetchesEnabled(s: System, step: Fetching)
    requires s.Wf()
  {
    match step
    case FinishRegister(t) => CanFinishRegister(s, t)
    case Examine(t) => CanExamine(s, t)
    case Wake(t) => CanWake(s, t)
    case Bind(t) => CanBind(s, t)
    case ReadPage(t, verdict, _) => CanReadPage(s, t, verdict)
    case FinishLoad(t) => CanFinishLoad(s, t)
  }

  ghost predicate ReplacesEnabled(s: System, step: Replacing)
    requires s.Wf()
  {
    match step
    case Search(t) => CanSearch(s, t)
    case Observe(t) => CanObserve(s, t)
    case Recheck(t) => CanRecheck(s, t)
    case BeginEvict(t) => CanBeginEvict(s, t)
    case FinishEvict(t) => CanFinishEvict(s, t)
  }

  ghost predicate CreatesEnabled(s: System, step: Creating)
    requires s.Wf()
  {
    match step
    case TakeTurn(t) => CanTakeTurn(s, t)
    case Number(t, _) => CanNumber(s, t)
    case BindPage(t) => CanBindPage(s, t)
    case Construct(t, built, bytes) => CanConstruct(s, t, built, bytes)
    case FinishNew(t) => CanFinishNew(s, t)
  }

  ghost predicate GuardsEnabled(s: System, step: Guarding)
    requires s.Wf()
  {
    match step
    case TakeLatch(t) => CanTakeLatch(s, t)
    case Mutate(t, _) => CanMutate(s, t)
    case MarkDirty(t) => CanMutate(s, t)
    case ReleaseLatch(t) => CanReleaseLatch(s, t)
    case ReleasePin(t) => CanReleasePin(s, t)
  }

  ghost predicate CleansEnabled(s: System, step: Cleaning)
    requires s.Wf()
  {
    match step
    case FlushNext(t) => CanFlushNext(s, t)
    case CopyImage(t) => CanCopyImage(s, t)
    case FinishWrite(t) => CanFinishWrite(s, t)
    case FinishDrain(t, pages) => CanFinishDrain(s, t, pages)
    case DiscardDrained(t, freed) => CanDiscard(s, t, freed)
    case FinishDrainAll(t, pages) => CanFinishDrainAll(s, t, pages)
    case FinishFlush(t, freed) => CanFinishFlush(s, t, freed)
  }

  ghost predicate DisksEnabled(s: System, step: DiskStep)
    requires s.Wf()
  {
    match step
    case Tear(t, _) => Transfers(s, t, Pending)
    case WriteDone(t) => Transfers(s, t, Pending)
    case SyncDone(t) => Transfers(s, t, Written)
    case IoFails(t) => Transfers(s, t, Pending) || Transfers(s, t, Written)
    case Flushed(page) => page in s.disk.volatile
  }

  ghost predicate Enabled(s: System, l: Label)
    requires s.Wf()
  {
    match l
    case Starts(step) => StartsEnabled(s, step)
    case Fetches(step) => FetchesEnabled(s, step)
    case Replaces(step) => ReplacesEnabled(s, step)
    case Creates(step) => CreatesEnabled(s, step)
    case Guards(step) => GuardsEnabled(s, step)
    case Cleans(step) => CleansEnabled(s, step)
    case Disks(step) => DisksEnabled(s, step)
  }

  /** Two RetireFile calls on one file at a time are outside the contract. */
  predicate CanStartRetire(s: System, t: TaskId, file: nat)
  {
    Fresh(s, t) && file in s.pool.files && s.pool.files[file].retirer == None
  }

  predicate CanFinishRegister(s: System, t: TaskId) { t in s.tasks && s.tasks[t].Register? }

  predicate CanExamine(s: System, t: TaskId) { t in s.tasks && s.tasks[t].Fetch? }

  predicate CanWake(s: System, t: TaskId)
  {
    && t in s.tasks && s.tasks[t].Join?
    && s.tasks[t].load in s.pool.loads && s.pool.loads[s.tasks[t].load].done
  }

  predicate CanSearch(s: System, t: TaskId) { t in s.tasks && s.tasks[t].Acquire? }

  predicate CanObserve(s: System, t: TaskId)
    requires s.Wf()
  {
    && t in s.tasks && s.tasks[t].Acquire? && |s.pool.free| == 0
    && Find(s.pool.clock, Eligibility(s.pool)).candidate.Some?
  }

  predicate CanRecheck(s: System, t: TaskId) { t in s.tasks && s.tasks[t].Observed? }

  predicate CanBeginEvict(s: System, t: TaskId) { t in s.tasks && s.tasks[t].Reserved? }

  predicate CanFinishEvict(s: System, t: TaskId)
  {
    t in s.tasks && s.tasks[t].Evict? && s.tasks[t].progress in {Synced, Failed}
  }

  predicate CanBind(s: System, t: TaskId) { t in s.tasks && s.tasks[t].Owned? && s.tasks[t].want.ForLoad? }

  predicate CanReadPage(s: System, t: TaskId, verdict: Verdict)
  {
    && t in s.tasks && s.tasks[t].LoadRead? && s.tasks[t].verdict == None
    && (verdict != ReadFailed ==> s.tasks[t].page in s.disk.volatile)
  }

  predicate CanFinishLoad(s: System, t: TaskId) { t in s.tasks && s.tasks[t].LoadRead? && s.tasks[t].verdict.Some? }

  predicate CanTakeTurn(s: System, t: TaskId) { t in s.tasks && s.tasks[t].NewWait? }

  predicate CanNumber(s: System, t: TaskId) { t in s.tasks && s.tasks[t].Owned? && s.tasks[t].want.ForNew? }

  predicate CanBindPage(s: System, t: TaskId) { t in s.tasks && s.tasks[t].Numbered? }

  predicate CanConstruct(s: System, t: TaskId, built: bool, bytes: Image)
  {
    && t in s.tasks && s.tasks[t].Build? && s.tasks[t].built == None
    && (built ==> HeaderPageNo(bytes) == s.tasks[t].page.no)
  }

  predicate CanFinishNew(s: System, t: TaskId) { t in s.tasks && s.tasks[t].Build? && s.tasks[t].built.Some? }

  predicate CanTakeLatch(s: System, t: TaskId)
  {
    && t in s.tasks && s.tasks[t].Pinned? && s.tasks[t].frame < |s.pool.frames|
    && LatchFree(s.pool.frames[s.tasks[t].frame].latch, s.tasks[t].mode)
  }

  predicate CanMutate(s: System, t: TaskId) { t in s.tasks && s.tasks[t].Guard? && s.tasks[t].mode == Exclusive }

  /** The release contract: every change has been published by MarkDirty. */
  predicate CanReleaseLatch(s: System, t: TaskId) { t in s.tasks && s.tasks[t].Guard? && !s.tasks[t].mutated }

  predicate CanReleasePin(s: System, t: TaskId) { t in s.tasks && s.tasks[t].Unpin? }

  predicate CanFlushNext(s: System, t: TaskId) { t in s.tasks && s.tasks[t].Flush? && |s.tasks[t].pages| > 0 }

  predicate CanCopyImage(s: System, t: TaskId)
  {
    && t in s.tasks && s.tasks[t].Copy? && s.tasks[t].frame < |s.pool.frames|
    && s.pool.frames[s.tasks[t].frame].latch.writer == None
  }

  predicate CanFinishWrite(s: System, t: TaskId)
  {
    t in s.tasks && s.tasks[t].Write? && |s.tasks[t].pages| > 0 && s.tasks[t].progress in {Synced, Failed}
  }

  ghost predicate CanFinishDrain(s: System, t: TaskId, pages: seq<PageId>)
  {
    && t in s.tasks && s.tasks[t].Drain? && !s.tasks[t].discard
    && Drained(s.pool, s.tasks[t].file) && NoIo(s.pool, s.tasks[t].file)
    && Enumerates(pages, s.pool, Some(s.tasks[t].file))
  }

  ghost predicate CanDiscard(s: System, t: TaskId, freed: seq<nat>)
  {
    && t in s.tasks && s.tasks[t].Drain? && s.tasks[t].discard
    && Drained(s.pool, s.tasks[t].file) && NoIo(s.pool, s.tasks[t].file)
    && EnumeratesFrames(freed, s.pool, s.tasks[t].file)
  }

  ghost predicate CanFinishDrainAll(s: System, t: TaskId, pages: seq<PageId>)
  {
    && t in s.tasks && s.tasks[t].DrainAll? && AllDrained(s.pool) && AllIdle(s.pool)
    && Enumerates(pages, s.pool, None)
  }

  ghost predicate CanFinishFlush(s: System, t: TaskId, freed: seq<nat>)
  {
    && t in s.tasks && s.tasks[t].Flush? && s.tasks[t].pages == []
    && (s.tasks[t].job.RetiringFile? ==> EnumeratesFrames(freed, s.pool, s.tasks[t].job.file))
  }

  // ---- What a step does ----

  function DoFinishRegister(s: System, t: TaskId): System
    requires s.Wf() && CanFinishRegister(s, t)
  {
    var Register(file, count) := s.tasks[t];
    if file == 0 || s.pool.quiescing || file in s.pool.files then s.End(t)
    else
      var adopted := Adopted(s, file, count);
      s.(pool := s.pool.(files := s.pool.files[file := FileEntry(Active, count, None, None)]),
         published := s.published + adopted,
         unsynced := s.unsynced + adopted.Keys)
       .End(t)
  }

  /** PinPage, from CheckFetchableLocked to the next point that leaves the mutex. */
  function DoExamine(s: System, t: TaskId): System
    requires s.Wf() && CanExamine(s, t)
  {
    var Fetch(page, mode) := s.tasks[t];
    if Fetchable(s.pool, page).Some? then s.End(t)
    else if page !in s.pool.table then
      s.(pool := InstallIntent(s.pool, t, page)).At(t, Acquire(ForLoad(page, mode)))
    else
      var entry := s.pool.table[page];
      match entry.state
      case ResidentEntry =>
        if entry.frame >= |s.pool.frames| || s.pool.frames[entry.frame].pins >= s.pool.maxPins then s.End(t)
        else s.(pool := PinResident(s.pool, entry.frame)).At(t, Pinned(entry.frame, mode))
      case EvictingEntry => s
      case _ =>
        if entry.load == None || entry.load.value !in s.pool.loads then s.End(t)
        else if s.pool.loads[entry.load.value].claims >= s.pool.maxPins then s.End(t)
        else s.(pool := Claim(s.pool, entry.load.value)).At(t, Join(page, mode, entry.load.value))
  }

  function DoWake(s: System, t: TaskId): System
    requires s.Wf() && CanWake(s, t)
  {
    var Join(_, mode, l) := s.tasks[t];
    match s.pool.loads[l].frame
    case Some(f) => s.At(t, Pinned(f, mode))
    case None => s.End(t)
  }

  /** The caller of AcquireFrame gives up: LoadPage's fail, or NewPage's finish. */
  function GiveUp(s: System, t: TaskId, want: Want): System
    requires s.Wf()
  {
    match want
    case ForLoad(page, _) => if t in s.pool.loads then s.(pool := FailLoad(s.pool, t, page)).End(t) else s.End(t)
    case ForNew(file) => if file in s.pool.files then s.(pool := SetCreator(s.pool, file, None)).End(t) else s.End(t)
  }

  function Reserve(s: System, t: TaskId, want: Want, f: nat): System
    requires s.Wf() && f < |s.pool.frames|
  {
    s.(pool := ReserveVictim(s.pool, f)).Hold(f, Some(t)).At(t, Reserved(want, f, s.pool.frames[f].page))
  }

  /** AcquireFrame's loop body without an observer. */
  function DoSearch(s: System, t: TaskId): System
    requires s.Wf() && CanSearch(s, t)
  {
    var want := s.tasks[t].want;
    if |s.pool.free| > 0 then
      var f := s.pool.free[|s.pool.free| - 1];
      if f < |s.holders| then s.(pool := PopFree(s.pool)).Hold(f, Some(t)).At(t, Owned(want, f)) else s
    else
      var found := Find(s.pool.clock, Eligibility(s.pool));
      var moved := s.(pool := s.pool.(clock := found.clock));
      match found.candidate
      case Some(f) => Reserve(moved, t, want, f)
      case None => GiveUp(moved, t, want)
  }

  function DoObserve(s: System, t: TaskId): System
    requires s.Wf() && CanObserve(s, t)
  {
    var found := Find(s.pool.clock, Eligibility(s.pool));
    var f := found.candidate.value;
    s.(pool := s.pool.(clock := found.clock)).At(t, Observed(s.tasks[t].want, f, s.pool.frames[f].page))
  }

  /** The final recheck after the candidate was announced. */
  function DoRecheck(s: System, t: TaskId): System
    requires s.Wf() && CanRecheck(s, t)
  {
    var Observed(want, f, victim) := s.tasks[t];
    if f >= |s.pool.frames| || !Eligible(s.pool, f) || s.pool.frames[f].page != victim || |s.pool.free| > 0
    then s.At(t, Acquire(want))
    else Reserve(s, t, want, f)
  }

  function DoBeginEvict(s: System, t: TaskId): System
    requires s.Wf() && CanBeginEvict(s, t)
  {
    var Reserved(want, f, victim) := s.tasks[t];
    if f >= |s.pool.frames| then s
    else if s.pool.frames[f].dirty then
      s.(pool := SetIo(s.pool, f, Writing)).At(t, Evict(want, f, victim, Finalized(s.pool.frames[f].bytes), Pending))
    else
      s.(pool := DropVictim(s.pool, f)).At(t, Owned(want, f))
  }

  function DoFinishEvict(s: System, t: TaskId): System
    requires s.Wf() && CanFinishEvict(s, t)
  {
    var Evict(want, f, _, _, progress) := s.tasks[t];
    if f >= |s.pool.frames| then s
    else if progress == Failed then GiveUp(s.(pool := RestoreVictim(s.pool, f)).Hold(f, None), t, want)
    else s.(pool := DropVictim(s.pool, f)).At(t, Owned(want, f))
  }

  function DoBind(s: System, t: TaskId): System
    requires s.Wf() && CanBind(s, t)
  {
    var Owned(ForLoad(page, mode), f) := s.tasks[t];
    if f >= |s.pool.frames| then s
    else s.(pool := BindLoad(s.pool, t, page, f)).At(t, LoadRead(page, mode, f, None))
  }

  /** The read runs without the mutex on a frame only this task may touch. */
  function DoReadPage(s: System, t: TaskId, verdict: Verdict, bytes: Image): System
    requires s.Wf() && CanReadPage(s, t, verdict)
  {
    var LoadRead(page, mode, f, _) := s.tasks[t];
    if f >= |s.pool.frames| then s
    else
      var got := if verdict == ReadFailed then bytes else s.disk.volatile[page];
      var result := if verdict == ReadFailed then ReadFailed else LoadVerdict(page, got, verdict);
      s.(pool := s.pool.With(f, s.pool.frames[f].(bytes := got))).At(t, LoadRead(page, mode, f, Some(result)))
  }

  function DoFinishLoad(s: System, t: TaskId): System
    requires s.Wf() && CanFinishLoad(s, t)
  {
    var LoadRead(page, mode, f, Some(verdict)) := s.tasks[t];
    if f >= |s.pool.frames| || t !in s.pool.loads || page.file !in s.pool.files then s
    else if verdict != Valid || s.pool.files[page.file].state != Active then
      s.(pool := FailLoad(ReleaseFrame(ResetFrame(s.pool, f), f), t, page)).Hold(f, None).End(t)
    else
      s.(pool := PublishLoad(s.pool, t, page, f)).Hold(f, None).At(t, Pinned(f, mode))
  }

  /** WaitForNewPageTurn and the claim that follows it. */
  function DoTakeTurn(s: System, t: TaskId): System
    requires s.Wf() && CanTakeTurn(s, t)
  {
    var file := s.tasks[t].file;
    if s.pool.quiescing || file !in s.pool.files || s.pool.files[file].state != Active then s.End(t)
    else if s.pool.files[file].creator.Some? then s
    else s.(pool := SetCreator(s.pool, file, Some(t))).At(t, Acquire(ForNew(file)))
  }

  /** ReserveNewPageNo: reuse the page past the bound if it exists, else extend the file. */
  function DoNumber(s: System, t: TaskId, ok: bool): System
    requires s.Wf() && CanNumber(s, t)
  {
    var Owned(ForNew(file), f) := s.tasks[t];
    if f >= |s.pool.frames| || file !in s.pool.files then s
    else if !ok then GiveUp(s.(pool := ReleaseFrame(s.pool, f)).Hold(f, None), t, ForNew(file))
    else
      var bound, count := s.pool.files[file].bound, CountOf(s.disk, file);
      if count > bound then s.At(t, Numbered(file, f, bound))
      else
        s.(disk := s.disk.(volatile := s.disk.volatile[PageId(file, count) := ZERO_PAGE],
                           count := s.disk.count[file := count + 1]))
         .At(t, Numbered(file, f, count))
  }

  function DoBindPage(s: System, t: TaskId): System
    requires s.Wf() && CanBindPage(s, t)
  {
    var Numbered(file, f, no) := s.tasks[t];
    if f >= |s.pool.frames| || file !in s.pool.files then s
    else if no == 0 || no != s.pool.files[file].bound then
      GiveUp(s.(pool := ReleaseFrame(s.pool, f)).Hold(f, None), t, ForNew(file))
    else s.(pool := BindNew(s.pool, PageId(file, no), f)).At(t, Build(PageId(file, no), f, None))
  }

  function DoConstruct(s: System, t: TaskId, built: bool, bytes: Image): System
    requires s.Wf() && CanConstruct(s, t, built, bytes)
  {
    var Build(page, f, _) := s.tasks[t];
    if f >= |s.pool.frames| then s
    else s.(pool := s.pool.With(f, s.pool.frames[f].(bytes := bytes))).At(t, Build(page, f, Some(built)))
  }

  function DoFinishNew(s: System, t: TaskId): System
    requires s.Wf() && CanFinishNew(s, t)
  {
    var Build(page, f, Some(built)) := s.tasks[t];
    if f >= |s.pool.frames| || page.file !in s.pool.files then s
    else if !built || s.pool.files[page.file].state != Active then
      s.(pool := SetCreator(AbortNew(s.pool, page, f), page.file, None)).Hold(f, None).End(t)
    else
      s.(pool := SetCreator(PublishNew(s.pool, page, f), page.file, None),
         published := s.published[page := s.pool.frames[f].bytes])
       .Hold(f, None).At(t, Pinned(f, Exclusive))
  }

  function DoTakeLatch(s: System, t: TaskId): System
    requires s.Wf() && CanTakeLatch(s, t)
  {
    var Pinned(f, mode) := s.tasks[t];
    var latch := s.pool.frames[f].latch;
    var taken := if mode == Shared then latch.(readers := latch.readers + {t}) else latch.(writer := Some(t));
    s.(pool := s.pool.With(f, s.pool.frames[f].(latch := taken))).At(t, Guard(f, mode, false))
  }

  function DoMutate(s: System, t: TaskId, bytes: Image): System
    requires s.Wf() && CanMutate(s, t)
  {
    var f := s.tasks[t].frame;
    if f >= |s.pool.frames| then s
    else s.(pool := s.pool.With(f, s.pool.frames[f].(bytes := bytes))).At(t, Guard(f, s.tasks[t].mode, true))
  }

  function DoMarkDirty(s: System, t: TaskId): System
    requires s.Wf() && CanMutate(s, t)
  {
    var f := s.tasks[t].frame;
    if f >= |s.pool.frames| then s
    else
      s.(pool := MarkMutation(s.pool, f), published := s.published[s.pool.frames[f].page := s.pool.frames[f].bytes])
       .At(t, Guard(f, s.tasks[t].mode, false))
  }

  function DoReleaseLatch(s: System, t: TaskId): System
    requires s.Wf() && CanReleaseLatch(s, t)
  {
    var Guard(f, mode, _) := s.tasks[t];
    if f >= |s.pool.frames| then s
    else
      var latch := s.pool.frames[f].latch;
      var left := if mode == Shared then latch.(readers := latch.readers - {t}) else latch.(writer := None);
      s.(pool := s.pool.With(f, s.pool.frames[f].(latch := left))).At(t, Unpin(f))
  }

  function DoReleasePin(s: System, t: TaskId): System
    requires s.Wf() && CanReleasePin(s, t)
  {
    var f := s.tasks[t].frame;
    if f >= |s.pool.frames| then s else s.(pool := DropPin(s.pool, f)).End(t)
  }

  /** FlushPageLocked's loop body for the first page of the list. */
  function DoFlushNext(s: System, t: TaskId): System
    requires s.Wf() && CanFlushNext(s, t)
  {
    var Flush(job, pages, failed) := s.tasks[t];
    var next := s.At(t, Flush(job, pages[1..], failed));
    if pages[0] !in s.pool.table then next
    else
      var entry := s.pool.table[pages[0]];
      match entry.state
      case IntentEntry => next
      case LoadingEntry => next
      case EvictingEntry => s
      case ResidentEntry =>
        if entry.frame >= |s.pool.frames| then s
        else if !s.pool.frames[entry.frame].dirty then next
        else if s.pool.frames[entry.frame].io != Idle then s
        else
          s.(pool := SetIo(s.pool, entry.frame, Writing)).Hold(entry.frame, Some(t))
           .At(t, Copy(job, pages, failed, entry.frame, s.pool.frames[entry.frame].epoch))
  }

  /** The image and its generation, copied together under the shared latch. */
  function DoCopyImage(s: System, t: TaskId): System
    requires s.Wf() && CanCopyImage(s, t)
  {
    var Copy(job, pages, failed, f, epoch) := s.tasks[t];
    var frame := s.pool.frames[f];
    s.At(t, Write(job, pages, failed, f, epoch, frame.generation, Finalized(frame.bytes), Pending))
  }

  /** Clean only if this residency still holds exactly the copied generation. */
  function DoFinishWrite(s: System, t: TaskId): System
    requires s.Wf() && CanFinishWrite(s, t)
  {
    var Write(job, pages, failed, f, epoch, generation, _, progress) := s.tasks[t];
    if f >= |s.pool.frames| then s
    else
      var frame := s.pool.frames[f];
      var clean := progress == Synced && frame.page == pages[0] && frame.epoch == epoch && frame.generation == generation;
      s.(pool := Reconcile(s.pool, f, clean)).Hold(f, None)
       .At(t, if progress == Failed then Flush(job, pages[1..], true) else Flush(job, pages, failed))
  }

  function DoStartRetire(s: System, t: TaskId, file: nat, discard: bool): System
    requires s.Wf() && CanStartRetire(s, t, file)
  {
    s.(pool := s.pool.(files := s.pool.files[file := s.pool.files[file].(state := Retiring, retirer := Some(t))]))
     .At(t, Drain(file, discard))
  }

  /**
   * Discarding closes the file at once and drops the abstract images of its dirty pages: reopening
   * the file adopts the disk's.
   */
  function DoDiscard(s: System, t: TaskId, freed: seq<nat>): System
    requires s.Wf() && CanDiscard(s, t, freed)
  {
    var file := s.tasks[t].file;
    s.(pool := CloseFile(s.pool, file, freed),
       published := map page | page in s.published && !Matches(s.pool, Some(file), page) :: s.published[page])
     .End(t)
  }

  /** The end of a flush: what its caller does next in the same critical section. */
  function DoFinishFlush(s: System, t: TaskId, freed: seq<nat>): System
    requires s.Wf() && CanFinishFlush(s, t, freed)
  {
    var Flush(job, _, failed) := s.tasks[t];
    match job
    case Flushing => s.End(t)
    case ShuttingDown => s.(closed := s.closed || !failed).End(t)
    case RetiringFile(file) =>
      if file !in s.pool.files then s
      else if failed then
        s.(pool := s.pool.(files := s.pool.files[file := s.pool.files[file].(retirer := None)])).End(t)
      else s.(pool := CloseFile(s.pool, file, freed)).End(t)
  }

  function DoFinishDrain(s: System, t: TaskId, pages: seq<PageId>): System
    requires s.Wf() && CanFinishDrain(s, t, pages)
  {
    s.At(t, Flush(RetiringFile(s.tasks[t].file), pages, false))
  }

  /** An unfinished write may leave anything in the page. */
  function DoTear(s: System, t: TaskId, bytes: Image): System
    requires s.Wf() && Transfers(s, t, Pending)
  {
    s.(disk := s.disk.(volatile := s.disk.volatile[WriterPage(s.tasks[t]).value := bytes]))
  }

  function DoIoFails(s: System, t: TaskId): System
    requires s.Wf() && t in s.tasks
  {
    s.At(t, Advance(s.tasks[t], Failed))
  }

  /** The operating system may write a page back at any time. */
  function DoFlushed(s: System, page: PageId): System
    requires s.Wf() && page in s.disk.volatile
  {
    s.(disk := s.disk.(durable := s.disk.durable[page := s.disk.volatile[page]]))
  }

  function DoWriteDone(s: System, t: TaskId): System
    requires s.Wf() && Transfers(s, t, Pending)
  {
    var task := s.tasks[t];
    s.(disk := s.disk.(volatile := s.disk.volatile[WriterPage(task).value := WriterImage(task)]))
     .At(t, Advance(task, Written))
  }

  /** fdatasync makes every page of the file durable as it is now. */
  function DoSyncDone(s: System, t: TaskId): System
    requires s.Wf() && Transfers(s, t, Written)
  {
    var file := WriterPage(s.tasks[t]).value.file;
    var stable := map page | page in s.disk.volatile && page.file == file :: s.disk.volatile[page];
    s.(disk := s.disk.(durable := s.disk.durable + stable), unsynced := s.unsynced - stable.Keys)
     .At(t, Advance(s.tasks[t], Synced))
  }

  function ApplyStarts(s: System, step: Start): System
    requires s.Wf() && StartsEnabled(s, step)
  {
    match step
    case StartFetch(t, page, mode) => s.At(t, Fetch(page, mode))
    case StartNew(t, file) => s.At(t, NewWait(file))
    case StartFlushPage(t, page) => s.At(t, Flush(Flushing, [page], false))
    case StartFlush(t, _, pages) => s.At(t, Flush(Flushing, pages, false))
    case StartRetire(t, file, discard) => DoStartRetire(s, t, file, discard)
    case StartShutdown(t) => s.(pool := s.pool.(quiescing := true)).At(t, DrainAll)
    case StartRegister(t, file) => s.At(t, Register(file, CountOf(s.disk, file)))
  }

  function ApplyFetches(s: System, step: Fetching): System
    requires s.Wf() && FetchesEnabled(s, step)
  {
    match step
    case FinishRegister(t) => DoFinishRegister(s, t)
    case Examine(t) => DoExamine(s, t)
    case Wake(t) => DoWake(s, t)
    case Bind(t) => DoBind(s, t)
    case ReadPage(t, verdict, bytes) => DoReadPage(s, t, verdict, bytes)
    case FinishLoad(t) => DoFinishLoad(s, t)
  }

  function ApplyReplaces(s: System, step: Replacing): System
    requires s.Wf() && ReplacesEnabled(s, step)
  {
    match step
    case Search(t) => DoSearch(s, t)
    case Observe(t) => DoObserve(s, t)
    case Recheck(t) => DoRecheck(s, t)
    case BeginEvict(t) => DoBeginEvict(s, t)
    case FinishEvict(t) => DoFinishEvict(s, t)
  }

  function ApplyCreates(s: System, step: Creating): System
    requires s.Wf() && CreatesEnabled(s, step)
  {
    match step
    case TakeTurn(t) => DoTakeTurn(s, t)
    case Number(t, ok) => DoNumber(s, t, ok)
    case BindPage(t) => DoBindPage(s, t)
    case Construct(t, built, bytes) => DoConstruct(s, t, built, bytes)
    case FinishNew(t) => DoFinishNew(s, t)
  }

  function ApplyGuards(s: System, step: Guarding): System
    requires s.Wf() && GuardsEnabled(s, step)
  {
    match step
    case TakeLatch(t) => DoTakeLatch(s, t)
    case Mutate(t, bytes) => DoMutate(s, t, bytes)
    case MarkDirty(t) => DoMarkDirty(s, t)
    case ReleaseLatch(t) => DoReleaseLatch(s, t)
    case ReleasePin(t) => DoReleasePin(s, t)
  }

  function ApplyCleans(s: System, step: Cleaning): System
    requires s.Wf() && CleansEnabled(s, step)
  {
    match step
    case FlushNext(t) => DoFlushNext(s, t)
    case CopyImage(t) => DoCopyImage(s, t)
    case FinishWrite(t) => DoFinishWrite(s, t)
    case FinishDrain(t, pages) => DoFinishDrain(s, t, pages)
    case DiscardDrained(t, freed) => DoDiscard(s, t, freed)
    case FinishDrainAll(t, pages) => s.At(t, Flush(ShuttingDown, pages, false))
    case FinishFlush(t, freed) => DoFinishFlush(s, t, freed)
  }

  function ApplyDisks(s: System, step: DiskStep): System
    requires s.Wf() && DisksEnabled(s, step)
  {
    match step
    case Tear(t, bytes) => DoTear(s, t, bytes)
    case WriteDone(t) => DoWriteDone(s, t)
    case SyncDone(t) => DoSyncDone(s, t)
    case IoFails(t) => DoIoFails(s, t)
    case Flushed(page) => DoFlushed(s, page)
  }

  function Apply(s: System, l: Label): System
    requires s.Wf() && Enabled(s, l)
  {
    match l
    case Starts(step) => ApplyStarts(s, step)
    case Fetches(step) => ApplyFetches(s, step)
    case Replaces(step) => ApplyReplaces(s, step)
    case Creates(step) => ApplyCreates(s, step)
    case Guards(step) => ApplyGuards(s, step)
    case Cleans(step) => ApplyCleans(s, step)
    case Disks(step) => ApplyDisks(s, step)
  }
}
