/**
 * The state that one BufferPool mutex protects, and each critical section of
 * src/storage/buffer/buffer_pool.cpp as a function of that state.
 */
module BufferState {
  import opened Basics
  import opened Bytes
  import opened PageChecksum
  import opened ClockReplacement

  type TaskId = nat

  datatype PageId = PageId(file: nat, no: nat)

  /** The identity of a frame that holds no page. */
  const NO_PAGE: PageId := PageId(0, U64_MAX)
  const ZERO_PAGE: Image := Zeros(PAGE_SIZE)

  datatype FrameState = Free | Loading | Resident | Evicting
  datatype Io = Idle | Reading | Writing

  /** The page latch: many readers or one writer. */
  datatype Latch = Latch(readers: set<TaskId>, writer: Option<TaskId>)
  {
    predicate Unused() { readers == {} && writer == None }
  }

  datatype Frame = Frame(
    page: PageId,
    bytes: Image,
    state: FrameState,
    io: Io,
    pins: nat,
    dirty: bool,
    generation: nat,
    epoch: nat,
    latch: Latch)

  datatype EntryState = IntentEntry | LoadingEntry | ResidentEntry | EvictingEntry

  /** `load` names the fetch whose LoadOperation the entry shares; None for a page under construction. */
  datatype Entry = Entry(state: EntryState, frame: nat, load: Option<TaskId>)

  /** A LoadOperation; it is identified by the fetch that created it. */
  datatype Load = Load(claims: nat, done: bool, frame: Option<nat>)

  datatype FileState = Active | Retiring

  /** `creator` is the NewPage call that set new_page_in_progress; `retirer` the RetireFile call in progress. */
  datatype FileEntry = FileEntry(state: FileState, bound: nat, creator: Option<TaskId>, retirer: Option<TaskId>)

  datatype Pool = Pool(
    frames: seq<Frame>,
    free: seq<nat>,
    clock: Clock,
    table: map<PageId, Entry>,
    files: map<nat, FileEntry>,
    loads: map<TaskId, Load>,
    quiescing: bool,
    maxPins: nat)
  {
    predicate Wf()
    {
      && 0 < |frames| == |clock.referenced| && clock.Valid() && 0 < maxPins
    }

    function With(f: nat, frame: Frame): Pool
      requires f < |frames|
    {
      this.(frames := frames[f := frame])
    }

    function Referenced(f: nat): Pool
      requires f < |clock.referenced|
    {
      this.(clock := Clock(clock.referenced[f := true], clock.hand))
    }
  }

  datatype FetchError = Quiescing | NotFound | FileClosing

  const EMPTY_FRAME: Frame :=
    Frame(NO_PAGE, ZERO_PAGE, Free, Idle, 0, false, 0, 0, Latch({}, None))

  function InitialPool(frameCount: nat, maxPins: nat): (p: Pool)
    requires frameCount > 0 && maxPins > 0
    ensures p.Wf()
  {
    Pool(seq(frameCount, _ => EMPTY_FRAME), seq(frameCount, i requires 0 <= i < frameCount => frameCount - 1 - i),
         Clock(seq(frameCount, _ => false), 0), map[], map[], map[], false, maxPins)
  }

  // ---- Fetch ----

  /** CheckFetchableLocked. */
  function Fetchable(p: Pool, page: PageId): (e: Option<FetchError>)
  {
    if p.quiescing then Some(Quiescing)
    else if page.file !in p.files then Some(NotFound)
    else if p.files[page.file].state != Active then Some(FileClosing)
    else if page.no == 0 || page.no >= p.files[page.file].bound then Some(NotFound)
    else None
  }

  /** PinResidentLocked past its overflow check. */
  function PinResident(p: Pool, f: nat): Pool
    requires p.Wf() && f < |p.frames|
  {
    p.With(f, p.frames[f].(pins := p.frames[f].pins + 1)).Referenced(f)
  }

  /** LoadPage: the sole intent with the loader's own claim. */
  function InstallIntent(p: Pool, t: TaskId, page: PageId): Pool
  {
    p.(table := p.table[page := Entry(IntentEntry, 0, Some(t))], loads := p.loads[t := Load(1, false, None)])
  }

  /** JoinLoad past its checks. */
  function Claim(p: Pool, l: TaskId): Pool
    requires l in p.loads
  {
    p.(loads := p.loads[l := p.loads[l].(claims := p.loads[l].claims + 1)])
  }

  /** LoadPage's fail: the entry goes and every claimant gets the error. */
  function FailLoad(p: Pool, t: TaskId, page: PageId): Pool
    requires t in p.loads
  {
    p.(table := p.table - {page}, loads := p.loads[t := p.loads[t].(done := true)])
  }

  /** FREE to LOADING with the read in progress. */
  function BindLoad(p: Pool, t: TaskId, page: PageId, f: nat): Pool
    requires f < |p.frames|
  {
    var frame := p.frames[f];
    p.With(f, frame.(epoch := frame.epoch + 1, page := page, bytes := ZERO_PAGE, state := Loading, io := Reading, dirty := false))
     .(table := p.table[page := Entry(LoadingEntry, f, Some(t))])
  }

  /** PublishLoadLocked: every claim becomes one pin. */
  function PublishLoad(p: Pool, t: TaskId, page: PageId, f: nat): Pool
    requires p.Wf() && f < |p.frames| && t in p.loads
  {
    var frame := p.frames[f];
    p.With(f, frame.(state := Resident, io := Idle, pins := p.loads[t].claims))
     .(table := p.table[page := Entry(ResidentEntry, f, None)],
       loads := p.loads[t := p.loads[t].(done := true, frame := Some(f))])
     .Referenced(f)
  }

  // ---- Replacement ----

  /** IsVictimEligible. */
  predicate Eligible(p: Pool, f: nat)
    requires f < |p.frames|
  {
    && p.frames[f].state == Resident && p.frames[f].pins == 0 && p.frames[f].io == Idle
    && p.frames[f].page.file in p.files && p.files[p.frames[f].page.file].state == Active
  }

  function Eligibility(p: Pool): (e: seq<bool>)
    ensures |e| == |p.frames| && forall f :: 0 <= f < |e| ==> e[f] == Eligible(p, f)
  {
    seq(|p.frames|, f requires 0 <= f < |p.frames| => Eligible(p, f))
  }

  function ResetFrame(p: Pool, f: nat): Pool
    requires p.Wf() && f < |p.frames|
  {
    p.With(f, p.frames[f].(page := NO_PAGE, bytes := ZERO_PAGE, state := Free, io := Idle, pins := 0, dirty := false))
     .(clock := Clock(p.clock.referenced[f := false], p.clock.hand))
  }

  function ReleaseFrame(p: Pool, f: nat): Pool { p.(free := p.free + [f]) }

  function PopFree(p: Pool): Pool
    requires |p.free| > 0
  {
    p.(free := p.free[..|p.free| - 1])
  }

  /** RESIDENT to EVICTING: the mapping stays but cannot be pinned. */
  function ReserveVictim(p: Pool, f: nat): Pool
    requires f < |p.frames|
  {
    p.With(f, p.frames[f].(state := Evicting))
     .(table := p.table[p.frames[f].page := Entry(EvictingEntry, f, None)])
  }

  /** A failed eviction writeback: back to RESIDENT, still dirty. */
  function RestoreVictim(p: Pool, f: nat): Pool
    requires f < |p.frames|
  {
    p.With(f, p.frames[f].(state := Resident, io := Idle))
     .(table := p.table[p.frames[f].page := Entry(ResidentEntry, f, None)])
  }

  /** The old mapping goes before the identity is reset. */
  function DropVictim(p: Pool, f: nat): Pool
    requires p.Wf() && f < |p.frames|
  {
    ResetFrame(p.(table := p.table - {p.frames[f].page}), f)
  }

  // ---- New pages ----

  /** new_page_in_progress set and cleared. */
  function SetCreator(p: Pool, file: nat, creator: Option<TaskId>): Pool
    requires file in p.files
  {
    p.(files := p.files[file := p.files[file].(creator := creator)])
  }

  /** FREE to LOADING without a read: private construction. */
  function BindNew(p: Pool, page: PageId, f: nat): Pool
    requires f < |p.frames|
  {
    var frame := p.frames[f];
    p.With(f, frame.(epoch := frame.epoch + 1, page := page, bytes := ZERO_PAGE, state := Loading, io := Idle, dirty := false))
     .(table := p.table[page := Entry(LoadingEntry, f, None)])
  }

  function AbortNew(p: Pool, page: PageId, f: nat): Pool
    requires p.Wf() && f < |p.frames|
  {
    ReleaseFrame(ResetFrame(p.(table := p.table - {page}), f), f)
  }

  /** The advanced bound and the resident frame are published together. */
  function PublishNew(p: Pool, page: PageId, f: nat): Pool
    requires p.Wf() && f < |p.frames| && page.file in p.files
  {
    var frame := p.frames[f];
    p.With(f, frame.(state := Resident, pins := 1, dirty := true, generation := frame.generation + 1))
     .(files := p.files[page.file := p.files[page.file].(bound := page.no + 1)],
       table := p.table[page := Entry(ResidentEntry, f, None)])
     .Referenced(f)
  }

  // ---- Writeback ----

  function SetIo(p: Pool, f: nat, io: Io): Pool
    requires f < |p.frames|
  {
    p.With(f, p.frames[f].(io := io))
  }

  /** The end of WritebackResident. */
  function Reconcile(p: Pool, f: nat, clean: bool): Pool
    requires f < |p.frames|
  {
    p.With(f, p.frames[f].(io := Idle, dirty := p.frames[f].dirty && !clean))
  }

  /** FlushMatching's selection: the dirty resident pages of one file or of all. */
  predicate Matches(p: Pool, only: Option<nat>, page: PageId)
  {
    && page in p.table && (only.Some? ==> page.file == only.value)
    && p.table[page].state == ResidentEntry
    && p.table[page].frame < |p.frames| && p.frames[p.table[page].frame].dirty
  }

  // ---- Files ----

  /** RetireFile's drain condition. */
  predicate Drained(p: Pool, file: nat)
  {
    && (file in p.files ==> p.files[file].creator == None)
    && (forall page :: page in p.table && page.file == file ==>
          p.table[page].state == ResidentEntry && p.table[page].frame < |p.frames|
          && p.frames[p.table[page].frame].pins == 0)
  }

  predicate NoIo(p: Pool, file: nat)
  {
    forall page :: page in p.table && page.file == file ==>
      p.table[page].frame < |p.frames| ==> p.frames[p.table[page].frame].io == Idle
  }

  /** Shutdown's drain condition, apart from I/O. */
  predicate AllDrained(p: Pool)
  {
    && (forall f :: 0 <= f < |p.frames| ==> p.frames[f].pins == 0)
    && (forall page :: page in p.table ==> p.table[page].state == ResidentEntry)
    && (forall file :: file in p.files ==> p.files[file].creator == None)
  }

  predicate AllIdle(p: Pool)
  {
    forall f :: 0 <= f < |p.frames| ==> p.frames[f].io == Idle
  }

  /** The frames bound to pages of `file`. */
  function FileFrames(p: Pool, file: nat): set<nat>
  {
    set page | page in p.table && page.file == file :: p.table[page].frame
  }

  /** RetireFile's removal: mappings erased, frames reset and freed (`freed` lists them), file closed. */
  function CloseFile(p: Pool, file: nat, freed: seq<nat>): Pool
    requires p.Wf()
  {
    var gone := FileFrames(p, file);
    p.(frames := seq(|p.frames|, f requires 0 <= f < |p.frames| =>
         if f in gone then p.frames[f].(page := NO_PAGE, bytes := ZERO_PAGE, state := Free, io := Idle, pins := 0, dirty := false)
         else p.frames[f]),
       free := p.free + freed,
       clock := Clock(seq(|p.frames|, f requires 0 <= f < |p.frames| => p.clock.referenced[f] && f !in gone), p.clock.hand),
       table := map page | page in p.table && page.file != file :: p.table[page],
       files := p.files - {file})
  }

  // ---- Guards ----

  function DropPin(p: Pool, f: nat): Pool
    requires f < |p.frames|
  {
    if p.frames[f].pins == 0 then p else p.With(f, p.frames[f].(pins := p.frames[f].pins - 1))
  }

  /** PublishMutation. */
  function MarkMutation(p: Pool, f: nat): Pool
    requires f < |p.frames|
  {
    p.With(f, p.frames[f].(generation := p.frames[f].generation + 1, dirty := true))
  }
}
