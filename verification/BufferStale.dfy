/**
 * RegisterFile reads the page count before it takes the mutex. A run of a one-frame pool in which a
 * count goes stale in between, a flushed page disappears, and its number is handed out again.
 */
module BufferStale {
  import opened Basics
  import opened Bytes
  import opened Fields
  import opened PageChecksum
  import opened ClockReplacement
  import opened BufferState
  import opened BufferSystem
  import opened BufferTheorems
  import opened BufferAppend

  // ---- Reaching a state ----

  ghost predicate Reaches(s: System, r: System)
  {
    exists labels :: Runs(s, labels) && After(s, labels) == r
  }

  lemma {:induction false} RunsAppend(s: System, labels: seq<Label>, l: Label)
    requires Runs(s, labels) && After(s, labels).Wf() && Enabled(After(s, labels), l)
    ensures Runs(s, labels + [l]) && After(s, labels + [l]) == Apply(After(s, labels), l)
    decreases |labels|
  {
    hide Enabled, Apply;
    if |labels| == 0 {
      assert labels + [l] == [l];
      assert Runs(Apply(s, l), []);
    } else {
      assert (labels + [l])[0] == labels[0] && (labels + [l])[1..] == labels[1..] + [l];
      RunsAppend(Apply(s, labels[0]), labels[1..], l);
    }
  }

  lemma ReachesItself(s: System)
    ensures Reaches(s, s)
  {
    assert Runs(s, []) && After(s, []) == s;
  }

  lemma Take(s: System, a: System, l: Label, b: System)
    requires Reaches(s, a) && a.Wf() && Enabled(a, l) && Apply(a, l) == b
    ensures Reaches(s, b)
  {
    hide Enabled, Apply;
    var labels :| Runs(s, labels) && After(s, labels) == a;
    RunsAppend(s, labels, l);
  }

  lemma TakeStarts(s: System, a: System, step: Start, b: System)
    requires Reaches(s, a) && a.Wf() && StartsEnabled(a, step) && ApplyStarts(a, step) == b
    ensures Reaches(s, b)
  {
    hide Reaches, StartsEnabled, ApplyStarts;
    Take(s, a, Starts(step), b);
  }

  lemma TakeFetches(s: System, a: System, step: Fetching, b: System)
    requires Reaches(s, a) && a.Wf() && FetchesEnabled(a, step) && ApplyFetches(a, step) == b
    ensures Reaches(s, b)
  {
    hide Reaches, FetchesEnabled, ApplyFetches;
    Take(s, a, Fetches(step), b);
  }

  lemma TakeReplaces(s: System, a: System, step: Replacing, b: System)
    requires Reaches(s, a) && a.Wf() && ReplacesEnabled(a, step) && ApplyReplaces(a, step) == b
    ensures Reaches(s, b)
  {
    hide Reaches, ReplacesEnabled, ApplyReplaces;
    Take(s, a, Replaces(step), b);
  }

  lemma TakeCreates(s: System, a: System, step: Creating, b: System)
    requires Reaches(s, a) && a.Wf() && CreatesEnabled(a, step) && ApplyCreates(a, step) == b
    ensures Reaches(s, b)
  {
    hide Reaches, CreatesEnabled, ApplyCreates;
    Take(s, a, Creates(step), b);
  }

  lemma TakeGuards(s: System, a: System, step: Guarding, b: System)
    requires Reaches(s, a) && a.Wf() && GuardsEnabled(a, step) && ApplyGuards(a, step) == b
    ensures Reaches(s, b)
  {
    hide Reaches, GuardsEnabled, ApplyGuards;
    Take(s, a, Guards(step), b);
  }

  lemma TakeCleans(s: System, a: System, step: Cleaning, b: System)
    requires Reaches(s, a) && a.Wf() && CleansEnabled(a, step) && ApplyCleans(a, step) == b
    ensures Reaches(s, b)
  {
    hide Reaches, CleansEnabled, ApplyCleans;
    Take(s, a, Cleans(step), b);
  }

  lemma TakeDisks(s: System, a: System, step: DiskStep, b: System)
    requires Reaches(s, a) && a.Wf() && DisksEnabled(a, step) && ApplyDisks(a, step) == b
    ensures Reaches(s, b)
  {
    hide Reaches, DisksEnabled, ApplyDisks;
    Take(s, a, Disks(step), b);
  }

  // ---- The states ----

  const P: PageId := PageId(1, 1)
  const UNLATCHED: Latch := Latch({}, None)

  /** A pool of one frame and at most one pin, without loads. */
  function Sys(frame: Frame, free: seq<nat>, referenced: bool, table: map<PageId, Entry>, files: map<nat, FileEntry>,
               tasks: map<TaskId, Task>, holder: Option<TaskId>, disk: Disk, published: map<PageId, Image>): System
  {
    System(Pool([frame], free, Clock([referenced], 0), table, files, map[], false, 1), tasks, [holder], disk, published, {}, false)
  }

  function Quiet(generation: nat, epoch: nat): Frame
  {
    Frame(NO_PAGE, ZERO_PAGE, Free, Idle, 0, false, generation, epoch, UNLATCHED)
  }

  function Holding(bytes: Image, state: FrameState, io: Io, pins: nat, dirty: bool, generation: nat, epoch: nat, latch: Latch): Frame
  {
    Frame(P, bytes, state, io, pins, dirty, generation, epoch, latch)
  }

  function Open(bound: nat): map<nat, FileEntry> { map[1 := FileEntry(Active, bound, None, None)] }

  function Creating(bound: nat, t: TaskId): map<nat, FileEntry> { map[1 := FileEntry(Active, bound, Some(t), None)] }

  /** File 1 with its superblock page only. */
  const FIRST_DISK: Disk := Disk(map[PageId(1, 0) := ZERO_PAGE], map[], map[1 := 1])

  function Extended(d: Disk): Disk { d.(volatile := d.volatile[P := ZERO_PAGE], count := d.count[1 := 2]) }

  // ---- NewPage from the call to the pin ----

  /** The disk after numbering: extended only if no page lies past the bound. */
  function Numbering(d: Disk): Disk { if CountOf(d, 1) > 1 then d else Extended(d) }

  function Created(g: nat, e: nat, tasks: map<TaskId, Task>, t: TaskId, d: Disk, published: map<PageId, Image>, image: Image): System
  {
    Sys(Holding(image, Resident, Idle, 1, true, g + 1, e + 1, UNLATCHED), [], true, map[P := Entry(ResidentEntry, 0, None)],
        Open(2), tasks[t := Pinned(0, Exclusive)], None, Numbering(d), published[P := image])
  }

  function Acquired(g: nat, e: nat, tasks: map<TaskId, Task>, t: TaskId, d: Disk, published: map<PageId, Image>): System
  {
    Sys(Quiet(g, e), [], false, map[], Creating(1, t), tasks[t := Owned(ForNew(1), 0)], Some(t), d, published)
  }

  function Constructing(g: nat, e: nat, tasks: map<TaskId, Task>, t: TaskId, d: Disk, published: map<PageId, Image>,
                        bytes: Image, built: Option<bool>): System
  {
    Sys(Holding(bytes, Loading, Idle, 0, false, g, e + 1, UNLATCHED), [], false, map[P := Entry(LoadingEntry, 0, None)],
        Creating(1, t), tasks[t := Build(P, 0, built)], Some(t), Numbering(d), published)
  }

  lemma AcquiresFrame(s: System, g: nat, e: nat, tasks: map<TaskId, Task>, t: TaskId, d: Disk, published: map<PageId, Image>)
    requires t !in tasks && Reaches(s, Sys(Quiet(g, e), [0], false, map[], Open(1), tasks, None, d, published))
    ensures Reaches(s, Acquired(g, e, tasks, t, d, published))
  {
    hide Reaches, Enabled, Apply;
    var a0 := Sys(Quiet(g, e), [0], false, map[], Open(1), tasks, None, d, published);
    var a1 := a0.(tasks := tasks[t := NewWait(1)]);
    TakeStarts(s, a0, StartNew(t, 1), a1);
    var a2 := Sys(Quiet(g, e), [0], false, map[], Creating(1, t), tasks[t := Acquire(ForNew(1))], None, d, published);
    TakeCreates(s, a1, TakeTurn(t), a2);
    TakeReplaces(s, a2, Search(t), Acquired(g, e, tasks, t, d, published));
  }

  lemma BindsPageOne(s: System, g: nat, e: nat, tasks: map<TaskId, Task>, t: TaskId, d: Disk, published: map<PageId, Image>)
    requires CountOf(d, 1) in {1, 2} && Reaches(s, Acquired(g, e, tasks, t, d, published))
    ensures Reaches(s, Constructing(g, e, tasks, t, d, published, ZERO_PAGE, None))
  {
    hide Reaches, Enabled, Apply;
    var a := Acquired(g, e, tasks, t, d, published).(disk := Numbering(d), tasks := tasks[t := Numbered(1, 0, 1)]);
    TakeCreates(s, Acquired(g, e, tasks, t, d, published), Number(t, true), a);
    TakeCreates(s, a, BindPage(t), Constructing(g, e, tasks, t, d, published, ZERO_PAGE, None));
  }

  lemma ConstructsPageOne(s: System, g: nat, e: nat, tasks: map<TaskId, Task>, t: TaskId, d: Disk, published: map<PageId, Image>, image: Image)
    requires HeaderPageNo(image) == 1 && Reaches(s, Constructing(g, e, tasks, t, d, published, ZERO_PAGE, None))
    ensures Reaches(s, Constructing(g, e, tasks, t, d, published, image, Some(true)))
  {
    hide Reaches, HeaderPageNo, Enabled, Apply, Numbering;
    TakeCreates(s, Constructing(g, e, tasks, t, d, published, ZERO_PAGE, None), Construct(t, true, image),
                Constructing(g, e, tasks, t, d, published, image, Some(true)));
  }

  lemma PublishesPageOne(s: System, g: nat, e: nat, tasks: map<TaskId, Task>, t: TaskId, d: Disk, published: map<PageId, Image>, image: Image)
    requires Reaches(s, Constructing(g, e, tasks, t, d, published, image, Some(true)))
    ensures Reaches(s, Created(g, e, tasks, t, d, published, image))
  {
    hide Reaches, HeaderPageNo, Enabled, Apply, Numbering;
    TakeCreates(s, Constructing(g, e, tasks, t, d, published, image, Some(true)), FinishNew(t),
                Created(g, e, tasks, t, d, published, image));
  }

  /** With a bound of one, NewPage publishes page 1, whether or not page 1 was published before. */
  lemma CreatesPageOne(s: System, g: nat, e: nat, tasks: map<TaskId, Task>, t: TaskId, d: Disk, published: map<PageId, Image>, image: Image)
    requires t !in tasks && CountOf(d, 1) in {1, 2} && HeaderPageNo(image) == 1
    requires Reaches(s, Sys(Quiet(g, e), [0], false, map[], Open(1), tasks, None, d, published))
    ensures Reaches(s, Created(g, e, tasks, t, d, published, image))
  {
    hide *;
    AcquiresFrame(s, g, e, tasks, t, d, published);
    BindsPageOne(s, g, e, tasks, t, d, published);
    ConstructsPageOne(s, g, e, tasks, t, d, published, image);
    PublishesPageOne(s, g, e, tasks, t, d, published, image);
  }

  // ---- Releasing the guard, retiring the file with a flush ----

  function Guarded(image: Image, latch: Latch, pins: nat, files: map<nat, FileEntry>, tasks: map<TaskId, Task>, d: Disk): System
  {
    Sys(Holding(image, Resident, Idle, pins, true, 1, 1, latch), [], true, map[P := Entry(ResidentEntry, 0, None)],
        files, tasks, None, d, map[P := image])
  }

  const WAITING: map<TaskId, Task> := map[0 := Register(1, 1)]
  const RETIRING: map<nat, FileEntry> := map[1 := FileEntry(Retiring, 2, None, Some(1))]
  const JOB: Job := RetiringFile(1)

  lemma ReleasesGuard(s: System, image: Image, d: Disk)
    requires Reaches(s, Guarded(image, UNLATCHED, 1, Open(2), WAITING[1 := Pinned(0, Exclusive)], d))
    ensures Reaches(s, Guarded(image, UNLATCHED, 0, Open(2), WAITING, d))
  {
    hide Reaches, Enabled, Apply;
    var a0 := Guarded(image, UNLATCHED, 1, Open(2), WAITING[1 := Pinned(0, Exclusive)], d);
    var a1 := Guarded(image, Latch({}, Some(1)), 1, Open(2), WAITING[1 := Guard(0, Exclusive, false)], d);
    TakeGuards(s, a0, TakeLatch(1), a1);
    var a2 := Guarded(image, UNLATCHED, 1, Open(2), WAITING[1 := BufferSystem.Unpin(0)], d);
    TakeGuards(s, a1, ReleaseLatch(1), a2);
    TakeGuards(s, a2, ReleasePin(1), Guarded(image, UNLATCHED, 0, Open(2), WAITING, d));
  }

  lemma StartsRetiring(s: System, image: Image, d: Disk)
    requires Reaches(s, Guarded(image, UNLATCHED, 0, Open(2), WAITING, d))
    ensures Reaches(s, Guarded(image, UNLATCHED, 0, RETIRING, WAITING[1 := Flush(JOB, [P], false)], d))
  {
    hide Reaches, Enabled, Apply;
    var a0 := Guarded(image, UNLATCHED, 0, Open(2), WAITING, d);
    var a1 := Guarded(image, UNLATCHED, 0, RETIRING, WAITING[1 := Drain(1, false)], d);
    TakeStarts(s, a0, StartRetire(1, 1, false), a1);
    TakeCleans(s, a1, FinishDrain(1, [P]), Guarded(image, UNLATCHED, 0, RETIRING, WAITING[1 := Flush(JOB, [P], false)], d));
  }

  function Flushing(image: Image, io: Io, dirty: bool, task: Task, holder: Option<TaskId>, d: Disk): System
  {
    Sys(Holding(image, Resident, io, 0, dirty, 1, 1, UNLATCHED), [], true, map[P := Entry(ResidentEntry, 0, None)],
        RETIRING, WAITING[1 := task], holder, d, map[P := image])
  }

  function WriteOf(image: Image, progress: Progress): Task { Write(JOB, [P], false, 0, 1, 1, Finalized(image), progress) }

  /** The extended disk, with page 1 written, and then synced. */
  function WrittenDisk(image: Image): Disk
  {
    Disk(map[PageId(1, 0) := ZERO_PAGE, P := Finalized(image)], map[], map[1 := 2])
  }

  function SyncedDisk(image: Image): Disk
  {
    WrittenDisk(image).(durable := map[PageId(1, 0) := ZERO_PAGE, P := Finalized(image)])
  }

  lemma CopiesImage(s: System, image: Image, d: Disk)
    requires Reaches(s, Flushing(image, Idle, true, Flush(JOB, [P], false), None, d))
    ensures Reaches(s, Flushing(image, Writing, true, WriteOf(image, Pending), Some(1), d))
  {
    hide Reaches, Enabled, Apply, Finalized;
    var a := Flushing(image, Writing, true, Copy(JOB, [P], false, 0, 1), Some(1), d);
    TakeCleans(s, Flushing(image, Idle, true, Flush(JOB, [P], false), None, d), FlushNext(1), a);
    TakeCleans(s, a, CopyImage(1), Flushing(image, Writing, true, WriteOf(image, Pending), Some(1), d));
  }

  lemma WritesImage(s: System, image: Image)
    requires Reaches(s, Flushing(image, Writing, true, WriteOf(image, Pending), Some(1), Extended(FIRST_DISK)))
    ensures Reaches(s, Flushing(image, Writing, true, WriteOf(image, Written), Some(1), WrittenDisk(image)))
  {
    hide Reaches, Enabled, Apply, Finalized;
    assert Extended(FIRST_DISK).volatile[P := Finalized(image)] == WrittenDisk(image).volatile;
    TakeDisks(s, Flushing(image, Writing, true, WriteOf(image, Pending), Some(1), Extended(FIRST_DISK)), WriteDone(1),
              Flushing(image, Writing, true, WriteOf(image, Written), Some(1), WrittenDisk(image)));
  }

  lemma SyncsImage(s: System, image: Image)
    requires Reaches(s, Flushing(image, Writing, true, WriteOf(image, Written), Some(1), WrittenDisk(image)))
    ensures Reaches(s, Flushing(image, Writing, true, WriteOf(image, Synced), Some(1), SyncedDisk(image)))
  {
    hide Reaches, Enabled, Apply, Finalized;
    TakeDisks(s, Flushing(image, Writing, true, WriteOf(image, Written), Some(1), WrittenDisk(image)), SyncDone(1),
              Flushing(image, Writing, true, WriteOf(image, Synced), Some(1), SyncedDisk(image)));
  }

  lemma CleansFrame(s: System, image: Image, d: Disk)
    requires Reaches(s, Flushing(image, Writing, true, WriteOf(image, Synced), Some(1), d))
    ensures Reaches(s, Flushing(image, Idle, false, Flush(JOB, [], false), None, d))
  {
    hide Reaches, Enabled, Apply, Finalized;
    var a := Flushing(image, Idle, false, Flush(JOB, [P], false), None, d);
    TakeCleans(s, Flushing(image, Writing, true, WriteOf(image, Synced), Some(1), d), FinishWrite(1), a);
    assert [P][1..] == [];
    TakeCleans(s, a, FlushNext(1), Flushing(image, Idle, false, Flush(JOB, [], false), None, d));
  }

  // ---- Closing the file, and opening it again with the stale count ----

  function Closed(image: Image, files: map<nat, FileEntry>, tasks: map<TaskId, Task>): System
  {
    Sys(Quiet(1, 1), [0], false, map[], files, tasks, None, SyncedDisk(image), map[P := image])
  }

  lemma ClosesFile(s: System, image: Image)
    requires Reaches(s, Flushing(image, Idle, false, Flush(JOB, [], false), None, SyncedDisk(image)))
    ensures Reaches(s, Closed(image, map[], WAITING))
  {
    hide Reaches, Enabled, Apply, Finalized;
    var a := Flushing(image, Idle, false, Flush(JOB, [], false), None, SyncedDisk(image));
    assert FileFrames(a.pool, 1) == {0} by {
      assert P in a.pool.table && a.pool.table[P].frame == 0;
    }
    TakeCleans(s, a, FinishFlush(1, [0]), Closed(image, map[], WAITING));
  }

  lemma Reopens(s: System, image: Image)
    requires Reaches(s, Closed(image, map[], WAITING))
    ensures Reaches(s, Closed(image, Open(1), map[]))
  {
    hide Reaches, Enabled, Apply, Finalized;
    TakeFetches(s, Closed(image, map[], WAITING), FinishRegister(0), Closed(image, Open(1), map[]));
  }

  lemma OpensFirst(s: System)
    requires s == InitialSystem(1, 1, FIRST_DISK)
    ensures Reaches(s, Sys(Quiet(0, 0), [0], false, map[], Open(1), WAITING, None, FIRST_DISK, map[]))
  {
    ReachesItself(s);
    hide Reaches, Enabled, Apply;
    var a0 := Sys(Quiet(0, 0), [0], false, map[], map[], map[], None, FIRST_DISK, map[]);
    assert s.pool.frames == [EMPTY_FRAME] && s.pool.free == [0] && s.pool.clock.referenced == [false] && s.holders == [None];
    assert s == a0;
    var a1 := a0.(tasks := WAITING);
    TakeStarts(s, a0, StartRegister(0, 1), a1);
    var a2 := a0.(tasks := WAITING[1 := Register(1, 1)]);
    TakeStarts(s, a1, StartRegister(1, 1), a2);
    assert Adopted(a2, 1, 1) == map[] && a2.tasks - {1} == WAITING;
    TakeFetches(s, a2, FinishRegister(1), Sys(Quiet(0, 0), [0], false, map[], Open(1), WAITING, None, FIRST_DISK, map[]));
  }

  /** Two registrations of file 1 read its count; the second goes on to publish, flush and retire; then the first one opens it. */
  lemma ReachesStale(s: System, first: Image)
    requires s == InitialSystem(1, 1, FIRST_DISK) && HeaderPageNo(first) == 1
    ensures Reaches(s, Closed(first, Open(1), map[]))
  {
    hide Reaches, HeaderPageNo, Finalized, SyncedDisk, InitialSystem;
    OpensFirst(s);
    CreatesPageOne(s, 0, 0, WAITING, 1, FIRST_DISK, map[], first);
    assert Numbering(FIRST_DISK) == Extended(FIRST_DISK);
    ReleasesGuard(s, first, Extended(FIRST_DISK));
    StartsRetiring(s, first, Extended(FIRST_DISK));
    CopiesImage(s, first, Extended(FIRST_DISK));
    WritesImage(s, first);
    SyncsImage(s, first);
    CleansFrame(s, first, SyncedDisk(first));
    ClosesFile(s, first);
    Reopens(s, first);
  }

  /**
   * In that run page 1 was published and flushed, yet it cannot be fetched any more; and the next
   * NewPage call returns page 1 again and overwrites what was published.
   */
  lemma StaleRegistrationLosesPage(first: Image, second: Image)
    requires HeaderPageNo(first) == 1 && HeaderPageNo(second) == 1
    ensures var stale, reused := Closed(first, Open(1), map[]), Created(1, 1, map[], 0, SyncedDisk(first), map[P := first], second);
      && Reaches(InitialSystem(1, 1, FIRST_DISK), stale)
      && P in stale.published && stale.published[P] == first && SameContent(stale.disk.durable[P], first)
      && Fetchable(stale.pool, P) == Some(NotFound) && !AppendOk(stale)
      && Reaches(stale, reused)
      && reused.tasks[0] == Pinned(0, Exclusive) && reused.pool.frames[0].page == P
      && reused.published[P] == second
  {
    ReachesStale(InitialSystem(1, 1, FIRST_DISK), first) by { hide Reaches; }
    var stale := Closed(first, Open(1), map[]);
    ReachesItself(stale);
    CreatesPageOne(stale, 1, 1, map[], 0, SyncedDisk(first), map[P := first], second) by { hide Reaches, Finalized; }
    FinalizeVerifies(first);
    hide Reaches, Finalized, SameContent;
  }

  /** Two images of page 1 with different contents: what is overwritten may be lost. */
  lemma PageOneImages() returns (first: Image, second: Image)
    ensures HeaderPageNo(first) == 1 && HeaderPageNo(second) == 1 && !SameContent(first, second)
  {
    RadixValues();
    first := Bytes.Write(ZERO_PAGE, 24, LittleEndian(1, 8));
    ReadWritten(ZERO_PAGE, 24, 8, 1);
    second := Bytes.Write(first, 100, [1]);
    ReadElsewhere(first, 100, [1], 24, 8);
    assert first[100] == 0 && second[100] == 1;
    SameContentPointwise(first, second);
    hide SameContent;
  }
}
