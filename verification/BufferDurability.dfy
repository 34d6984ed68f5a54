/** An update, once published, is in a dirty frame or on the disk for good: no step lets it fall in between. */
module BufferDurability {
  import opened Basics
  import opened PageChecksum
  import opened ClockReplacement
  import opened BufferState
  import opened BufferSystem
  import opened BufferInvariant
  import opened BufferPins
  import opened BufferPreservation
  import opened BufferTheorems
  import opened BufferHistory

  // ---- What is promised of a published page ----

  /** The synced disk holds the page's last published image. */
  ghost predicate Durable(s: System, page: PageId)
  {
    && page in s.published && page in s.disk.durable
    && SameContent(s.disk.durable[page], s.published[page])
  }

  /** The update is still to be written, or the page does not rest on what registration found. */
  predicate Covered(s: System, page: PageId)
  {
    page in s.published && (DirtyInPool(s.pool, page) || page !in s.unsynced)
  }

  /** What is covered and not dirty has been written and synced. */
  lemma CoveredIsDurable(s: System, page: PageId)
    requires Inv(s) && Covered(s, page) && !DirtyInPool(s.pool, page)
    ensures Durable(s, page)
  {
    InvParts(s);
    PageAt(s, page) by { hide Inv, TaskOk, PinsOk, LatchesOk; }
    hide Inv, Core, PinsOk, LatchesOk, SameContent;
  }

  // ---- A dirty frame ----

  /** The page is in frame `f`, nowhere else, with changes to write. */
  ghost predicate Lodged(s: System, page: PageId, f: nat)
  {
    && page in s.pool.table && s.pool.table[page].frame == f < |s.pool.frames|
    && s.pool.table[page].state in {ResidentEntry, EvictingEntry}
    && s.pool.frames[f].page == page && s.pool.frames[f].state in {Resident, Evicting} && s.pool.frames[f].dirty
    && page.file in s.pool.files && page.no < s.pool.files[page.file].bound
    && (forall h :: 0 <= h < |s.pool.frames| && s.pool.frames[h].page == page && s.pool.frames[h].state != Free ==> h == f)
    && (forall q :: q in s.pool.table && s.pool.table[q].state == ResidentEntry && s.pool.table[q].frame == f ==> q == page)
  }

  lemma DirtyIsLodged(s: System, page: PageId)
    requires Inv(s) && DirtyInPool(s.pool, page)
    ensures Lodged(s, page, s.pool.table[page].frame)
  {
    InvParts(s);
    EntryAt(s, page) by { hide Inv, PinsOk, LatchesOk, TaskOk; }
    forall h | 0 <= h < |s.pool.frames| && s.pool.frames[h].page == page && s.pool.frames[h].state != Free
      ensures h == s.pool.table[page].frame
    {
      FrameAt(s, h) by { hide Inv, PinsOk, LatchesOk, TaskOk, EntryOk; }
      hide Inv, Core, PinsOk, LatchesOk, EntryOk, SameContent;
    }
    forall q | q in s.pool.table && s.pool.table[q].state == ResidentEntry && s.pool.table[q].frame == s.pool.table[page].frame
      ensures q == page
    {
      EntryAt(s, q) by { hide Inv, PinsOk, LatchesOk, TaskOk, EntryOk; }
      hide Inv, Core, PinsOk, LatchesOk;
    }
    hide Inv, Core, PinsOk, LatchesOk;
  }

  // ---- Each step keeps a dirty frame dirty, or has its image synced ----

  predicate Kept(s': System, page: PageId) { DirtyInPool(s'.pool, page) || page !in s'.unsynced }

  lemma KeptByStarts(s: System, step: Start, page: PageId, f: nat)
    requires s.Wf() && StartsEnabled(s, step) && Lodged(s, page, f)
    ensures Kept(ApplyStarts(s, step), page)
  {}

  lemma KeptByBind(s: System, t: TaskId, page: PageId, f: nat)
    requires s.Wf() && CanBind(s, t) && Knows(s, t) && Lodged(s, page, f)
    ensures Kept(DoBind(s, t), page)
  {
    hide SameContent, LoadOk;
  }

  lemma KeptByFinishLoad(s: System, t: TaskId, page: PageId, f: nat)
    requires s.Wf() && CanFinishLoad(s, t) && Knows(s, t) && Lodged(s, page, f)
    ensures Kept(DoFinishLoad(s, t), page)
  {
    hide SameContent, LoadOk;
  }

  lemma KeptByOtherFetches(s: System, step: Fetching, page: PageId, f: nat)
    requires s.Wf() && FetchesEnabled(s, step) && !step.Bind? && !step.FinishLoad? && Lodged(s, page, f)
    ensures Kept(ApplyFetches(s, step), page)
  {
    hide Verifies;
  }

  lemma KeptByFetches(s: System, step: Fetching, page: PageId, f: nat)
    requires s.Wf() && FetchesEnabled(s, step) && Knows(s, step.t) && Lodged(s, page, f)
    ensures Kept(ApplyFetches(s, step), page)
  {
    hide Kept, Lodged, Knows, DoBind, DoFinishLoad, DoFinishRegister, DoExamine, DoWake, DoReadPage;
    match step {
      case Bind(t) => KeptByBind(s, t, page, f);
      case FinishLoad(t) => KeptByFinishLoad(s, t, page, f);
      case _ => KeptByOtherFetches(s, step, page, f);
    }
  }

  /** Giving up a load removes an intent, which no frame is bound to. */
  lemma KeptByGivingUp(s: System, t: TaskId, want: Want, page: PageId, f: nat)
    requires s.Wf() && WantOk(s, t, want) && DirtyInPool(s.pool, page)
    ensures Kept(GiveUp(s, t, want), page)
  {}

  lemma KeptByReserving(s: System, t: TaskId, want: Want, h: nat, page: PageId, f: nat)
    requires s.Wf() && h < |s.pool.frames| && s.pool.frames[h].state == Resident && Lodged(s, page, f)
    ensures Kept(Reserve(s, t, want, h), page)
  {}

  lemma KeptBySearch(s: System, t: TaskId, page: PageId, f: nat)
    requires s.Wf() && CanSearch(s, t) && Knows(s, t) && Lodged(s, page, f)
    ensures Kept(DoSearch(s, t), page)
  {
    FindSound(s.pool.clock, Eligibility(s.pool)) by { hide Knows, Lodged; }
    var found := Find(s.pool.clock, Eligibility(s.pool));
    var moved := s.(pool := s.pool.(clock := found.clock));
    var want := s.tasks[t].want;
    assert WantOk(s, t, want) by { hide LoadOk, FrameOk, Find, Lodged; }
    assert moved.Wf() && WantOk(moved, t, want) && Lodged(moved, page, f) by { hide Knows, Find; }
    KeptByGivingUp(moved, t, want, page, f) by { hide Knows, Find, WantOk; }
    if found.candidate.Some? {
      KeptByReserving(moved, t, want, found.candidate.value, page, f) by { hide Knows, Find, WantOk, Lodged; }
    }
    assert DirtyInPool(s.pool, page) by { hide Knows, Find, WantOk; }
    hide Knows, Find, GiveUp, Reserve, WantOk, Lodged;
  }

  lemma KeptByObserve(s: System, t: TaskId, page: PageId, f: nat)
    requires s.Wf() && CanObserve(s, t) && Lodged(s, page, f)
    ensures Kept(DoObserve(s, t), page)
  {}

  lemma KeptByRecheck(s: System, t: TaskId, page: PageId, f: nat)
    requires s.Wf() && CanRecheck(s, t) && Lodged(s, page, f)
    ensures Kept(DoRecheck(s, t), page)
  {}

  lemma KeptByBeginEvict(s: System, t: TaskId, page: PageId, f: nat)
    requires s.Wf() && CanBeginEvict(s, t) && Knows(s, t) && Lodged(s, page, f)
    ensures Kept(DoBeginEvict(s, t), page)
  {
    hide SameContent, ProgressOk, JobOk, LoadOk, WantOk, Finalized;
  }

  /** A successful eviction has synced what it wrote. */
  lemma KeptByFinishEvict(s: System, t: TaskId, page: PageId, f: nat)
    requires s.Wf() && CanFinishEvict(s, t) && Knows(s, t) && Lodged(s, page, f)
    ensures Kept(DoFinishEvict(s, t), page)
  {
    var g := s.tasks[t].frame;
    assert g < |s.pool.frames| && s.pool.frames[g].state == Evicting && s.pool.frames[g].page == s.tasks[t].victim
      && WantOk(s, t, s.tasks[t].want) && (s.tasks[t].progress == Synced ==> s.tasks[t].victim !in s.unsynced) by
    {
      hide SameContent, LoadOk, FrameOk, Lodged;
    }
    if s.tasks[t].progress == Failed {
      var restored := s.(pool := RestoreVictim(s.pool, g)).Hold(g, None);
      assert DirtyInPool(restored.pool, page) by { hide Knows; }
      assert WantOk(restored, t, s.tasks[t].want) by { hide Knows; }
      KeptByGivingUp(restored, t, s.tasks[t].want, page, f) by { hide Knows; }
    }
    hide Knows, GiveUp, WantOk;
  }

  lemma KeptByReplaces(s: System, step: Replacing, page: PageId, f: nat)
    requires s.Wf() && ReplacesEnabled(s, step) && Knows(s, step.t) && Lodged(s, page, f)
    ensures Kept(ApplyReplaces(s, step), page)
  {
    hide Kept, Lodged, Knows, CanObserve, DoSearch, DoObserve, DoRecheck, DoBeginEvict, DoFinishEvict;
    match step {
      case Search(t) => KeptBySearch(s, t, page, f);
      case Observe(t) => KeptByObserve(s, t, page, f);
      case Recheck(t) => KeptByRecheck(s, t, page, f);
      case BeginEvict(t) => KeptByBeginEvict(s, t, page, f);
      case FinishEvict(t) => KeptByFinishEvict(s, t, page, f);
    }
  }

  lemma KeptByNumber(s: System, t: TaskId, ok: bool, page: PageId, f: nat)
    requires s.Wf() && CanNumber(s, t) && Lodged(s, page, f)
    ensures Kept(DoNumber(s, t, ok), page)
  {}

  lemma KeptByBindPage(s: System, t: TaskId, page: PageId, f: nat)
    requires s.Wf() && CanBindPage(s, t) && Knows(s, t) && Lodged(s, page, f)
    ensures Kept(DoBindPage(s, t), page)
  {
    hide SameContent, LoadOk;
  }

  lemma KeptByFinishNew(s: System, t: TaskId, page: PageId, f: nat)
    requires s.Wf() && CanFinishNew(s, t) && Knows(s, t) && Lodged(s, page, f)
    ensures Kept(DoFinishNew(s, t), page)
  {
    hide SameContent, LoadOk;
  }

  lemma KeptByCreates(s: System, step: Creating, page: PageId, f: nat)
    requires s.Wf() && CreatesEnabled(s, step) && Knows(s, step.t) && Lodged(s, page, f)
    ensures Kept(ApplyCreates(s, step), page)
  {
    match step {
      case TakeTurn(t) => assert Kept(DoTakeTurn(s, t), page) by { hide Knows; }
      case Number(t, ok) => KeptByNumber(s, t, ok, page, f) by { hide Knows, Lodged; }
      case BindPage(t) => KeptByBindPage(s, t, page, f) by { hide Knows, Lodged; }
      case Construct(t, built, bytes) => assert Kept(DoConstruct(s, t, built, bytes), page) by { hide Knows; }
      case FinishNew(t) => KeptByFinishNew(s, t, page, f) by { hide Knows, Lodged; }
    }
    hide Knows, Kept, Lodged, DoTakeTurn, DoNumber, DoBindPage, DoConstruct, DoFinishNew;
  }

  lemma KeptByGuards(s: System, step: Guarding, page: PageId, f: nat)
    requires s.Wf() && GuardsEnabled(s, step) && Lodged(s, page, f)
    ensures Kept(ApplyGuards(s, step), page)
  {}

  /** A frame is cleaned only after its image was synced. */
  lemma KeptByFinishWrite(s: System, t: TaskId, page: PageId, f: nat)
    requires s.Wf() && CanFinishWrite(s, t) && Knows(s, t) && Lodged(s, page, f)
    ensures Kept(DoFinishWrite(s, t), page)
  {
    assert ProgressOk(s, s.tasks[t].pages[0], s.tasks[t].image, s.tasks[t].progress) by { hide SameContent, LoadOk, FrameOk, JobOk; }
    hide Knows;
  }

  /** A file that is closed after its flush has no dirty page left. */
  lemma KeptByFinishFlush(s: System, t: TaskId, freed: seq<nat>, page: PageId, f: nat)
    requires s.Wf() && CanFinishFlush(s, t, freed) && Knows(s, t) && Lodged(s, page, f)
    ensures Kept(DoFinishFlush(s, t, freed), page)
  {
    var job := s.tasks[t].job;
    if job.RetiringFile? && !s.tasks[t].failed {
      assert Drained(s.pool, job.file) && Listed(s, Some(job.file), [], false) by { hide LoadOk, FrameOk, EnumeratesFrames, Lodged; }
      var g := job.file;
      assert page.file != g by {
        assert page.file == g ==> Matches(s.pool, Some(g), page);
        hide Knows, EnumeratesFrames;
      }
      KeptByClosing(s, job.file, freed, page, f) by { hide Knows, EnumeratesFrames, Lodged, Drained; }
    }
    hide Knows, Drained, Listed, EnumeratesFrames, CloseFile, Lodged;
    assert DirtyInPool(s.pool, page) by { hide Knows, Drained, Listed, EnumeratesFrames, CloseFile; }
  }

  lemma KeptByClosing(s: System, g: nat, freed: seq<nat>, page: PageId, f: nat)
    requires s.Wf() && Drained(s.pool, g) && Lodged(s, page, f) && page.file != g
    ensures DirtyInPool(CloseFile(s.pool, g, freed), page)
  {
    assert f !in FileFrames(s.pool, g);
  }

  lemma KeptByDisks(s: System, step: DiskStep, page: PageId)
    requires s.Wf() && DisksEnabled(s, step) && DirtyInPool(s.pool, page)
    ensures Kept(ApplyDisks(s, step), page)
  {}

  lemma KeptByOtherCleans(s: System, step: Cleaning, page: PageId, f: nat)
    requires s.Wf() && CleansEnabled(s, step) && !step.FinishWrite? && !step.FinishFlush? && !step.DiscardDrained? && Lodged(s, page, f)
    ensures Kept(ApplyCleans(s, step), page)
  {
    hide Drained, NoIo, AllDrained, AllIdle, Enumerates;
  }

  lemma KeptByCleans(s: System, step: Cleaning, page: PageId, f: nat)
    requires s.Wf() && CleansEnabled(s, step) && !step.DiscardDrained? && Knows(s, step.t) && Lodged(s, page, f)
    ensures Kept(ApplyCleans(s, step), page)
  {
    hide Kept, Lodged, Knows, DoFinishWrite, DoFinishFlush, CanFinishFlush, Drained, NoIo, AllDrained, AllIdle, Enumerates;
    match step {
      case FinishWrite(t) => KeptByFinishWrite(s, t, page, f);
      case FinishFlush(t, freed) => KeptByFinishFlush(s, t, freed, page, f);
      case _ => KeptByOtherCleans(s, step, page, f);
    }
  }

  // ---- Over a run ----

  predicate Discards(s: System, l: Label, page: PageId)
  {
    match l
    case Cleans(DiscardDrained(t, _)) => t in s.tasks && s.tasks[t].Drain? && s.tasks[t].file == page.file
    case _ => false
  }

  /** A successful MarkDirty or NewPage of `page`. */
  predicate Publishes(s: System, l: Label, page: PageId)
  {
    match l
    case Guards(MarkDirty(t)) =>
      t in s.tasks && s.tasks[t].Guard? && s.tasks[t].frame < |s.pool.frames| && s.pool.frames[s.tasks[t].frame].page == page
    case Creates(FinishNew(t)) =>
      && t in s.tasks && s.tasks[t].Build? && s.tasks[t].page == page && s.tasks[t].built == Some(true)
      && page.file in s.pool.files && s.pool.files[page.file].state == Active
    case _ => false
  }

  lemma UnsyncedByRegister(s: System, t: TaskId, page: PageId)
    requires s.Wf() && CanFinishRegister(s, t) && page in s.published && page !in s.unsynced
    ensures page !in DoFinishRegister(s, t).unsynced
  {}

  lemma UnsyncedByFetches(s: System, step: Fetching, page: PageId)
    requires s.Wf() && FetchesEnabled(s, step) && page in s.published && page !in s.unsynced
    ensures page !in ApplyFetches(s, step).unsynced
  {
    if step.FinishRegister? { UnsyncedByRegister(s, step.t, page); }
    hide DoFinishRegister, Verifies;
  }

  lemma UnsyncedByReplaces(s: System, step: Replacing)
    requires s.Wf() && ReplacesEnabled(s, step)
    ensures ApplyReplaces(s, step).unsynced == s.unsynced
  {}

  lemma UnsyncedByCreates(s: System, step: Creating)
    requires s.Wf() && CreatesEnabled(s, step)
    ensures ApplyCreates(s, step).unsynced == s.unsynced
  {}

  lemma UnsyncedByCleans(s: System, step: Cleaning)
    requires s.Wf() && CleansEnabled(s, step)
    ensures ApplyCleans(s, step).unsynced == s.unsynced
  {
    hide Drained, NoIo, AllDrained, AllIdle, Enumerates, EnumeratesFrames, CloseFile, Matches;
  }

  lemma UnsyncedByDisks(s: System, step: DiskStep)
    requires s.Wf() && DisksEnabled(s, step)
    ensures ApplyDisks(s, step).unsynced <= s.unsynced
  {}

  /** Only registration marks pages as resting on the disk it found, and only pages that were unpublished. */
  lemma UnsyncedStays(s: System, l: Label, page: PageId)
    requires s.Wf() && Enabled(s, l) && page in s.published && page !in s.unsynced
    ensures page !in Apply(s, l).unsynced
  {
    match l {
      case Starts(step) => assert ApplyStarts(s, step).unsynced == s.unsynced;
      case Fetches(step) => UnsyncedByFetches(s, step, page);
      case Replaces(step) => UnsyncedByReplaces(s, step);
      case Creates(step) => UnsyncedByCreates(s, step);
      case Guards(step) => assert ApplyGuards(s, step).unsynced == s.unsynced;
      case Cleans(step) => UnsyncedByCleans(s, step);
      case Disks(step) => UnsyncedByDisks(s, step);
    }
    hide StartsEnabled, FetchesEnabled, ReplacesEnabled, CreatesEnabled, GuardsEnabled, CleansEnabled, DisksEnabled,
         ApplyStarts, ApplyFetches, ApplyReplaces, ApplyCreates, ApplyGuards, ApplyCleans, ApplyDisks;
  }

  /** A published page stays published unless its file is discarded. */
  lemma PublishedStays(s: System, l: Label, page: PageId)
    requires s.Wf() && Enabled(s, l) && page in s.published && !Discards(s, l, page)
    ensures page in Apply(s, l).published
  {
    if Publication(l) {
      match l {
        case Guards(MarkDirty(t)) => assert page in DoMarkDirty(s, t).published;
        case Creates(FinishNew(t)) => assert page in DoFinishNew(s, t).published;
        case Fetches(FinishRegister(t)) => RegistrationAdopts(s, t, page) by { hide DoFinishRegister; }
        case Cleans(DiscardDrained(t, freed)) =>
          DiscardDrops(s, t, freed, page) by { hide CanDiscard, DoDiscard; }
          assert !Matches(s.pool, Some(s.tasks[t].file), page) by { hide DoDiscard, Drained, NoIo, EnumeratesFrames; }
      }
    } else {
      OnlyPublicationsChange(s, l) by { hide Enabled, Apply; }
    }
    hide DoMarkDirty, DoFinishNew, DoFinishRegister, DoDiscard, CanDiscard, Enabled;
  }

  /** Every step of any task keeps a covered page covered, unless it discards the page's file. */
  lemma CoveredStays(s: System, l: Label, page: PageId)
    requires s.Wf() && Inv(s) && Enabled(s, l) && Covered(s, page) && !Discards(s, l, page)
    ensures Covered(Apply(s, l), page)
  {
    PublishedStays(s, l, page) by { hide Inv, Enabled, Apply, DirtyInPool; }
    if page !in s.unsynced {
      UnsyncedStays(s, l, page) by { hide Inv, Enabled, Apply, DirtyInPool, Discards; }
    } else {
      DirtyStays(s, l, page) by { hide Inv, Enabled, Apply, DirtyInPool; }
    }
    hide Inv, Enabled, Apply, DirtyInPool;
  }

  lemma DirtyStays(s: System, l: Label, page: PageId)
    requires s.Wf() && Inv(s) && Enabled(s, l) && DirtyInPool(s.pool, page) && !Discards(s, l, page)
    ensures Kept(Apply(s, l), page)
  {
    var f := s.pool.table[page].frame;
    DirtyIsLodged(s, page) by { hide Inv; }
    match l {
      case Starts(step) => KeptByStarts(s, step, page, f) by { hide Inv, StartsEnabled, Lodged; }
      case Fetches(step) => DirtyByFetches(s, step, page, f) by { hide Inv, FetchesEnabled, Lodged; }
      case Replaces(step) => DirtyByReplaces(s, step, page, f) by { hide Inv, ReplacesEnabled, Lodged; }
      case Creates(step) => DirtyByCreates(s, step, page, f) by { hide Inv, CreatesEnabled, Lodged; }
      case Guards(step) => KeptByGuards(s, step, page, f) by { hide Inv, GuardsEnabled, Lodged; }
      case Cleans(step) => DirtyByCleans(s, step, page, f) by { hide Inv, CleansEnabled, Lodged; }
      case Disks(step) => KeptByDisks(s, step, page) by { hide Inv, DisksEnabled, Lodged; }
    }
    hide Inv, Core, Knows, Lodged, Kept, ApplyStarts, ApplyFetches, ApplyReplaces, ApplyCreates, ApplyGuards, ApplyCleans, ApplyDisks,
         StartsEnabled, FetchesEnabled, ReplacesEnabled, CreatesEnabled, GuardsEnabled, CleansEnabled, DisksEnabled;
  }

  lemma DirtyByFetches(s: System, step: Fetching, page: PageId, f: nat)
    requires s.Wf() && Inv(s) && FetchesEnabled(s, step) && Lodged(s, page, f)
    ensures Kept(ApplyFetches(s, step), page)
  {
    assert step.t in s.tasks by { hide Inv; }
    TaskKnown(s, step.t) by { hide Inv, FetchesEnabled; }
    KeptByFetches(s, step, page, f) by { hide Inv, Core, Knows, FetchesEnabled; }
    hide Inv, Core, Knows, Lodged, Kept, ApplyFetches, FetchesEnabled;
  }

  lemma DirtyByReplaces(s: System, step: Replacing, page: PageId, f: nat)
    requires s.Wf() && Inv(s) && ReplacesEnabled(s, step) && Lodged(s, page, f)
    ensures Kept(ApplyReplaces(s, step), page)
  {
    assert step.t in s.tasks by { hide Inv; }
    TaskKnown(s, step.t) by { hide Inv, ReplacesEnabled; }
    KeptByReplaces(s, step, page, f) by { hide Inv, Core, Knows, ReplacesEnabled; }
    hide Inv, Core, Knows, Lodged, Kept, ApplyReplaces, ReplacesEnabled;
  }

  lemma DirtyByCreates(s: System, step: Creating, page: PageId, f: nat)
    requires s.Wf() && Inv(s) && CreatesEnabled(s, step) && Lodged(s, page, f)
    ensures Kept(ApplyCreates(s, step), page)
  {
    assert step.t in s.tasks by { hide Inv; }
    TaskKnown(s, step.t) by { hide Inv, CreatesEnabled; }
    KeptByCreates(s, step, page, f) by { hide Inv, Core, Knows, CreatesEnabled; }
    hide Inv, Core, Knows, Lodged, Kept, ApplyCreates, CreatesEnabled;
  }

  lemma DirtyByCleans(s: System, step: Cleaning, page: PageId, f: nat)
    requires s.Wf() && Inv(s) && CleansEnabled(s, step) && Lodged(s, page, f) && !Discards(s, Cleans(step), page)
    ensures Kept(ApplyCleans(s, step), page)
  {
    assert step.t in s.tasks by { hide Inv, Drained, NoIo, AllDrained, AllIdle, Enumerates, EnumeratesFrames; }
    TaskKnown(s, step.t) by { hide Inv, CleansEnabled; }
    if step.DiscardDrained? {
      DirtyByDiscard(s, step.t, step.freed, page, f) by { hide Inv, Core, Knows, CanDiscard, Lodged; }
    } else {
      KeptByCleans(s, step, page, f) by { hide Inv, Core, Knows, CleansEnabled; }
    }
    hide Inv, Core, Knows, Lodged, Kept, CanDiscard, DoDiscard;
  }

  lemma DirtyByDiscard(s: System, t: TaskId, freed: seq<nat>, page: PageId, f: nat)
    requires s.Wf() && CanDiscard(s, t, freed) && Lodged(s, page, f) && !Discards(s, Cleans(DiscardDrained(t, freed)), page)
    ensures Kept(DoDiscard(s, t, freed), page)
  {
    KeptByClosing(s, s.tasks[t].file, freed, page, f) by { hide Lodged, NoIo, EnumeratesFrames; }
    hide Lodged, NoIo, Drained, EnumeratesFrames, CloseFile;
  }

  /** A publication leaves its page in a dirty frame. */
  lemma PublicationCovers(s: System, l: Label, page: PageId)
    requires s.Wf() && Inv(s) && Enabled(s, l) && Publishes(s, l, page)
    ensures Covered(Apply(s, l), page)
  {
    match l {
      case Guards(MarkDirty(t)) => MarkDirtyCovers(s, t, page) by { hide Inv; }
      case Creates(FinishNew(t)) => NewPageCovers(s, t, page) by { hide Inv; }
    }
    hide Inv, Covered, DoMarkDirty, DoFinishNew;
  }

  lemma MarkDirtyCovers(s: System, t: TaskId, page: PageId)
    requires s.Wf() && Inv(s) && CanMutate(s, t) && Publishes(s, Guards(MarkDirty(t)), page)
    ensures Covered(DoMarkDirty(s, t), page)
  {
    PinnedFrame(s, t) by { hide Inv; }
    InvParts(s) by { hide Inv; }
    FrameAt(s, s.tasks[t].frame) by { hide Inv, PinsOk, LatchesOk, TaskOk; }
    hide Inv, Core, PinsOk, LatchesOk, SameContent;
  }

  lemma NewPageCovers(s: System, t: TaskId, page: PageId)
    requires s.Wf() && Inv(s) && CanFinishNew(s, t) && Publishes(s, Creates(FinishNew(t)), page)
    ensures Covered(DoFinishNew(s, t), page)
  {
    TaskKnown(s, t) by { hide Inv; }
    hide Inv, Core, FrameOk, LoadOk;
  }

  ghost predicate NeverDiscarded(s: System, labels: seq<Label>, page: PageId)
    requires Runs(s, labels)
    decreases |labels|
  {
    |labels| == 0 || (!Discards(s, labels[0], page) && NeverDiscarded(Apply(s, labels[0]), labels[1..], page))
  }

  lemma {:induction false} CoveredOverRun(s: System, labels: seq<Label>, page: PageId)
    requires Inv(s) && Runs(s, labels) && NeverDiscarded(s, labels, page) && Covered(s, page)
    ensures Inv(After(s, labels)) && Covered(After(s, labels), page)
    decreases |labels|
  {
    if |labels| > 0 {
      StepKeeps(s, labels[0]) by { hide Inv, Enabled, Covered, Discards; }
      CoveredStays(s, labels[0], page) by { hide Inv, Enabled, Covered, Discards; }
      CoveredOverRun(Apply(s, labels[0]), labels[1..], page) by { hide Inv, Enabled, Covered, Discards, Apply; }
    }
    hide Inv, Enabled, Apply, Covered, Discards;
  }

  /**
   * An update published by MarkDirty or NewPage, whatever runs afterwards short of discarding its
   * file: the page is in a dirty frame, or the synced disk holds its last published image. It is on
   * the disk for certain once its file has been retired or the pool shut down.
   */
  lemma UpdatesReachDisk(s: System, l: Label, labels: seq<Label>, page: PageId)
    requires s.Wf() && Inv(s) && Enabled(s, l) && Publishes(s, l, page)
    requires Runs(Apply(s, l), labels) && NeverDiscarded(Apply(s, l), labels, page)
    ensures var r := After(Apply(s, l), labels);
      && page in r.published && (DirtyInPool(r.pool, page) || Durable(r, page))
      && (page.file !in r.pool.files || r.closed ==> Durable(r, page))
  {
    var r := After(Apply(s, l), labels);
    StepKeeps(s, l) by { hide Inv, Enabled, Apply, Publishes, NeverDiscarded; }
    PublicationCovers(s, l, page) by { hide Inv, Enabled, Apply, Covered, NeverDiscarded; }
    CoveredOverRun(Apply(s, l), labels, page) by { hide Inv, Enabled, Apply, Covered, NeverDiscarded, Publishes; }
    if !DirtyInPool(r.pool, page) { CoveredIsDurable(r, page) by { hide Inv, Enabled, Apply, Covered, DirtyInPool, Runs, After; } }
    if page.file !in r.pool.files || r.closed { NotDirtyWhenClosed(r, page) by { hide Inv, Enabled, Apply, Runs, After; } }
    hide Inv, Enabled, Apply, DirtyInPool, Durable, Runs, After, Publishes, NeverDiscarded;
  }

  lemma NotDirtyWhenClosed(s: System, page: PageId)
    requires Inv(s) && (page.file !in s.pool.files || s.closed)
    ensures !DirtyInPool(s.pool, page)
  {
    InvParts(s) by { hide Inv; }
    if page in s.pool.table { EntryAt(s, page) by { hide Inv, PinsOk, LatchesOk, TaskOk; } }
    assert ClosedOk(s) by { hide Inv, PinsOk, LatchesOk, TaskOk, ClosedOk; }
    hide Inv, Core, PinsOk, LatchesOk;
  }

  /** Clean means durable: an update is on the synced disk by the time its frame is clean. */
  lemma CleanUpdateIsDurable(s: System, l: Label, labels: seq<Label>, f: nat)
    requires s.Wf() && Inv(s) && Enabled(s, l) && Runs(Apply(s, l), labels)
    requires var r := After(Apply(s, l), labels);
      f < |r.pool.frames| && r.pool.frames[f].state in {Resident, Evicting} && !r.pool.frames[f].dirty
    requires var page := After(Apply(s, l), labels).pool.frames[f].page;
      Publishes(s, l, page) && NeverDiscarded(Apply(s, l), labels, page)
    ensures var r := After(Apply(s, l), labels);
      Durable(r, r.pool.frames[f].page)
  {
    var r := After(Apply(s, l), labels);
    var page := r.pool.frames[f].page;
    UpdatesReachDisk(s, l, labels, page) by { hide Inv, Enabled, Apply, Publishes, NeverDiscarded, Durable, Runs, After; }
    StepKeeps(s, l) by { hide Inv, Enabled, Apply, Publishes, NeverDiscarded, Runs, After; }
    RunKeeps(Apply(s, l), labels) by { hide Inv, Enabled, Apply, Publishes, NeverDiscarded, Runs, After; }
    CleanIsNotDirty(r, f) by { hide Inv, Enabled, Apply, Publishes, NeverDiscarded, Runs, After; }
    hide *;
  }

  lemma CleanIsNotDirty(s: System, f: nat)
    requires Inv(s) && f < |s.pool.frames| && s.pool.frames[f].state in {Resident, Evicting} && !s.pool.frames[f].dirty
    ensures !DirtyInPool(s.pool, s.pool.frames[f].page)
  {
    InvParts(s) by { hide Inv; }
    FrameAt(s, f) by { hide Inv, PinsOk, LatchesOk, TaskOk; }
    hide Inv, Core, PinsOk, LatchesOk, SameContent;
  }
}
