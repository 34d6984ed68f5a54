/** Steps confined to one task, one frame, one page and one file. */
module BufferLocal {
  import opened Basics
  import opened PageChecksum
  import opened ClockReplacement
  import opened BufferState
  import opened BufferSystem
  import opened BufferInvariant
  import opened BufferRely

  /** Nothing changes outside task `t`, frame `f`, page `p` and file `g`. */
  ghost predicate Confined(s: System, s': System, t: TaskId, f: nat, p: PageId, g: nat)
  {
    && s.Wf() && s'.Wf() && |s'.pool.frames| == |s.pool.frames| && f < |s.pool.frames|
    && s'.pool.maxPins == s.pool.maxPins && s'.pool.quiescing == s.pool.quiescing
    && s'.disk == s.disk && s'.unsynced == s.unsynced && s'.closed == s.closed
    && (forall u :: u in s.tasks && u != t ==> u in s'.tasks && s'.tasks[u] == s.tasks[u])
    && (forall u :: u in s'.tasks && u != t ==> u in s.tasks)
    && (forall h :: 0 <= h < |s.pool.frames| && h != f ==>
          s'.pool.frames[h] == s.pool.frames[h] && s'.holders[h] == s.holders[h] && (h in s'.pool.free <==> h in s.pool.free))
    && (forall q :: q in s.pool.table && q != p ==> q in s'.pool.table && s'.pool.table[q] == s.pool.table[q])
    && (forall q :: q in s'.pool.table && q != p ==> q in s.pool.table)
    && (forall k :: k in s.pool.files && k != g ==> k in s'.pool.files && s'.pool.files[k] == s.pool.files[k])
    && (forall k :: k in s'.pool.files && k != g ==> k in s.pool.files)
    && (forall l :: l in s.pool.loads && l != t ==> l in s'.pool.loads && s'.pool.loads[l] == s.pool.loads[l])
    && (forall l :: l in s'.pool.loads && l != t ==> l in s.pool.loads)
    && (t in s.pool.loads ==> t in s'.pool.loads)
    && (forall q :: q in s.published && q != p ==> q in s'.published && s'.published[q] == s.published[q])
    && (forall q :: q in s'.published && q != p ==> q in s.published)
    && (p in s.published ==> p in s'.published)
  }

  predicate SameEntry(s: System, s': System, p: PageId)
  {
    (p in s'.pool.table <==> p in s.pool.table) && (p in s.pool.table ==> s'.pool.table[p] == s.pool.table[p])
  }

  predicate SamePublished(s: System, s': System, p: PageId)
  {
    (p in s'.published <==> p in s.published) && (p in s.published ==> s'.published[p] == s.published[p])
  }

  /** The task plays the same part for the table, the files and the loads as before. */
  predicate SameRole(s: System, s': System, t: TaskId)
    requires t in s.tasks
  {
    && t in s'.tasks && LoaderOf(s'.tasks[t]) == LoaderOf(s.tasks[t])
    && (LoaderOf(s.tasks[t]).Some? ==> WantOf(s'.tasks[t]).Some? == WantOf(s.tasks[t]).Some?) && s'.tasks[t].LoadRead? == s.tasks[t].LoadRead?
    && CreatorOf(s'.tasks[t]) == CreatorOf(s.tasks[t])
  }

  /** What the step does change is its own: nobody else relies on it. */
  ghost predicate Owns(s: System, s': System, t: TaskId, f: nat, p: PageId, g: nat)
    requires s.Wf() && s'.Wf() && |s'.pool.frames| == |s.pool.frames| && f < |s.pool.frames|
  {
    && (s.pool.frames[f] == s'.pool.frames[f] || s.pool.frames[f].page == p || s.pool.frames[f].state == Free)
    && (Other(s.holders[f], t) ==> SparesFrame(s, s', f))
    && (SameEntry(s, s', p) || (p in s.pool.table && s.pool.table[p].state != IntentEntry ==> s.pool.table[p].frame == f))
    && (p in s.pool.table && Other(s.pool.table[p].load, t) ==> SameEntry(s, s', p))
    && (SamePublished(s, s', p) || (p in s.pool.table && s.pool.table[p].state != IntentEntry && s.pool.table[p].frame == f))
    && (g in s.pool.files ==>
          && g in s'.pool.files && s'.pool.files[g].state == s.pool.files[g].state
          && s'.pool.files[g].retirer == s.pool.files[g].retirer && s.pool.files[g].bound <= s'.pool.files[g].bound
          && (Other(s.pool.files[g].creator, t) ==> s'.pool.files[g] == s.pool.files[g]))
    && (t in s.tasks ==>
          && (SameRole(s, s', t) || (LoaderOf(s.tasks[t]) in {None, Some(p)} && CreatorOf(s.tasks[t]) in {None, Some(g)}))
          && FrameOf(s.tasks[t]) in {None, Some(f)})
    && (forall u :: u != t && Latched(s.pool.frames[f].latch, u) ==> SparesGuard(s, s', f, u))
  }

  ghost predicate Owning(s: System, s': System, t: TaskId, f: nat, p: PageId, g: nat)
    requires s.Wf() && s'.Wf() && |s'.pool.frames| == |s.pool.frames| && f < |s.pool.frames|
  {
    Owns(s, s', t, f, p, g) && SparesDrains(s, s', t)
  }

  /** The changed parts satisfy the invariant again. */
  ghost predicate Restored(s': System, t: TaskId, f: nat, p: PageId, g: nat)
    requires s'.Wf() && f < |s'.pool.frames|
  {
    && FrameOk(s', f)
    && (p in s'.pool.table ==> EntryOk(s', p))
    && (g in s'.pool.files ==> FileOk(s', g))
    && (t in s'.pool.loads ==> LoadOk(s', t))
    && (p in s'.published ==> PageOk(s', p))
    && FreeOk(s') && ClosedOk(s')
    && (s'.holders[f].Some? ==> s'.holders[f].value in s'.tasks && FrameOf(s'.tasks[s'.holders[f].value]) == Some(f))
  }

  ghost predicate LocalStep(s: System, s': System, t: TaskId, f: nat, p: PageId, g: nat)
  {
    Confined(s, s', t, f, p, g) && Owning(s, s', t, f, p, g) && Restored(s', t, f, p, g)
  }

  lemma UnchangedFrame(s: System, s': System, h: nat)
    requires s.Wf() && s'.Wf() && |s'.pool.frames| == |s.pool.frames| && h < |s.pool.frames| && FrameOk(s, h)
    requires s'.pool.frames[h] == s.pool.frames[h] && s'.holders[h] == s.holders[h]
    requires h in s'.pool.free <==> h in s.pool.free
    requires s.pool.frames[h].state == Free
      || (SameEntry(s, s', s.pool.frames[h].page) && SamePublished(s, s', s.pool.frames[h].page))
    ensures FrameOk(s', h)
  {
    hide SameContent;
  }

  lemma LocalFrame(s: System, s': System, t: TaskId, f: nat, p: PageId, g: nat, h: nat)
    requires StateOk(s) && LocalStep(s, s', t, f, p, g) && h < |s.pool.frames| && h != f
    ensures FrameOk(s', h)
  {
    FrameAt(s, h);
    var q := s.pool.frames[h].page;
    if s.pool.frames[h].state != Free && q == p {
      assert Bound(s, h, IntentEntry) || s.pool.table[p].state != IntentEntry by { hide StateOk, LocalStep; }
      assert SameEntry(s, s', p) && SamePublished(s, s', p) by { hide StateOk, Restored, SparesDrains, SparesFrame, Confined; }
    }
    assert s.pool.frames[h].state == Free || (SameEntry(s, s', q) && SamePublished(s, s', q)) by {
      hide StateOk, Owning, Restored, FrameOk;
    }
    UnchangedFrame(s, s', h) by { hide StateOk, Owning, Restored; }
    hide StateOk, LocalStep;
  }

  lemma UnchangedEntry(s: System, s': System, q: PageId)
    requires s.Wf() && s'.Wf() && |s'.pool.frames| == |s.pool.frames| && q in s.pool.table && EntryOk(s, q)
    requires q in s'.pool.table && s'.pool.table[q] == s.pool.table[q] && q.file in s'.pool.files
    requires s.pool.files[q.file].bound <= s'.pool.files[q.file].bound
    requires s.pool.table[q].state != IntentEntry ==>
      s'.pool.frames[s.pool.table[q].frame] == s.pool.frames[s.pool.table[q].frame]
    requires s.pool.table[q].load.Some? ==> SameLoader(s, s', s.pool.table[q].load.value)
    ensures EntryOk(s', q)
  {
    hide LoaderOf, WantOf, CreatorOf;
  }

  predicate SameLoader(s: System, s': System, l: TaskId)
  {
    l in s.tasks && l in s'.tasks && (s'.tasks[l] == s.tasks[l] || SameRole(s, s', l))
  }

  lemma LocalEntryFrame(s: System, s': System, t: TaskId, f: nat, p: PageId, g: nat, q: PageId)
    requires StateOk(s) && Confined(s, s', t, f, p, g) && Owns(s, s', t, f, p, g) && q in s.pool.table && q != p
    requires EntryOk(s, q) && FrameOk(s, f) && s.pool.table[q].state != IntentEntry
    ensures s'.pool.frames[s.pool.table[q].frame] == s.pool.frames[s.pool.table[q].frame]
  {
    hide StateOk, SparesFrame, Shows, LoaderOf, WantOf, CreatorOf, SparesGuard, SameRole;
  }

  lemma LocalEntryLoad(s: System, s': System, t: TaskId, f: nat, p: PageId, g: nat, q: PageId)
    requires StateOk(s) && Confined(s, s', t, f, p, g) && Owns(s, s', t, f, p, g) && q in s.pool.table && q != p
    requires EntryOk(s, q) && s.pool.table[q].load.Some?
    ensures SameLoader(s, s', s.pool.table[q].load.value)
  {
    var l := s.pool.table[q].load.value;
    assert LoaderOf(s.tasks[l]) == Some(q);
    if l != t {
      assert s'.tasks[l] == s.tasks[l];
    } else {
      assert LoaderOf(s.tasks[t]) !in {None, Some(p)};
      assert SameRole(s, s', t);
    }
    hide StateOk, SparesFrame, Shows, LoaderOf, WantOf, CreatorOf, SparesGuard, SameRole, FrameOk;
  }

  lemma LocalEntryFile(s: System, s': System, t: TaskId, f: nat, p: PageId, g: nat, q: PageId)
    requires StateOk(s) && LocalStep(s, s', t, f, p, g) && q in s.pool.table && EntryOk(s, q)
    ensures q.file in s'.pool.files && s.pool.files[q.file].bound <= s'.pool.files[q.file].bound
  {
    hide StateOk, Restored, SparesDrains, SparesFrame, FrameOk, Shows, SameRole;
  }

  lemma LocalEntry(s: System, s': System, t: TaskId, f: nat, p: PageId, g: nat, q: PageId)
    requires StateOk(s) && LocalStep(s, s', t, f, p, g) && q in s'.pool.table && q != p
    ensures EntryOk(s', q)
  {
    assert q in s.pool.table && s'.pool.table[q] == s.pool.table[q] by { hide StateOk, Owning, Restored; }
    EntryAt(s, q) by { hide StateOk, LocalStep; }
    FrameAt(s, f) by { hide StateOk, Owning, Restored; }
    LocalEntryFile(s, s', t, f, p, g, q) by { hide StateOk, LocalStep; }
    if s.pool.table[q].state != IntentEntry {
      LocalEntryFrame(s, s', t, f, p, g, q) by { hide StateOk, Confined, Owns, Restored, FrameOk, SparesDrains; }
    }
    if s.pool.table[q].load.Some? {
      LocalEntryLoad(s, s', t, f, p, g, q) by { hide StateOk, Confined, Owns, Restored, FrameOk, SparesDrains; }
    }
    UnchangedEntry(s, s', q) by { hide StateOk, Owning, Restored; }
    hide StateOk, LocalStep;
  }

  lemma LocalLoad(s: System, s': System, t: TaskId, f: nat, p: PageId, g: nat, l: TaskId)
    requires StateOk(s) && LocalStep(s, s', t, f, p, g) && l in s'.pool.loads && l != t
    ensures LoadOk(s', l)
  {
    LoadAt(s, l);
    hide StateOk, Restored, Owning, FrameOk;
  }

  lemma LocalFile(s: System, s': System, t: TaskId, f: nat, p: PageId, g: nat, k: nat)
    requires StateOk(s) && LocalStep(s, s', t, f, p, g) && k in s'.pool.files && k != g
    ensures FileOk(s', k)
  {
    FileAt(s, k);
    hide StateOk, Restored, SparesDrains, SparesFrame, SameContent, Shows;
  }

  lemma UnchangedPage(s: System, s': System, q: PageId)
    requires |s'.pool.frames| == |s.pool.frames| && q in s.published && PageOk(s, q)
    requires s'.disk == s.disk && s'.unsynced == s.unsynced && SamePublished(s, s', q) && SameEntry(s, s', q)
    requires q in s.pool.table && s.pool.table[q].state != IntentEntry ==>
      s.pool.table[q].frame < |s.pool.frames| && s'.pool.frames[s.pool.table[q].frame] == s.pool.frames[s.pool.table[q].frame]
    ensures PageOk(s', q)
  {
    hide SameContent;
  }

  lemma LocalPage(s: System, s': System, t: TaskId, f: nat, p: PageId, g: nat, q: PageId)
    requires StateOk(s) && LocalStep(s, s', t, f, p, g) && q in s'.published && q != p
    ensures PageOk(s', q)
  {
    assert SamePublished(s, s', q) && SameEntry(s, s', q) && q in s.published by { hide StateOk, Owning, Restored; }
    PageAt(s, q);
    if q in s.pool.table && s.pool.table[q].state != IntentEntry {
      EntryAt(s, q);
      var h := s.pool.table[q].frame;
      assert s'.pool.frames[h] == s.pool.frames[h] by { hide StateOk, Restored, SparesDrains, SparesFrame, Shows, PageOk; }
    }
    UnchangedPage(s, s', q) by { hide StateOk, Owning, Restored, PageOk; }
    hide StateOk, LocalStep;
  }

  lemma LocalHolders(s: System, s': System, t: TaskId, f: nat, p: PageId, g: nat)
    requires StateOk(s) && LocalStep(s, s', t, f, p, g)
    ensures HoldersOk(s')
  {
    forall h | 0 <= h < |s'.holders| && s'.holders[h].Some?
      ensures s'.holders[h].value in s'.tasks && FrameOf(s'.tasks[s'.holders[h].value]) == Some(h)
    {
      if h != f { HolderAt(s, h); }
    }
    hide StateOk, SparesDrains, SparesFrame, FrameOk, EntryOk, FileOk, LoadOk, PageOk, ClosedOk, FreeOk, Shows;
  }

  lemma LocalSpares(s: System, s': System, t: TaskId, f: nat, p: PageId, g: nat)
    requires StateOk(s) && LocalStep(s, s', t, f, p, g)
    ensures Spares(s, s', t)
  {
    assert SparesTasks(s, s', t) by { hide StateOk, Restored, Owning; }
    assert SparesTransfers(s, s', t) by { hide StateOk, Restored, Owning; }
    LocalSparesEntries(s, s', t, f, p, g);
    LocalSparesFrames(s, s', t, f, p, g);
    LocalSparesGuards(s, s', t, f, p, g);
    assert SparesDrains(s, s', t) by { hide StateOk, Restored, Confined; }
    hide StateOk, Restored, Owning, SparesFrames, SparesGuards, SparesEntries, SparesTasks, SparesTransfers;
  }

  lemma LocalSparesEntries(s: System, s': System, t: TaskId, f: nat, p: PageId, g: nat)
    requires StateOk(s) && LocalStep(s, s', t, f, p, g)
    ensures SparesEntries(s, s', t)
  {
    hide StateOk, Restored, SparesDrains, SparesFrame, Shows;
  }

  lemma LocalSparesFrames(s: System, s': System, t: TaskId, f: nat, p: PageId, g: nat)
    requires StateOk(s) && LocalStep(s, s', t, f, p, g)
    ensures SparesFrames(s, s', t)
  {
    forall h | 0 <= h < |s.pool.frames| && Other(s.holders[h], t) ensures SparesFrame(s, s', h) {
      if h != f { LocalHeld(s, s', t, f, p, g, h); }
    }
    hide StateOk, Restored, SparesDrains, SparesFrame, Shows;
  }

  lemma LocalSparesGuards(s: System, s': System, t: TaskId, f: nat, p: PageId, g: nat)
    requires StateOk(s) && LocalStep(s, s', t, f, p, g)
    ensures SparesGuards(s, s', t)
  {
    forall h, u | 0 <= h < |s.pool.frames| && u != t && Latched(s.pool.frames[h].latch, u)
      ensures SparesGuard(s, s', h, u)
    {
      if h != f { LocalLatched(s, s', t, f, p, g, h, u); }
    }
    hide StateOk, Restored, Confined, SparesDrains, SparesFrame, SparesGuard;
  }

  lemma LocalHeld(s: System, s': System, t: TaskId, f: nat, p: PageId, g: nat, h: nat)
    requires StateOk(s) && LocalStep(s, s', t, f, p, g) && h < |s.pool.frames| && h != f
    requires Other(s.holders[h], t)
    ensures SparesFrame(s, s', h)
  {
    FrameAt(s, h);
    if s.pool.frames[h].page in s.pool.table { EntryAt(s, s.pool.frames[h].page); FileAt(s, s.pool.frames[h].page.file); }
    if s.pool.frames[h].page in s.published { PageAt(s, s.pool.frames[h].page); }
    hide StateOk, Restored, SparesDrains, SameContent, Shows;
  }

  lemma LocalLatched(s: System, s': System, t: TaskId, f: nat, p: PageId, g: nat, h: nat, u: TaskId)
    requires StateOk(s) && LocalStep(s, s', t, f, p, g) && h < |s.pool.frames| && h != f
    requires Latched(s.pool.frames[h].latch, u)
    ensures SparesGuard(s, s', h, u)
  {
    FrameAt(s, h);
    hide StateOk, Restored, SparesDrains, SparesFrame, SameContent;
  }

  lemma LocalKeeps(s: System, s': System, t: TaskId, f: nat, p: PageId, g: nat)
    requires Core(s) && LocalStep(s, s', t, f, p, g) && (t in s'.tasks ==> TaskOk(s', t))
    ensures Core(s')
  {
    forall h | 0 <= h < |s'.pool.frames| ensures FrameOk(s', h) { if h != f { LocalFrame(s, s', t, f, p, g, h); } }
    forall q | q in s'.pool.table ensures EntryOk(s', q) { if q != p { LocalEntry(s, s', t, f, p, g, q); } }
    forall l | l in s'.pool.loads ensures LoadOk(s', l) { if l != t { LocalLoad(s, s', t, f, p, g, l); } }
    forall k | k in s'.pool.files ensures FileOk(s', k) { if k != g { LocalFile(s, s', t, f, p, g, k); } }
    forall q | q in s'.published ensures PageOk(s', q) { if q != p { LocalPage(s, s', t, f, p, g, q); } }
    LocalHolders(s, s', t, f, p, g);
    LocalSpares(s, s', t, f, p, g);
    assert DiskOk(s'.disk) by { hide Owning, Restored, Spares; }
    Assemble(s, s', t);
    hide FrameOk, EntryOk, LoadOk, FileOk, PageOk, TaskOk, Owning, Confined, FreeOk, HoldersOk, ClosedOk, DiskOk, Spares;
  }

  // ---- Such steps as updates ----

  datatype Change<+T> = Keep | Put(value: T) | Gone

  /** What one step does to its own task, load, frame, page and file. */
  datatype Update = Update(
    task: Change<Task>,
    load: Change<Load>,
    frame: Frame,
    holder: Option<TaskId>,
    entry: Change<Entry>,
    image: Change<Image>,
    file: Change<FileEntry>,
    free: seq<nat>,
    clock: Clock)

  function Changed<K, V>(m: map<K, V>, k: K, c: Change<V>): (r: map<K, V>)
    ensures forall q :: q in m && q != k ==> q in r && r[q] == m[q]
    ensures forall q :: q in r && q != k ==> q in m
    ensures c.Put? ==> k in r && r[k] == c.value
    ensures c.Gone? ==> k !in r
    ensures c.Keep? ==> r == m
  {
    match c
    case Keep => m
    case Put(v) => m[k := v]
    case Gone => m - {k}
  }

  function Updated(s: System, t: TaskId, f: nat, p: PageId, g: nat, u: Update): System
    requires s.Wf() && f < |s.pool.frames|
  {
    s.(pool := s.pool.(frames := s.pool.frames[f := u.frame], free := u.free, clock := u.clock,
                       table := Changed(s.pool.table, p, u.entry), files := Changed(s.pool.files, g, u.file),
                       loads := Changed(s.pool.loads, t, u.load)),
       tasks := Changed(s.tasks, t, u.task), holders := s.holders[f := u.holder],
       published := Changed(s.published, p, u.image))
  }

  predicate Sound(s: System, f: nat, u: Update)
    requires s.Wf()
  {
    && f < |s.pool.frames| && u.clock.Valid() && |u.clock.referenced| == |s.pool.frames|
    && (forall h :: 0 <= h < |s.pool.frames| && h != f ==> (h in u.free <==> h in s.pool.free))
    && !u.load.Gone? && !u.image.Gone?
  }

  lemma UpdateConfined(s: System, t: TaskId, f: nat, p: PageId, g: nat, u: Update)
    requires s.Wf() && Sound(s, f, u)
    ensures Confined(s, Updated(s, t, f, p, g, u), t, f, p, g)
  {}

  /** The invariant at the parts a step may touch, before it. */
  ghost predicate Around(s: System, t: TaskId, f: nat, p: PageId, g: nat)
  {
    && s.Wf() && f < |s.pool.frames| && FrameOk(s, f)
    && (p in s.pool.table ==> EntryOk(s, p))
    && (p in s.published ==> PageOk(s, p))
    && (g in s.pool.files ==> FileOk(s, g))
    && (t in s.pool.loads ==> LoadOk(s, t))
    && (t in s.tasks ==> TaskOk(s, t))
    && (s.holders[f].Some? ==> s.holders[f].value in s.tasks && FrameOf(s.tasks[s.holders[f].value]) == Some(f))
  }

  lemma AroundAt(s: System, t: TaskId, f: nat, p: PageId, g: nat)
    requires Core(s) && f < |s.pool.frames|
    ensures Around(s, t, f, p, g)
  {
    if s.holders[f].Some? { HolderAt(s, f); }
    if t in s.tasks { TaskAt(s, t); }
    hide FrameOk, EntryOk, PageOk, FileOk, LoadOk, TaskOk, HoldersOk, FreeOk, ClosedOk, DiskOk;
  }

  /** The invariant at those parts, after it. */
  ghost predicate Repaired(s: System, t: TaskId, f: nat, p: PageId, g: nat)
  {
    && s.Wf() && f < |s.pool.frames| && FrameOk(s, f)
    && (p in s.pool.table ==> EntryOk(s, p))
    && (p in s.published ==> PageOk(s, p))
    && (g in s.pool.files ==> FileOk(s, g))
    && (t in s.pool.loads ==> LoadOk(s, t))
    && (s.holders[f].Some? ==> s.holders[f].value in s.tasks && FrameOf(s.tasks[s.holders[f].value]) == Some(f))
  }

  lemma UpdateFree(s: System, s': System, t: TaskId, f: nat, p: PageId, g: nat, u: Update)
    requires s.Wf() && FreeOk(s) && Sound(s, f, u) && s' == Updated(s, t, f, p, g, u) && Distinct(u.free)
    requires f in u.free ==> u.frame.state == Free && u.holder == None
    requires forall h :: h in u.free ==> h < |s.pool.frames|
    ensures FreeOk(s')
  {}

  lemma UpdateClosed(s: System, s': System, t: TaskId, f: nat, p: PageId, g: nat, u: Update)
    requires s.Wf() && ClosedOk(s) && Sound(s, f, u) && s' == Updated(s, t, f, p, g, u)
    requires SparesDrains(s, s', t) && (u.frame.dirty ==> s.pool.frames[f].dirty)
    ensures ClosedOk(s')
  {}

  lemma UpdateKeeps(s: System, s': System, t: TaskId, f: nat, p: PageId, g: nat, u: Update)
    requires Core(s) && Sound(s, f, u) && s' == Updated(s, t, f, p, g, u)
    requires Owning(s, s', t, f, p, g) && Repaired(s', t, f, p, g)
    requires Distinct(u.free) && (forall h :: h in u.free ==> h < |s.pool.frames|)
    requires f in u.free ==> u.frame.state == Free && u.holder == None
    requires (u.frame.dirty ==> s.pool.frames[f].dirty) || !(s.pool.quiescing && AllDrained(s.pool))
    requires t in s'.tasks ==> TaskOk(s', t)
    ensures Core(s')
  {
    UpdateConfined(s, t, f, p, g, u) by { hide StateOk, Core, Owning, Repaired, TaskOk; }
    assert FreeOk(s) && ClosedOk(s) by { hide Owning, Repaired, TaskOk, Confined, AllDrained, FreeOk; }
    UpdateFree(s, s', t, f, p, g, u) by { hide StateOk, Core, Owning, Repaired, TaskOk, Confined; }
    assert ClosedOk(s') by {
      if s.closed { UpdateClosed(s, s', t, f, p, g, u); }
      hide StateOk, Core, Repaired, TaskOk, AllDrained, SparesDrains, Confined;
    }
    assert Restored(s', t, f, p, g) by { hide StateOk, Core, Owning, TaskOk, FreeOk, ClosedOk, FrameOk, EntryOk, PageOk, FileOk, LoadOk; }
    LocalKeeps(s, s', t, f, p, g) by { hide Core, Owning, Restored, TaskOk, Confined; }
    hide *;
  }
}
