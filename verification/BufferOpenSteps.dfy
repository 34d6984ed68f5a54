/** Preservation by the two ends of a file's life: registration, and the removal of a drained file. */
module BufferOpenSteps {
  import opened Basics
  import opened PageChecksum
  import opened BufferState
  import opened BufferSystem
  import opened BufferInvariant
  import opened BufferRely
  import opened BufferTaskStep

  // ---- Registration adopts the disk's pages ----

  ghost predicate Opens(s: System, t: TaskId, g: nat, count: nat)
  {
    && s.Wf() && t in s.tasks && s.tasks[t] == Register(g, count) && g != 0 && g !in s.pool.files && !s.pool.quiescing
    && count <= CountOf(s.disk, g)
  }

  function AfterOpen(s: System, t: TaskId, g: nat, count: nat): System
  {
    var adopted := Adopted(s, g, count);
    s.(pool := s.pool.(files := s.pool.files[g := FileEntry(Active, count, None, None)]),
       published := s.published + adopted, unsynced := s.unsynced + adopted.Keys).End(t)
  }

  lemma OpenFrame(s: System, t: TaskId, g: nat, count: nat, f: nat)
    requires StateOk(s) && Opens(s, t, g, count) && f < |s.pool.frames|
    ensures FrameOk(AfterOpen(s, t, g, count), f)
  {
    FrameAt(s, f);
    hide StateOk, SameContent;
  }

  lemma OpenEntry(s: System, t: TaskId, g: nat, count: nat, q: PageId)
    requires StateOk(s) && Opens(s, t, g, count) && q in s.pool.table
    ensures EntryOk(AfterOpen(s, t, g, count), q)
  {
    EntryAt(s, q);
    hide StateOk;
  }

  lemma OpenLoad(s: System, t: TaskId, g: nat, count: nat, l: TaskId)
    requires StateOk(s) && Opens(s, t, g, count) && l in s.pool.loads
    ensures LoadOk(AfterOpen(s, t, g, count), l)
  {
    LoadAt(s, l);
    hide StateOk;
  }

  lemma OpenFile(s: System, t: TaskId, g: nat, count: nat, k: nat)
    requires StateOk(s) && Opens(s, t, g, count) && k in AfterOpen(s, t, g, count).pool.files
    ensures FileOk(AfterOpen(s, t, g, count), k)
  {
    if k != g {
      FileAt(s, k);
      hide StateOk;
    } else {
      assert DiskOk(s.disk) by { hide FrameOk, EntryOk, LoadOk, FileOk, PageOk, FreeOk, HoldersOk, ClosedOk, DiskOk; }
      hide StateOk;
    }
  }

  lemma OpenPage(s: System, t: TaskId, g: nat, count: nat, q: PageId)
    requires StateOk(s) && Opens(s, t, g, count) && q in AfterOpen(s, t, g, count).published
    ensures PageOk(AfterOpen(s, t, g, count), q)
  {
    if q in s.published { PageAt(s, q); }
    hide StateOk, SameContent;
  }

  lemma OpenRest(s: System, t: TaskId, g: nat, count: nat)
    requires StateOk(s) && Opens(s, t, g, count)
    ensures var s' := AfterOpen(s, t, g, count);
      DiskOk(s'.disk) && FreeOk(s') && HoldersOk(s') && ClosedOk(s')
  {
    hide FrameOk, EntryOk, LoadOk, FileOk, PageOk;
  }

  lemma OpenState(s: System, t: TaskId, g: nat, count: nat)
    requires StateOk(s) && Opens(s, t, g, count)
    ensures StateOk(AfterOpen(s, t, g, count))
  {
    var s' := AfterOpen(s, t, g, count);
    forall f | 0 <= f < |s'.pool.frames| ensures FrameOk(s', f) { OpenFrame(s, t, g, count, f); }
    forall q | q in s'.pool.table ensures EntryOk(s', q) { OpenEntry(s, t, g, count, q); }
    forall l | l in s'.pool.loads ensures LoadOk(s', l) { OpenLoad(s, t, g, count, l); }
    forall k | k in s'.pool.files ensures FileOk(s', k) { OpenFile(s, t, g, count, k); }
    forall q | q in s'.published ensures PageOk(s', q) { OpenPage(s, t, g, count, q); }
    OpenRest(s, t, g, count);
    hide FrameOk, EntryOk, LoadOk, FileOk, PageOk, FreeOk, HoldersOk, ClosedOk, DiskOk;
  }

  lemma OpenSparesFrames(s: System, t: TaskId, g: nat, count: nat)
    requires Opens(s, t, g, count)
    ensures SparesFrames(s, AfterOpen(s, t, g, count), t)
  {
    hide SameContent;
  }

  lemma OpenSparesDrains(s: System, t: TaskId, g: nat, count: nat)
    requires Opens(s, t, g, count)
    ensures SparesDrains(s, AfterOpen(s, t, g, count), t) && SparesGuards(s, AfterOpen(s, t, g, count), t)
  {
    hide SameContent;
  }

  lemma OpenSpares(s: System, t: TaskId, g: nat, count: nat)
    requires Opens(s, t, g, count)
    ensures Spares(s, AfterOpen(s, t, g, count), t)
  {
    OpenSparesFrames(s, t, g, count) by { hide *; }
    OpenSparesDrains(s, t, g, count) by { hide *; }
    hide SparesFrames, SparesDrains, SparesGuards, SameContent;
  }

  lemma KeepOpen(s: System, t: TaskId, g: nat, count: nat)
    requires Core(s) && Opens(s, t, g, count)
    ensures Core(AfterOpen(s, t, g, count))
  {
    OpenState(s, t, g, count) by { hide StateOk, TaskOk, Opens; }
    OpenSpares(s, t, g, count) by { hide StateOk, TaskOk, Opens, Core; }
    Assemble(s, AfterOpen(s, t, g, count), t) by { hide StateOk, TaskOk, Spares, Core; }
    hide *;
  }

  // ---- A drained file is closed ----

  /** Drained with all its frames idle and unlatched; dirty pages lose their abstract image. */
  ghost predicate Closes(s: System, t: TaskId, g: nat, freed: seq<nat>)
  {
    && s.Wf() && t in s.tasks && RoleOf(s, t) == Role(None, false, false, None, None)
    && RetirerIs(s, t, g) && Drained(s.pool, g) && NoIo(s.pool, g) && EnumeratesFrames(freed, s.pool, g)
    && (forall f :: 0 <= f < |s.pool.frames| && s.pool.frames[f].pins == 0 ==> s.pool.frames[f].latch.Unused())
  }

  function AfterClose(s: System, t: TaskId, g: nat, freed: seq<nat>): System
    requires s.Wf()
  {
    s.(pool := CloseFile(s.pool, g, freed),
       published := map page | page in s.published && !Matches(s.pool, Some(g), page) :: s.published[page]).End(t)
  }

  /** A frame that is emptied was resident, unpinned and idle; any other keeps its page and entry. */
  lemma CloseFrameCases(s: System, t: TaskId, g: nat, freed: seq<nat>, f: nat)
    requires StateOk(s) && Closes(s, t, g, freed) && f < |s.pool.frames|
    ensures FrameOk(s, f)
    ensures f in FileFrames(s.pool, g) ==>
      && s.pool.frames[f].page.file == g && s.pool.frames[f].state == Resident && s.pool.frames[f].pins == 0
      && s.pool.frames[f].io == Idle && s.holders[f] == None && s.pool.frames[f].latch.Unused()
    ensures f !in FileFrames(s.pool, g) && s.pool.frames[f].state != Free ==> s.pool.frames[f].page.file != g
  {
    FrameAt(s, f);
    if f in FileFrames(s.pool, g) {
      var page :| page in s.pool.table && page.file == g && s.pool.table[page].frame == f;
      EntryAt(s, page);
    }
    hide StateOk, SameContent, RoleOf;
  }

  lemma CloseFrame(s: System, t: TaskId, g: nat, freed: seq<nat>, f: nat)
    requires StateOk(s) && Closes(s, t, g, freed) && f < |s.pool.frames|
    ensures FrameOk(AfterClose(s, t, g, freed), f)
  {
    CloseFrameCases(s, t, g, freed, f) by { hide StateOk, Closes; }
    hide StateOk, SameContent, RoleOf, Drained, NoIo;
  }

  /** A page of another file keeps its frame. */
  lemma CloseOtherFrame(s: System, t: TaskId, g: nat, freed: seq<nat>, q: PageId)
    requires StateOk(s) && Closes(s, t, g, freed) && q in s.pool.table && q.file != g && s.pool.table[q].state != IntentEntry
    ensures var f := s.pool.table[q].frame;
      f < |s.pool.frames| && AfterClose(s, t, g, freed).pool.frames[f] == s.pool.frames[f]
  {
    var f := s.pool.table[q].frame;
    EntryAt(s, q);
    CloseFrameCases(s, t, g, freed, f) by { hide StateOk, Closes; }
    assert f !in FileFrames(s.pool, g) by { hide StateOk, Closes, FrameOk, FileFrames; }
    hide StateOk, FrameOk, FileFrames, Drained, NoIo, EnumeratesFrames, EntryOk, Matches;
  }

  lemma CloseEntryFrom(s: System, t: TaskId, g: nat, freed: seq<nat>, q: PageId)
    requires Closes(s, t, g, freed) && q in s.pool.table && q.file != g && EntryOk(s, q)
    requires s.pool.table[q].state != IntentEntry ==>
      AfterClose(s, t, g, freed).pool.frames[s.pool.table[q].frame] == s.pool.frames[s.pool.table[q].frame]
    ensures EntryOk(AfterClose(s, t, g, freed), q)
  {
    hide Drained, NoIo, EnumeratesFrames, Matches, FileFrames;
  }

  lemma CloseEntry(s: System, t: TaskId, g: nat, freed: seq<nat>, q: PageId)
    requires StateOk(s) && Closes(s, t, g, freed) && q in AfterClose(s, t, g, freed).pool.table
    ensures EntryOk(AfterClose(s, t, g, freed), q)
  {
    EntryAt(s, q) by { hide StateOk, Closes; }
    if s.pool.table[q].state != IntentEntry {
      CloseOtherFrame(s, t, g, freed, q) by { hide StateOk, Closes, EntryOk; }
    }
    CloseEntryFrom(s, t, g, freed, q) by { hide StateOk, Closes, EntryOk; }
    hide StateOk, Closes, EntryOk;
  }

  lemma CloseLoad(s: System, t: TaskId, g: nat, freed: seq<nat>, l: TaskId)
    requires StateOk(s) && Closes(s, t, g, freed) && l in s.pool.loads
    ensures LoadOk(AfterClose(s, t, g, freed), l)
  {
    LoadAt(s, l);
    hide StateOk, Drained, NoIo;
  }

  lemma CloseFiles(s: System, t: TaskId, g: nat, freed: seq<nat>, k: nat)
    requires StateOk(s) && Closes(s, t, g, freed) && k in AfterClose(s, t, g, freed).pool.files
    ensures FileOk(AfterClose(s, t, g, freed), k)
  {
    FileAt(s, k);
    hide StateOk, Drained, NoIo;
  }

  lemma ClosePage(s: System, t: TaskId, g: nat, freed: seq<nat>, q: PageId)
    requires StateOk(s) && Closes(s, t, g, freed) && q in AfterClose(s, t, g, freed).published
    ensures PageOk(AfterClose(s, t, g, freed), q)
  {
    PageAt(s, q);
    if DirtyInPool(s.pool, q) {
      CloseFrameCases(s, t, g, freed, s.pool.table[q].frame) by { hide StateOk, Closes, PageOk; }
      EntryAt(s, q);
    }
    hide StateOk, NoIo, SameContent, FrameOk;
  }

  lemma FreedFrame(s: System, t: TaskId, g: nat, freed: seq<nat>, f: nat)
    requires StateOk(s) && Closes(s, t, g, freed) && f in FileFrames(s.pool, g)
    ensures f < |s.pool.frames| && s.pool.frames[f].state == Resident && s.holders[f] == None
    ensures AfterClose(s, t, g, freed).pool.frames[f].state == Free
  {
    var page :| page in s.pool.table && page.file == g && s.pool.table[page].frame == f;
    assert f < |s.pool.frames| by { hide StateOk, NoIo, EnumeratesFrames; }
    CloseFrameCases(s, t, g, freed, f) by { hide StateOk, Closes; }
    hide StateOk, FrameOk, Drained, NoIo, EnumeratesFrames, Matches;
  }

  lemma DistinctParts(a: seq<nat>, b: seq<nat>)
    requires Distinct(a) && Distinct(b) && forall f :: f in b ==> f !in a
    ensures Distinct(a + b)
  {
    forall i, j | 0 <= i < j < |a + b| ensures (a + b)[i] != (a + b)[j] {
      if i < |a| <= j { assert (a + b)[j] in b && (a + b)[i] in a; }
    }
  }

  lemma CloseFree(s: System, t: TaskId, g: nat, freed: seq<nat>)
    requires StateOk(s) && Closes(s, t, g, freed)
    ensures FreeOk(AfterClose(s, t, g, freed))
  {
    var s' := AfterClose(s, t, g, freed);
    assert FreeOk(s) by { hide FrameOk, EntryOk, LoadOk, FileOk, PageOk, HoldersOk, ClosedOk, DiskOk, FreeOk; }
    forall f | f in freed ensures f < |s.pool.frames| && f !in s.pool.free && s'.pool.frames[f].state == Free && s.holders[f] == None {
      assert f in FileFrames(s.pool, g);
      FreedFrame(s, t, g, freed, f) by { hide StateOk, Closes, FreeOk; }
    }
    DistinctParts(s.pool.free, freed) by { hide StateOk, FileFrames, Drained, NoIo; }
    hide StateOk, Drained, NoIo, FrameOk, FileFrames;
  }

  lemma CloseRest(s: System, t: TaskId, g: nat, freed: seq<nat>)
    requires StateOk(s) && Closes(s, t, g, freed)
    ensures var s' := AfterClose(s, t, g, freed);
      DiskOk(s'.disk) && HoldersOk(s')
  {
    hide FrameOk, EntryOk, LoadOk, FileOk, PageOk, Drained, NoIo;
  }

  lemma CloseAllDrained(s: System, t: TaskId, g: nat, freed: seq<nat>)
    requires Closes(s, t, g, freed) && AllDrained(s.pool)
    ensures AllDrained(AfterClose(s, t, g, freed).pool)
  {
    hide Drained, NoIo;
  }

  lemma CloseClosed(s: System, t: TaskId, g: nat, freed: seq<nat>)
    requires StateOk(s) && Closes(s, t, g, freed)
    ensures ClosedOk(AfterClose(s, t, g, freed))
  {
    assert ClosedOk(s) by { hide FrameOk, EntryOk, LoadOk, FileOk, PageOk, HoldersOk, ClosedOk, DiskOk, FreeOk, Closes; }
    if s.closed { CloseAllDrained(s, t, g, freed) by { hide StateOk, Closes, AllDrained; } }
    hide StateOk, Drained, NoIo, AllDrained;
  }

  lemma CloseState(s: System, t: TaskId, g: nat, freed: seq<nat>)
    requires StateOk(s) && Closes(s, t, g, freed)
    ensures StateOk(AfterClose(s, t, g, freed))
  {
    var s' := AfterClose(s, t, g, freed);
    forall f | 0 <= f < |s'.pool.frames| ensures FrameOk(s', f) { CloseFrame(s, t, g, freed, f); }
    forall q | q in s'.pool.table ensures EntryOk(s', q) { CloseEntry(s, t, g, freed, q); }
    forall l | l in s'.pool.loads ensures LoadOk(s', l) { CloseLoad(s, t, g, freed, l); }
    forall k | k in s'.pool.files ensures FileOk(s', k) { CloseFiles(s, t, g, freed, k); }
    forall q | q in s'.published ensures PageOk(s', q) { ClosePage(s, t, g, freed, q); }
    CloseFree(s, t, g, freed);
    CloseRest(s, t, g, freed);
    CloseClosed(s, t, g, freed);
    hide FrameOk, EntryOk, LoadOk, FileOk, PageOk, FreeOk, HoldersOk, ClosedOk, DiskOk, Closes;
  }

  lemma CloseHeld(s: System, t: TaskId, g: nat, freed: seq<nat>, f: nat)
    requires StateOk(s) && Closes(s, t, g, freed) && f < |s.pool.frames| && Other(s.holders[f], t)
    ensures SparesFrame(s, AfterClose(s, t, g, freed), f)
  {
    CloseFrameCases(s, t, g, freed, f) by { hide StateOk, Closes; }
    EmptyPage(s) by { hide Closes; }
    hide StateOk, Drained, NoIo, EnumeratesFrames, SameContent, RoleOf, FileFrames;
  }

  lemma CloseLatched(s: System, t: TaskId, g: nat, freed: seq<nat>, f: nat, u: TaskId)
    requires StateOk(s) && Closes(s, t, g, freed) && f < |s.pool.frames| && Latched(s.pool.frames[f].latch, u)
    ensures SparesGuard(s, AfterClose(s, t, g, freed), f, u)
  {
    CloseFrameCases(s, t, g, freed, f) by { hide StateOk, Closes; }
    hide StateOk, Drained, NoIo, EnumeratesFrames, SameContent, RoleOf, FileFrames;
  }

  lemma CloseSparesFrames(s: System, t: TaskId, g: nat, freed: seq<nat>)
    requires StateOk(s) && Closes(s, t, g, freed)
    ensures var s' := AfterClose(s, t, g, freed);
      SparesFrames(s, s', t) && SparesGuards(s, s', t)
  {
    var s' := AfterClose(s, t, g, freed);
    forall f | 0 <= f < |s.pool.frames| && Other(s.holders[f], t) ensures SparesFrame(s, s', f) {
      CloseHeld(s, t, g, freed, f) by { hide StateOk, Closes; }
    }
    forall f, u | 0 <= f < |s.pool.frames| && u != t && Latched(s.pool.frames[f].latch, u) ensures SparesGuard(s, s', f, u) {
      CloseLatched(s, t, g, freed, f, u) by { hide StateOk, Closes; }
    }
    hide StateOk, Closes, SparesFrame, SparesGuard;
  }

  /** The identity of an empty frame is no page. */
  lemma EmptyPage(s: System)
    requires StateOk(s)
    ensures NO_PAGE !in s.pool.table && NO_PAGE !in s.published
  {
    if NO_PAGE in s.pool.table { EntryAt(s, NO_PAGE); FileAt(s, 0); }
    if NO_PAGE in s.published { PageAt(s, NO_PAGE); }
    hide StateOk;
  }

  lemma CloseSparedEntry(s: System, t: TaskId, g: nat, freed: seq<nat>, page: PageId)
    requires StateOk(s) && Closes(s, t, g, freed) && page in s.pool.table && Other(s.pool.table[page].load, t)
    ensures var s' := AfterClose(s, t, g, freed);
      page in s'.pool.table && s'.pool.table[page] == s.pool.table[page] && (page in s.published ==> page in s'.published)
  {
    EntryAt(s, page);
    assert page.file != g by { hide StateOk, NoIo, EnumeratesFrames, FileFrames; }
    hide StateOk, NoIo, Drained, EnumeratesFrames, FileFrames, EntryOk;
  }

  lemma CloseLeavesFiles(s: System, t: TaskId, g: nat, freed: seq<nat>)
    requires Closes(s, t, g, freed)
    ensures AfterClose(s, t, g, freed).pool.files == s.pool.files - {g}
    ensures g in s.pool.files && s.pool.files[g].creator == None && s.pool.files[g].retirer == Some(t)
  {
    hide NoIo, EnumeratesFrames, FileFrames, Matches;
  }

  lemma FilesSpared(s: System, s': System, t: TaskId, g: nat)
    requires s'.pool.files == s.pool.files - {g}
    requires g in s.pool.files && s.pool.files[g].creator == None && s.pool.files[g].retirer == Some(t)
    requires forall page :: page in s.pool.table && Other(s.pool.table[page].load, t) ==>
      page in s'.pool.table && s'.pool.table[page] == s.pool.table[page] && (page in s.published ==> page in s'.published)
    ensures SparesEntries(s, s', t)
  {}

  lemma CloseSparesEntries(s: System, t: TaskId, g: nat, freed: seq<nat>)
    requires StateOk(s) && Closes(s, t, g, freed)
    ensures SparesEntries(s, AfterClose(s, t, g, freed), t)
  {
    forall page | page in s.pool.table && Other(s.pool.table[page].load, t)
      ensures var s' := AfterClose(s, t, g, freed);
        page in s'.pool.table && s'.pool.table[page] == s.pool.table[page] && (page in s.published ==> page in s'.published)
    {
      CloseSparedEntry(s, t, g, freed, page) by { hide StateOk, Closes, AfterClose; }
    }
    CloseLeavesFiles(s, t, g, freed) by { hide StateOk, Closes, AfterClose; }
    FilesSpared(s, AfterClose(s, t, g, freed), t, g) by { hide StateOk, Closes, AfterClose; }
    hide *;
  }

  lemma CloseKeepsDrained(s: System, t: TaskId, g: nat, freed: seq<nat>, file: nat)
    requires Closes(s, t, g, freed) && file in s.pool.files && Other(s.pool.files[file].retirer, t) && Drained(s.pool, file)
    ensures Drained(AfterClose(s, t, g, freed).pool, file)
  {
    hide NoIo, EnumeratesFrames, FileFrames;
  }

  lemma CloseMatches(s: System, t: TaskId, g: nat, freed: seq<nat>, only: Option<nat>, page: PageId)
    requires Closes(s, t, g, freed) && Matches(AfterClose(s, t, g, freed).pool, only, page)
    ensures Matches(s.pool, only, page)
  {
    hide NoIo, EnumeratesFrames, FileFrames, Drained;
  }

  lemma CloseSparesDrains(s: System, t: TaskId, g: nat, freed: seq<nat>)
    requires StateOk(s) && Closes(s, t, g, freed)
    ensures SparesDrains(s, AfterClose(s, t, g, freed), t)
  {
    var s' := AfterClose(s, t, g, freed);
    forall file | file in s.pool.files && Other(s.pool.files[file].retirer, t) && Drained(s.pool, file)
      ensures Drained(s'.pool, file)
    {
      CloseKeepsDrained(s, t, g, freed, file) by { hide StateOk, Closes, Drained; }
    }
    forall only, page | Matches(s'.pool, only, page) ensures Matches(s.pool, only, page) {
      CloseMatches(s, t, g, freed, only, page) by { hide StateOk, Closes, Matches; }
    }
    if AllDrained(s.pool) { CloseAllDrained(s, t, g, freed) by { hide StateOk, Closes, AllDrained; } }
    hide StateOk, Closes, Drained, AllDrained, Matches;
  }

  lemma CloseSpares(s: System, t: TaskId, g: nat, freed: seq<nat>)
    requires StateOk(s) && Closes(s, t, g, freed)
    ensures Spares(s, AfterClose(s, t, g, freed), t)
  {
    CloseSparesFrames(s, t, g, freed) by { hide StateOk, Closes; }
    CloseSparesEntries(s, t, g, freed) by { hide StateOk, Closes; }
    CloseSparesDrains(s, t, g, freed) by { hide StateOk, Closes; }
    hide StateOk, Drained, NoIo, RoleOf, SparesFrames, SparesGuards, SparesEntries, SparesDrains;
  }

  lemma KeepClose(s: System, t: TaskId, g: nat, freed: seq<nat>)
    requires Core(s) && Closes(s, t, g, freed)
    ensures Core(AfterClose(s, t, g, freed))
  {
    CloseState(s, t, g, freed) by { hide StateOk, TaskOk, Closes; }
    CloseSpares(s, t, g, freed) by { hide StateOk, TaskOk, Closes; }
    assert t !in AfterClose(s, t, g, freed).tasks && s.Wf() by { hide Core, StateOk, Spares, Drained, NoIo; }
    Assemble(s, AfterClose(s, t, g, freed), t) by { hide StateOk, TaskOk, Spares, Core, Closes; }
    hide *;
  }
}
