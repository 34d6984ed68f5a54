/**
 * BufferPool's critical sections as the source writes them (src/storage/buffer/buffer_pool.cpp):
 * methods that update the shared fields, each tied to the pool value that the step machine uses.
 */
module BufferPools {
  import opened Basics
  import opened ClockReplacement
  import opened BufferState

  /** Where the critical section of PinPage leaves the call. */
  datatype FetchOutcome = Refused(error: FetchError) | PinOverflow | Waits | Loads | Joins(load: TaskId) | Pins(frame: nat)

  /** What PinPage does between two points that release the mutex. */
  function FetchSection(p: Pool, t: TaskId, page: PageId): (Pool, FetchOutcome)
    requires p.Wf()
  {
    match Fetchable(p, page)
    case Some(error) => (p, Refused(error))
    case None =>
      if page !in p.table then (InstallIntent(p, t, page), Loads)
      else
        var entry := p.table[page];
        match entry.state
        case EvictingEntry => (p, Waits)
        case ResidentEntry =>
          if entry.frame >= |p.frames| || p.frames[entry.frame].pins >= p.maxPins then (p, PinOverflow)
          else (PinResident(p, entry.frame), Pins(entry.frame))
        case _ =>
          match entry.load
          case None => (p, Refused(NotFound))
          case Some(l) =>
            if l !in p.loads || p.loads[l].claims >= p.maxPins then (p, PinOverflow) else (Claim(p, l), Joins(l))
  }

  class BufferPool {
    const frames: array<Frame>
    const clock: ClockReplacer
    const maxPins: nat
    var free: seq<nat>
    var table: map<PageId, Entry>
    var files: map<nat, FileEntry>
    var loads: map<TaskId, Load>
    var quiescing: bool

    ghost predicate Valid()
      reads this, clock
    {
      && frames.Length > 0 && maxPins > 0 && clock.Valid() && clock.referenced.Length == frames.Length
    }

    ghost function View(): (p: Pool)
      requires Valid()
      reads this, frames, clock, clock.referenced
      ensures p.Wf()
    {
      Pool(frames[..], free, clock.View(), table, files, loads, quiescing, maxPins)
    }

    constructor (frameCount: nat, maxPins: nat)
      requires frameCount > 0 && maxPins > 0
      ensures Valid() && View() == InitialPool(frameCount, maxPins)
      ensures fresh(frames) && fresh(clock) && fresh(clock.referenced)
    {
      this.maxPins := maxPins;
      frames := new Frame[frameCount](_ => EMPTY_FRAME);
      clock := new ClockReplacer(frameCount);
      table, files, loads, quiescing := map[], map[], map[], false;
      free := [];
      new;
      var index := frameCount;
      while index > 0
        invariant 0 <= index <= frameCount && Valid()
        invariant |free| == frameCount - index && forall k :: 0 <= k < |free| ==> free[k] == frameCount - 1 - k
        invariant frames[..] == seq(frameCount, _ => EMPTY_FRAME) && clock.View() == Clock(seq(frameCount, _ => false), 0)
        invariant table == map[] && files == map[] && loads == map[] && !quiescing
      {
        free := free + [index - 1];
        index := index - 1;
      }
    }

    // ---- Fetch ----

    method CheckFetchable(page: PageId) returns (error: Option<FetchError>)
      requires Valid()
      ensures error == Fetchable(View(), page)
    {
      if quiescing {
        return Some(Quiescing);
      }
      if page.file !in files {
        return Some(NotFound);
      }
      var file := files[page.file];
      if file.state != Active {
        return Some(FileClosing);
      }
      if page.no == 0 || page.no >= file.bound {
        return Some(NotFound);
      }
      return None;
    }

    /** PinPage, PinResidentLocked, JoinLoad's claim and LoadPage's intent. */
    method PinPage(t: TaskId, page: PageId) returns (outcome: FetchOutcome)
      requires Valid()
      modifies this, frames, clock.referenced
      ensures Valid() && (View(), outcome) == FetchSection(old(View()), t, page)
    {
      var error := CheckFetchable(page);
      if error != None {
        return Refused(error.value);
      }
      if page !in table {
        table := table[page := Entry(IntentEntry, 0, Some(t))];
        loads := loads[t := Load(1, false, None)];
        return Loads;
      }
      var entry := table[page];
      match entry.state {
        case EvictingEntry => return Waits;
        case ResidentEntry =>
          if entry.frame >= frames.Length || frames[entry.frame].pins >= maxPins {
            return PinOverflow;
          }
          frames[entry.frame] := frames[entry.frame].(pins := frames[entry.frame].pins + 1);
          clock.SetReferenced(entry.frame);
          return Pins(entry.frame);
        case _ =>
          if entry.load == None {
            return Refused(NotFound);
          }
          var l := entry.load.value;
          if l !in loads || loads[l].claims >= maxPins {
            return PinOverflow;
          }
          loads := loads[l := loads[l].(claims := loads[l].claims + 1)];
          return Joins(l);
      }
    }

    /** FREE to LOADING, bound to the sole intent before the read starts. */
    method BindFrame(t: TaskId, page: PageId, f: nat)
      requires Valid() && f < frames.Length
      modifies this, frames
      ensures Valid() && View() == BindLoad(old(View()), t, page, f)
    {
      var frame := frames[f];
      frames[f] := frame.(epoch := frame.epoch + 1, page := page, bytes := ZERO_PAGE, state := Loading, io := Reading, dirty := false);
      table := table[page := Entry(LoadingEntry, f, Some(t))];
    }

    method FailLoadOperation(t: TaskId, page: PageId)
      requires Valid() && t in loads
      modifies this
      ensures Valid() && View() == FailLoad(old(View()), t, page)
    {
      table := table - {page};
      loads := loads[t := loads[t].(done := true)];
    }

    method PublishLoadOperation(t: TaskId, page: PageId, f: nat)
      requires Valid() && f < frames.Length && t in loads
      modifies this, frames, clock.referenced
      ensures Valid() && View() == PublishLoad(old(View()), t, page, f)
    {
      frames[f] := frames[f].(state := Resident, io := Idle, pins := loads[t].claims);
      clock.SetReferenced(f);
      table := table[page := Entry(ResidentEntry, f, None)];
      loads := loads[t := loads[t].(done := true, frame := Some(f))];
    }

    // ---- Replacement ----

    method IsVictimEligible(f: nat) returns (eligible: bool)
      requires Valid() && f < frames.Length
      ensures eligible == Eligible(View(), f)
    {
      var frame := frames[f];
      if frame.state != Resident || frame.pins != 0 || frame.io != Idle {
        return false;
      }
      return frame.page.file in files && files[frame.page.file].state == Active;
    }

    /** The replacer's question, asked of every frame, then the search itself. */
    method FindVictim() returns (candidate: Option<nat>)
      requires Valid()
      modifies clock, clock.referenced
      ensures Valid() && Eligibility(View()) == Eligibility(old(View()))
      ensures var found := Find(old(View()).clock, Eligibility(old(View())));
        candidate == found.candidate && View() == old(View()).(clock := found.clock)
    {
      var eligible: seq<bool> := [];
      for f := 0 to frames.Length
        invariant Valid() && View() == old(View())
        invariant |eligible| == f && forall k :: 0 <= k < f ==> eligible[k] == Eligible(View(), k)
      {
        var e := IsVictimEligible(f);
        eligible := eligible + [e];
      }
      assert eligible == Eligibility(View());
      candidate := clock.FindCandidate(eligible);
    }

    method TakeFreeFrame() returns (f: nat)
      requires Valid() && |free| > 0
      modifies this
      ensures Valid() && View() == PopFree(old(View())) && f == old(free)[|old(free)| - 1]
    {
      f := free[|free| - 1];
      free := free[..|free| - 1];
    }

    method ReserveFrame(f: nat)
      requires Valid() && f < frames.Length
      modifies this, frames
      ensures Valid() && View() == ReserveVictim(old(View()), f)
    {
      var victim := frames[f].page;
      frames[f] := frames[f].(state := Evicting);
      table := table[victim := Entry(EvictingEntry, f, None)];
    }

    method RestoreFrame(f: nat)
      requires Valid() && f < frames.Length
      modifies this, frames
      ensures Valid() && View() == RestoreVictim(old(View()), f)
    {
      frames[f] := frames[f].(io := Idle);
      frames[f] := frames[f].(state := Resident);
      table := table[frames[f].page := Entry(ResidentEntry, f, None)];
    }

    /** Identity, state and pins go; generation and epoch stay. */
    method Reset(f: nat)
      requires Valid() && f < frames.Length
      modifies frames, clock.referenced
      ensures Valid() && View() == ResetFrame(old(View()), f)
    {
      frames[f] := frames[f].(page := NO_PAGE, bytes := ZERO_PAGE, state := Free, io := Idle, pins := 0, dirty := false);
      clock.ClearReferenced(f);
    }

    method EvictFrame(f: nat)
      requires Valid() && f < frames.Length
      modifies this, frames, clock.referenced
      ensures Valid() && View() == DropVictim(old(View()), f)
    {
      table := table - {frames[f].page};
      Reset(f);
    }

    method Release(f: nat)
      requires Valid()
      modifies this
      ensures Valid() && View() == ReleaseFrame(old(View()), f)
    {
      free := free + [f];
    }

    // ---- New pages ----

    method BindConstruction(page: PageId, f: nat)
      requires Valid() && f < frames.Length
      modifies this, frames
      ensures Valid() && View() == BindNew(old(View()), page, f)
    {
      var frame := frames[f];
      frames[f] := frame.(epoch := frame.epoch + 1, page := page, bytes := ZERO_PAGE, state := Loading, io := Idle, dirty := false);
      table := table[page := Entry(LoadingEntry, f, None)];
    }

    method AbortConstruction(page: PageId, f: nat)
      requires Valid() && f < frames.Length
      modifies this, frames, clock.referenced
      ensures Valid() && View() == AbortNew(old(View()), page, f)
    {
      table := table - {page};
      Reset(f);
      Release(f);
    }

    method PublishConstruction(page: PageId, f: nat)
      requires Valid() && f < frames.Length && page.file in files
      modifies this, frames, clock.referenced
      ensures Valid() && View() == PublishNew(old(View()), page, f)
    {
      files := files[page.file := files[page.file].(bound := page.no + 1)];
      frames[f] := frames[f].(state := Resident, pins := 1, dirty := true, generation := frames[f].generation + 1);
      clock.SetReferenced(f);
      table := table[page := Entry(ResidentEntry, f, None)];
    }

    // ---- Flushing ----

    /** The end of WritebackResident. */
    method ReconcileWriteback(f: nat, written: bool, page: PageId, epoch: nat, generation: nat)
      requires Valid() && f < frames.Length
      modifies frames
      ensures Valid()
      ensures var frame := old(View()).frames[f];
        View() == Reconcile(old(View()), f, written && frame.page == page && frame.epoch == epoch && frame.generation == generation)
    {
      frames[f] := frames[f].(io := Idle);
      if written && frames[f].page == page && frames[f].epoch == epoch && frames[f].generation == generation {
        frames[f] := frames[f].(dirty := false);
      }
    }

    /** FlushMatching's first loop: every dirty resident page of the file, or of all files, once. */
    method CollectDirty(only: Option<nat>) returns (pages: seq<PageId>)
      requires Valid()
      ensures Distinct(pages) && forall page :: page in pages <==> Matches(View(), only, page)
    {
      pages := [];
      var rest := table.Keys;
      while rest != {}
        invariant rest <= table.Keys
        invariant Distinct(pages) && forall page :: page in pages <==> page !in rest && Matches(View(), only, page)
        decreases |rest|
      {
        var page :| page in rest;
        rest := rest - {page};
        var entry := table[page];
        if only.Some? && page.file != only.value {
          continue;
        }
        if entry.state == ResidentEntry && entry.frame < frames.Length && frames[entry.frame].dirty {
          pages := pages + [page];
        }
      }
    }

    // ---- Drains ----

    /** RetireFile's wait predicate. */
    method FileIsDrained(file: nat) returns (drained: bool)
      requires Valid() && file in files
      requires forall page :: page in table ==> table[page].state == ResidentEntry ==> table[page].frame < frames.Length
      ensures drained ==> Drained(View(), file) && NoIo(View(), file)
      ensures Drained(View(), file) && NoIo(View(), file) ==> drained
    {
      if files[file].creator.Some? {
        return false;
      }
      var rest := table.Keys;
      while rest != {}
        invariant rest <= table.Keys
        invariant forall page :: page in table && page !in rest && page.file == file ==>
          table[page].state == ResidentEntry && table[page].frame < frames.Length
          && frames[table[page].frame].pins == 0 && frames[table[page].frame].io == Idle
        decreases |rest|
      {
        var page :| page in rest;
        rest := rest - {page};
        if page.file != file {
          continue;
        }
        var entry := table[page];
        if entry.state != ResidentEntry {
          return false;
        }
        if frames[entry.frame].pins != 0 || frames[entry.frame].io != Idle {
          return false;
        }
      }
      return true;
    }

    /** Shutdown's wait predicate: every frame, every entry, every file. */
    method PoolIsDrained() returns (drained: bool)
      requires Valid()
      ensures drained <==> AllDrained(View()) && AllIdle(View())
    {
      for f := 0 to frames.Length
        invariant forall k :: 0 <= k < f ==> frames[k].pins == 0 && frames[k].io == Idle
      {
        if frames[f].pins != 0 || frames[f].io != Idle {
          assert View().frames[f] == frames[f];
          return false;
        }
      }
      var entries := table.Keys;
      while entries != {}
        invariant entries <= table.Keys
        invariant forall page :: page in table && page !in entries ==> table[page].state == ResidentEntry
        decreases |entries|
      {
        var page :| page in entries;
        entries := entries - {page};
        if table[page].state != ResidentEntry {
          return false;
        }
      }
      var rest := files.Keys;
      while rest != {}
        invariant rest <= files.Keys
        invariant forall file :: file in files && file !in rest ==> files[file].creator == None
        decreases |rest|
      {
        var file :| file in rest;
        rest := rest - {file};
        if files[file].creator.Some? {
          return false;
        }
      }
      return true;
    }

    // ---- Guards ----

    method Unpin(f: nat)
      requires Valid() && f < frames.Length
      modifies frames
      ensures Valid() && View() == DropPin(old(View()), f)
    {
      if frames[f].pins == 0 {
        return;
      }
      frames[f] := frames[f].(pins := frames[f].pins - 1);
    }

    method PublishMutation(f: nat)
      requires Valid() && f < frames.Length
      modifies frames
      ensures Valid() && View() == MarkMutation(old(View()), f)
    {
      frames[f] := frames[f].(generation := frames[f].generation + 1);
      frames[f] := frames[f].(dirty := true);
    }

    // ---- Files ----

    /** The critical section of RegisterFile; the page count was read before it. */
    method OpenFile(file: nat, pageCount: nat) returns (ok: bool)
      requires Valid()
      modifies this
      ensures Valid() && (ok <==> !old(quiescing) && file !in old(files))
      ensures View() == if ok then old(View()).(files := old(files)[file := FileEntry(Active, pageCount, None, None)]) else old(View())
    {
      if quiescing || file in files {
        return false;
      }
      files := files[file := FileEntry(Active, pageCount, None, None)];
      return true;
    }

    predicate TableInFrames()
      reads this
    {
      && (forall page :: page in table ==> table[page].frame < frames.Length)
    }

    /** The pages of `file` whose entries are gone. */
    ghost predicate Removed(before: Pool, file: nat, rest: set<PageId>, freed: seq<nat>)
      requires Valid() && before.Wf() && |before.frames| == frames.Length
      reads this, frames, clock, clock.referenced
    {
      && rest <= before.table.Keys && Distinct(freed)
      && (forall page :: page in table <==> page in before.table && (page.file != file || page in rest))
      && (forall page :: page in table ==> table[page] == before.table[page])
      && (forall f :: f in freed <==> exists page :: page in before.table && page.file == file && page !in rest && before.table[page].frame == f)
      && (forall f :: 0 <= f < frames.Length ==>
            frames[f] == if f in freed
              then before.frames[f].(page := NO_PAGE, bytes := ZERO_PAGE, state := Free, io := Idle, pins := 0, dirty := false)
              else before.frames[f])
      && (forall f :: 0 <= f < frames.Length ==> clock.referenced[f] == (before.clock.referenced[f] && f !in freed))
      && clock.hand == before.clock.hand && free == before.free + freed
      && files == before.files && loads == before.loads && quiescing == before.quiescing && maxPins == before.maxPins
    }

    /** RetireFile's last loop: mappings erased, frames reset and freed, then the registration closed. */
    method RemoveFile(file: nat) returns (ghost freed: seq<nat>)
      requires Valid() && TableInFrames()
      requires forall p, q :: p in table && q in table && p.file == q.file == file && p != q ==> table[p].frame != table[q].frame
      modifies this, frames, clock.referenced
      ensures Valid() && Distinct(freed) && forall f :: f in freed <==> f in FileFrames(old(View()), file)
      ensures View() == CloseFile(old(View()), file, freed)
    {
      ghost var before := View();
      hide Removed;
      freed := [];
      var rest := table.Keys;
      NothingRemoved(before, file);
      while rest != {}
        invariant Valid() && Removed(before, file, rest, freed)
        decreases |rest|
      {
        var page :| page in rest;
        if page.file == file {
          freed := RemovePage(before, file, page, rest, freed);
        } else {
          SkipPage(before, file, page, rest, freed);
        }
        rest := rest - {page};
      }
      AllRemoved(before, file, freed);
      files := files - {file};
      Closed(before, file, freed);
    }

    lemma NothingRemoved(before: Pool, file: nat)
      requires Valid() && before == View()
      ensures Removed(before, file, table.Keys, [])
    {}

    lemma SkipPage(before: Pool, file: nat, page: PageId, rest: set<PageId>, freed: seq<nat>)
      requires Valid() && before.Wf() && |before.frames| == frames.Length && Removed(before, file, rest, freed)
      requires page in rest && page.file != file
      ensures Removed(before, file, rest - {page}, freed)
    {}

    lemma AllRemoved(before: Pool, file: nat, freed: seq<nat>)
      requires Valid() && before.Wf() && |before.frames| == frames.Length && Removed(before, file, {}, freed)
      ensures Distinct(freed) && (forall page :: page in table <==> page in before.table && page.file != file)
      ensures forall page :: page in table ==> table[page] == before.table[page]
      ensures forall f :: f in freed <==> exists page :: page in before.table && page.file == file && before.table[page].frame == f
      ensures forall f :: 0 <= f < frames.Length ==>
        frames[f] == if f in freed
          then before.frames[f].(page := NO_PAGE, bytes := ZERO_PAGE, state := Free, io := Idle, pins := 0, dirty := false)
          else before.frames[f]
      ensures forall f :: 0 <= f < frames.Length ==> clock.referenced[f] == (before.clock.referenced[f] && f !in freed)
      ensures clock.hand == before.clock.hand && free == before.free + freed
      ensures files == before.files && loads == before.loads && quiescing == before.quiescing && maxPins == before.maxPins
    {}

    method RemovePage(ghost before: Pool, file: nat, page: PageId, ghost rest: set<PageId>, ghost freed: seq<nat>) returns (ghost more: seq<nat>)
      requires Valid() && before.Wf() && |before.frames| == frames.Length && Removed(before, file, rest, freed)
      requires page in rest && page.file == file && before.table[page].frame < frames.Length
      requires forall p, q :: p in before.table && q in before.table && p.file == q.file == file && p != q ==>
        before.table[p].frame != before.table[q].frame
      modifies this`table, this`free, frames, clock.referenced
      ensures Valid() && more == freed + [before.table[page].frame] && Removed(before, file, rest - {page}, more)
    {
      var f := table[page].frame;
      assert f !in freed;
      table := table - {page};
      frames[f] := frames[f].(page := NO_PAGE, bytes := ZERO_PAGE, state := Free, io := Idle, pins := 0, dirty := false);
      clock.ClearReferenced(f);
      free := free + [f];
      more := freed + [f];
    }

    lemma Closed(before: Pool, file: nat, freed: seq<nat>)
      requires Valid() && before.Wf() && |before.frames| == frames.Length && files == before.files - {file}
      requires Distinct(freed) && (forall page :: page in table <==> page in before.table && page.file != file)
      requires forall page :: page in table ==> table[page] == before.table[page]
      requires forall f :: f in freed <==> exists page :: page in before.table && page.file == file && before.table[page].frame == f
      requires forall f :: 0 <= f < frames.Length ==>
        frames[f] == if f in freed
          then before.frames[f].(page := NO_PAGE, bytes := ZERO_PAGE, state := Free, io := Idle, pins := 0, dirty := false)
          else before.frames[f]
      requires forall f :: 0 <= f < frames.Length ==> clock.referenced[f] == (before.clock.referenced[f] && f !in freed)
      requires clock.hand == before.clock.hand && free == before.free + freed
      requires loads == before.loads && quiescing == before.quiescing && maxPins == before.maxPins
      ensures View() == CloseFile(before, file, freed)
      ensures forall f :: f in freed <==> f in FileFrames(before, file)
    {
      assert View().table == CloseFile(before, file, freed).table;
      assert View().frames == CloseFile(before, file, freed).frames;
      assert View().clock.referenced == CloseFile(before, file, freed).clock.referenced;
    }
  }
}
