/**
 * Non-interference: what a step of one task leaves alone for every other task, and why that
 * suffices for the others' assertions to survive.
 */
module BufferRely {
  import opened Basics
  import opened PageChecksum
  import opened BufferState
  import opened BufferSystem
  import opened BufferInvariant

  /** A frame whose exclusive owner does not run. */
  predicate Steady(a: Frame, b: Frame)
  {
    && b.page == a.page && b.state == a.state && b.io == a.io && b.epoch == a.epoch && b.dirty == a.dirty
    && a.generation <= b.generation && (a.state != Resident ==> b.bytes == a.bytes)
  }

  predicate Other(holder: Option<TaskId>, t: TaskId) { holder.Some? && holder.value != t }

  predicate SparesTasks(s: System, s': System, t: TaskId)
  {
    && (forall u :: u in s.tasks && u != t ==> u in s'.tasks && s'.tasks[u] == s.tasks[u])
    && (forall u :: u in s'.tasks && u != t ==> u in s.tasks)
    && (forall l :: l in s.pool.loads ==> l in s'.pool.loads)
    && (forall l :: l in s'.pool.loads && l != t ==> l in s.pool.loads)
    && (forall l :: l in s.pool.loads && l != t ==>
          s'.pool.loads[l].done == s.pool.loads[l].done && s'.pool.loads[l].frame == s.pool.loads[l].frame)
    && (s.pool.quiescing ==> s'.pool.quiescing)
  }

  ghost predicate SparesFrame(s: System, s': System, f: nat)
    requires s.Wf() && s'.Wf() && f < |s.pool.frames| == |s'.pool.frames|
  {
    var page := s.pool.frames[f].page;
    && s'.holders[f] == s.holders[f] && Steady(s.pool.frames[f], s'.pool.frames[f])
    && (page in s.pool.table ==> page in s'.pool.table && s'.pool.table[page] == s.pool.table[page])
    && (page in s.published ==> page in s'.published)
    && (page in s.published && (s.pool.frames[f].state != Resident || s.pool.frames[f].generation == s'.pool.frames[f].generation)
        ==> s'.published[page] == s.published[page])
  }

  ghost predicate SparesFrames(s: System, s': System, t: TaskId)
    requires s.Wf() && s'.Wf() && |s'.pool.frames| == |s.pool.frames|
  {
    forall f :: 0 <= f < |s.pool.frames| && Other(s.holders[f], t) ==> SparesFrame(s, s', f)
  }

  predicate SparesEntries(s: System, s': System, t: TaskId)
  {
    && (forall page :: page in s.pool.table && Other(s.pool.table[page].load, t) ==>
          page in s'.pool.table && s'.pool.table[page] == s.pool.table[page]
          && (page in s.published ==> page in s'.published))
    && (forall file :: file in s.pool.files && Other(s.pool.files[file].creator, t) ==>
          file in s'.pool.files && s'.pool.files[file].creator == s.pool.files[file].creator
          && s'.pool.files[file].bound == s.pool.files[file].bound)
    && (forall file :: file in s.pool.files && Other(s.pool.files[file].retirer, t) ==>
          file in s'.pool.files && s'.pool.files[file].retirer == s.pool.files[file].retirer
          && s'.pool.files[file].state == s.pool.files[file].state)
  }

  predicate SparesDisk(s: System, s': System, page: PageId)
  {
    && (page in s.disk.volatile ==> page in s'.disk.volatile && s'.disk.volatile[page] == s.disk.volatile[page])
    && (page in s.disk.durable && page in s.disk.volatile ==>
          page in s'.disk.durable
          && (s'.disk.durable[page] == s.disk.durable[page] || s'.disk.durable[page] == s.disk.volatile[page]))
    && (page !in s.unsynced && page in s.published ==> page !in s'.unsynced)
  }

  predicate SparesTransfers(s: System, s': System, t: TaskId)
  {
    && (forall u :: u in s.tasks && u != t && WriterPage(s.tasks[u]).Some? ==>
          SparesDisk(s, s', WriterPage(s.tasks[u]).value))
    && (forall page :: page in s.disk.volatile ==> page in s'.disk.volatile)
    && (forall file :: file in s.disk.count ==> file in s'.disk.count && s.disk.count[file] <= s'.disk.count[file])
  }

  ghost predicate SparesDrains(s: System, s': System, t: TaskId)
  {
    && (forall file :: file in s.pool.files && Other(s.pool.files[file].retirer, t) && s.pool.files[file].state == Retiring && Drained(s.pool, file) ==>
          && Drained(s'.pool, file)
          && forall page :: Matches(s'.pool, Some(file), page) ==> Matches(s.pool, Some(file), page))
    && (s.pool.quiescing && AllDrained(s.pool) ==>
          AllDrained(s'.pool) && forall page :: Matches(s'.pool, None, page) ==> Matches(s.pool, None, page))
  }

  predicate Latched(latch: Latch, u: TaskId) { u in latch.readers || latch.writer == Some(u) }

  ghost predicate SparesGuard(s: System, s': System, f: nat, u: TaskId)
    requires |s'.pool.frames| == |s.pool.frames| && f < |s.pool.frames|
  {
    && (u in s.pool.frames[f].latch.readers ==> u in s'.pool.frames[f].latch.readers)
    && (s.pool.frames[f].latch.writer == Some(u) ==> s'.pool.frames[f].latch.writer == Some(u))
    && (Shows(s, f) ==> Shows(s', f))
  }

  ghost predicate SparesGuards(s: System, s': System, t: TaskId)
    requires |s'.pool.frames| == |s.pool.frames|
  {
    forall f, u :: 0 <= f < |s.pool.frames| && u != t && Latched(s.pool.frames[f].latch, u) ==> SparesGuard(s, s', f, u)
  }

  ghost predicate Spares(s: System, s': System, t: TaskId)
  {
    && s.Wf() && s'.Wf() && |s'.pool.frames| == |s.pool.frames|
    && SparesTasks(s, s', t) && SparesFrames(s, s', t) && SparesEntries(s, s', t)
    && SparesTransfers(s, s', t) && SparesDrains(s, s', t) && SparesGuards(s, s', t)
  }

  // ---- Spared tasks keep their assertions ----

  lemma SparedWant(s: System, s': System, t: TaskId, u: TaskId, want: Want)
    requires Spares(s, s', t) && u != t && WantOk(s, u, want)
    ensures WantOk(s', u, want)
  {
    hide SparesFrames, SparesTransfers, SparesDrains, SparesGuards;
  }

  lemma SparedHeld(s: System, s': System, t: TaskId, u: TaskId, f: nat)
    requires Spares(s, s', t) && u != t && Holds(s, u, f)
    ensures Holds(s', u, f) && SparesFrame(s, s', f)
  {
    hide SparesTasks, SparesEntries, SparesTransfers, SparesDrains, SparesGuards;
  }

  lemma SparedProgress(s: System, s': System, t: TaskId, u: TaskId, page: PageId, image: Image, progress: Progress)
    requires Spares(s, s', t) && u != t && u in s.tasks && WriterPage(s.tasks[u]) == Some(page)
    requires page in s.published && ProgressOk(s, page, image, progress)
    ensures ProgressOk(s', page, image, progress)
  {
    hide SparesFrames, SparesEntries, SparesDrains, SparesGuards;
    assert SparesDisk(s, s', page);
  }

  lemma SparedJob(s: System, s': System, t: TaskId, u: TaskId, job: Job, pages: seq<PageId>, failed: bool)
    requires Spares(s, s', t) && u != t && JobOk(s, u, job, pages, failed)
    ensures JobOk(s', u, job, pages, failed)
  {
    hide SparesFrames, SparesTransfers, SparesGuards, Drained, AllDrained, Matches;
  }

  lemma SparedTask(s: System, s': System, t: TaskId, u: TaskId)
    requires Spares(s, s', t) && u in s.tasks && u != t && TaskOk(s, u)
    requires s.tasks[u].Evict? || s.tasks[u].Write? ==> PublishedWriter(s, u)
    ensures u in s'.tasks && TaskOk(s', u)
  {
    assert u in s'.tasks && s'.tasks[u] == s.tasks[u] by { hide SparesFrames, SparesEntries, SparesTransfers, SparesDrains, SparesGuards; }
    var f := FrameOf(s.tasks[u]);
    if f.Some? {
      SparedHeld(s, s', t, u, f.value);
    }
    var want := WantOf(s.tasks[u]);
    if want.Some? {
      SparedWant(s, s', t, u, want.value);
    }
    match s.tasks[u] {
      case Evict(_, _, victim, image, progress) =>
        SparedProgress(s, s', t, u, victim, image, progress);
      case LoadRead(_, _, _, _) => SparedLoad(s, s', t, u);
      case Guard(_, _, _) => SparedGuard(s, s', t, u);
      case Numbered(_, _, _) => SparedCreator(s, s', t, u);
      case Build(_, _, _) => SparedCreator(s, s', t, u);
      case Flush(job, pages, failed) => SparedJob(s, s', t, u, job, pages, failed);
      case Copy(job, pages, failed, _, _) => SparedJob(s, s', t, u, job, pages, failed);
      case Write(job, pages, failed, _, _, _, image, progress) =>
        SparedJob(s, s', t, u, job, pages, failed);
        SparedProgress(s, s', t, u, pages[0], image, progress);
      case Fetch(_, _) => SparedSimple(s, s', t, u);
      case Join(_, _, _) => SparedSimple(s, s', t, u);
      case Pinned(_, _) => SparedSimple(s, s', t, u);
      case Unpin(_) => SparedSimple(s, s', t, u);
      case Drain(_, _) => SparedSimple(s, s', t, u);
      case DrainAll => SparedSimple(s, s', t, u);
      case Register(_, _) => SparedSimple(s, s', t, u);
      case _ =>
    }
    hide Spares, WantOk, JobOk, ProgressOk, SameContent;
  }

  /** The page a task writes back is published (its frame is resident or evicting). */
  predicate PublishedWriter(s: System, u: TaskId)
    requires u in s.tasks
  {
    WriterPage(s.tasks[u]).Some? && WriterPage(s.tasks[u]).value in s.published
  }

  lemma SparedSimple(s: System, s': System, t: TaskId, u: TaskId)
    requires Spares(s, s', t) && u in s.tasks && u != t && TaskOk(s, u)
    requires || s.tasks[u].Fetch? || s.tasks[u].Join? || s.tasks[u].Pinned? || s.tasks[u].Unpin?
             || s.tasks[u].Drain? || s.tasks[u].DrainAll? || s.tasks[u].Register?
    ensures u in s'.tasks && TaskOk(s', u)
  {
    hide SparesFrames, SparesDrains, SparesGuards, WantOk, JobOk, ProgressOk, SameContent;
  }

  lemma SparedLoad(s: System, s': System, t: TaskId, u: TaskId)
    requires Spares(s, s', t) && u in s.tasks && u != t && TaskOk(s, u) && s.tasks[u].LoadRead?
    ensures u in s'.tasks && TaskOk(s', u)
  {
    SparedHeld(s, s', t, u, s.tasks[u].frame);
    hide SparesFrames, SparesTransfers, SparesDrains, SparesGuards, WantOk, JobOk, ProgressOk, SameContent;
  }

  lemma SparedCreator(s: System, s': System, t: TaskId, u: TaskId)
    requires Spares(s, s', t) && u in s.tasks && u != t && TaskOk(s, u) && (s.tasks[u].Numbered? || s.tasks[u].Build?)
    ensures u in s'.tasks && TaskOk(s', u)
  {
    SparedHeld(s, s', t, u, s.tasks[u].frame);
    hide SparesFrames, SparesDrains, SparesGuards, WantOk, JobOk, ProgressOk, SameContent;
  }

  lemma SparedGuard(s: System, s': System, t: TaskId, u: TaskId)
    requires Spares(s, s', t) && u in s.tasks && u != t && TaskOk(s, u) && s.tasks[u].Guard?
    ensures u in s'.tasks && TaskOk(s', u)
  {
    assert Latched(s.pool.frames[s.tasks[u].frame].latch, u);
    hide SparesFrames, SparesEntries, SparesTransfers, SparesDrains, WantOk, JobOk, ProgressOk, Shows;
  }

  lemma WriterIsPublished(s: System, u: TaskId)
    requires Core(s) && u in s.tasks && (s.tasks[u].Evict? || s.tasks[u].Write?)
    ensures PublishedWriter(s, u)
  {
    assert TaskOk(s, u);
    if s.tasks[u].Write? {
      assert FrameOk(s, s.tasks[u].frame);
    }
    hide Core, WantOk, JobOk, ProgressOk, SameContent, Drained, AllDrained;
  }

  lemma Assemble(s: System, s': System, t: TaskId)
    requires Core(s) && Spares(s, s', t) && StateOk(s') && (t in s'.tasks ==> TaskOk(s', t))
    ensures Core(s')
  {
    forall u | u in s'.tasks ensures TaskOk(s', u) {
      if u != t {
        assert u in s.tasks by { hide SparesFrames, SparesEntries, SparesTransfers, SparesDrains, SparesGuards, StateOk, Core, TaskOk; }
        assert TaskOk(s, u);
        if s.tasks[u].Evict? || s.tasks[u].Write? { WriterIsPublished(s, u); }
        SparedTask(s, s', t, u);
      }
    }
    hide Spares, StateOk, TaskOk;
  }
}
