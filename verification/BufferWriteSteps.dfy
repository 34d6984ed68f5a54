/** Preservation by FlushPageLocked and WritebackResident: a copied image, reconciled by generation. */
module BufferWriteSteps {
  import opened Basics
  import opened PageChecksum
  import opened BufferState
  import opened BufferSystem
  import opened BufferInvariant
  import opened BufferRely
  import opened BufferLocal
  import opened BufferMoves

  /** Entries, pins and creators stay; frames only become cleaner. */
  predicate Quiet(p: Pool, p': Pool)
  {
    && p'.table == p.table && p'.files == p.files && |p'.frames| == |p.frames|
    && forall f :: 0 <= f < |p.frames| ==>
         p'.frames[f].pins == p.frames[f].pins && (p'.frames[f].dirty ==> p.frames[f].dirty)
  }

  lemma QuietDrained(p: Pool, p': Pool, file: nat)
    requires Quiet(p, p') && Drained(p, file)
    ensures Drained(p', file)
  {}

  lemma QuietAllDrained(p: Pool, p': Pool)
    requires Quiet(p, p') && AllDrained(p)
    ensures AllDrained(p')
  {}

  lemma QuietMatches(p: Pool, p': Pool, only: Option<nat>, page: PageId)
    requires Quiet(p, p') && Matches(p', only, page)
    ensures Matches(p, only, page)
  {}

  lemma QuietSpares(s: System, s': System, t: TaskId)
    requires Quiet(s.pool, s'.pool)
    ensures SparesDrains(s, s', t)
  {
    forall file | file in s.pool.files && Drained(s.pool, file) ensures Drained(s'.pool, file) {
      QuietDrained(s.pool, s'.pool, file);
    }
    if AllDrained(s.pool) { QuietAllDrained(s.pool, s'.pool); }
    forall only, page | Matches(s'.pool, only, page) ensures Matches(s.pool, only, page) {
      QuietMatches(s.pool, s'.pool, only, page);
    }
    hide Drained, AllDrained, Matches, Quiet;
  }

  lemma QuietJob(s: System, s': System, t: TaskId, job: Job, pages: seq<PageId>, failed: bool)
    requires Quiet(s.pool, s'.pool) && s'.pool.quiescing == s.pool.quiescing && JobOk(s, t, job, pages, failed)
    ensures JobOk(s', t, job, pages, failed)
  {
    match job {
      case Flushing =>
      case RetiringFile(file) =>
        QuietDrained(s.pool, s'.pool, file);
        forall page | Matches(s'.pool, Some(file), page) ensures Matches(s.pool, Some(file), page) {
          QuietMatches(s.pool, s'.pool, Some(file), page);
        }
      case ShuttingDown =>
        QuietAllDrained(s.pool, s'.pool);
        forall page | Matches(s'.pool, None, page) ensures Matches(s.pool, None, page) {
          QuietMatches(s.pool, s'.pool, None, page);
        }
    }
    hide Drained, AllDrained, Matches, Quiet;
  }

  lemma QuietKeeps(s: System, s': System, t: TaskId, f: nat, p: PageId, u: Update)
    requires Core(s) && Shape(s, s', t, f, p, p.file, u) && Mended(s', t, f, p, p.file) && Quiet(s.pool, s'.pool)
    ensures Core(s')
  {
    QuietSpares(s, s', t) by { hide Core, Shape, Mended, Quiet; }
    assert u.frame.dirty ==> s.pool.frames[f].dirty by { hide Core, Owns, Mended, FreeRight; }
    UpdateKeeps(s, s', t, f, p, p.file, u) by { hide Core, Owns, Repaired, TaskOk, Quiet, AllDrained, SparesDrains; }
    hide *;
  }

  // ---- The image is claimed for writing ----

  /** FlushPageLocked finds the page resident, dirty and idle. */
  ghost predicate Claims(s: System, t: TaskId, f: nat, p: PageId)
  {
    && Around(s, t, f, p, p.file) && FreeOk(s) && CanFlushNext(s, t) && p == s.tasks[t].pages[0]
    && p in s.pool.table && s.pool.table[p].state == ResidentEntry && s.pool.table[p].frame == f
    && s.pool.frames[f].dirty && s.pool.frames[f].io == Idle
  }

  lemma ShapeClaim(s: System, t: TaskId, f: nat, p: PageId)
    requires Claims(s, t, f, p)
    ensures var s' := DoFlushNext(s, t);
      t in s'.tasks && Quiet(s.pool, s'.pool) && Shape(s, s', t, f, p, p.file, Seen(s', f, Put(s'.tasks[t]), Keep, Keep, Keep, Keep))
  {
    hide SameContent, PageOk, FileOk, LoadOk, JobOk;
  }

  lemma ClaimedOk(s: System, t: TaskId, f: nat, p: PageId)
    requires Claims(s, t, f, p) && Quiet(s.pool, DoFlushNext(s, t).pool)
    ensures t in DoFlushNext(s, t).tasks && TaskOk(DoFlushNext(s, t), t)
  {
    QuietJob(s, DoFlushNext(s, t), t, s.tasks[t].job, s.tasks[t].pages, s.tasks[t].failed);
    hide SameContent, JobOk, Quiet, PageOk, FileOk, LoadOk;
  }

  lemma MendClaim(s: System, t: TaskId, f: nat, p: PageId)
    requires Claims(s, t, f, p) && Quiet(s.pool, DoFlushNext(s, t).pool)
    ensures Mended(DoFlushNext(s, t), t, f, p, p.file)
  {
    ClaimedOk(s, t, f, p) by { hide Claims, Quiet; }
    hide SameContent, TaskOk, Quiet;
  }

  lemma KeepClaim(s: System, t: TaskId, f: nat, p: PageId)
    requires Core(s) && CanFlushNext(s, t) && p == s.tasks[t].pages[0] && f < |s.pool.frames|
    requires p in s.pool.table && s.pool.table[p].state == ResidentEntry && s.pool.table[p].frame == f
    requires s.pool.frames[f].dirty && s.pool.frames[f].io == Idle
    ensures Core(DoFlushNext(s, t))
  {
    AroundAt(s, t, f, p, p.file);
    assert FreeOk(s) by { hide TaskOk; }
    ShapeClaim(s, t, f, p) by { hide Core, Around, FreeOk; }
    MendClaim(s, t, f, p) by { hide Core, Around, FreeOk, Shape, Quiet; }
    var s' := DoFlushNext(s, t);
    QuietKeeps(s, s', t, f, p, Seen(s', f, Put(s'.tasks[t]), Keep, Keep, Keep, Keep)) by {
      hide Core, Shape, Mended, Around, FreeOk, Quiet;
    }
    hide *;
  }

  // ---- The write is reconciled ----

  ghost predicate Writes(s: System, t: TaskId, f: nat, p: PageId)
  {
    Around(s, t, f, p, p.file) && FreeOk(s) && CanFinishWrite(s, t) && p == s.tasks[t].pages[0] && f == s.tasks[t].frame
  }

  lemma ShapeFinishWrite(s: System, t: TaskId, f: nat, p: PageId)
    requires Writes(s, t, f, p)
    ensures var s' := DoFinishWrite(s, t);
      t in s'.tasks && Quiet(s.pool, s'.pool) && Shape(s, s', t, f, p, p.file, Seen(s', f, Put(s'.tasks[t]), Keep, Keep, Keep, Keep))
  {
    hide SameContent, PageOk, FileOk, LoadOk, JobOk, ProgressOk;
  }

  lemma MendFinishWrite(s: System, t: TaskId, f: nat, p: PageId)
    requires Writes(s, t, f, p) && Quiet(s.pool, DoFinishWrite(s, t).pool)
    ensures Mended(DoFinishWrite(s, t), t, f, p, p.file)
  {
    QuietJob(s, DoFinishWrite(s, t), t, s.tasks[t].job, s.tasks[t].pages, s.tasks[t].failed);
    FailedJob(DoFinishWrite(s, t), t, s.tasks[t].job, s.tasks[t].pages, s.tasks[t].failed);
    hide JobOk, Quiet;
  }

  lemma FailedJob(s: System, t: TaskId, job: Job, pages: seq<PageId>, failed: bool)
    requires JobOk(s, t, job, pages, failed) && |pages| > 0
    ensures JobOk(s, t, job, pages[1..], true)
  {
    hide Drained, AllDrained, Matches;
  }

  lemma KeepFinishWrite(s: System, t: TaskId)
    requires Core(s) && CanFinishWrite(s, t) && s.tasks[t].frame < |s.pool.frames|
    ensures Core(DoFinishWrite(s, t))
  {
    var f, p := s.tasks[t].frame, s.tasks[t].pages[0];
    AroundAt(s, t, f, p, p.file);
    assert FreeOk(s) by { hide TaskOk; }
    ShapeFinishWrite(s, t, f, p) by { hide Core, Around, FreeOk; }
    MendFinishWrite(s, t, f, p) by { hide Core, Around, FreeOk, Shape, Quiet; }
    var s' := DoFinishWrite(s, t);
    QuietKeeps(s, s', t, f, p, Seen(s', f, Put(s'.tasks[t]), Keep, Keep, Keep, Keep)) by {
      hide Core, Shape, Mended, Around, FreeOk, Quiet;
    }
    hide *;
  }
}
