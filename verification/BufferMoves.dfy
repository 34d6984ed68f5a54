/** Steps confined to one task, frame, page and file, on a page or file that is in use. */
module BufferMoves {
  import opened Basics
  import opened PageChecksum
  import opened BufferState
  import opened BufferSystem
  import opened BufferInvariant
  import opened BufferRely
  import opened BufferLocal
  import opened BufferGuardSteps

  /** What becomes of the parts a step may touch. */
  function Seen(s': System, f: nat, task: Change<Task>, load: Change<Load>, entry: Change<Entry>, image: Change<Image>, file: Change<FileEntry>): Update
    requires s'.Wf() && f < |s'.pool.frames|
  {
    Update(task, load, s'.pool.frames[f], s'.holders[f], entry, image, file, s'.pool.free, s'.pool.clock)
  }

  /** The half of a move that concerns everybody else. */
  ghost predicate Shape(s: System, s': System, t: TaskId, f: nat, p: PageId, g: nat, u: Update)
  {
    && s.Wf() && s'.Wf() && Sound(s, f, u) && s' == Updated(s, t, f, p, g, u)
    && Owns(s, s', t, f, p, g) && FreeRight(s, f, u)
  }

  /** The half of a move that concerns its own parts. */
  ghost predicate Mended(s': System, t: TaskId, f: nat, p: PageId, g: nat)
  {
    Repaired(s', t, f, p, g) && (t in s'.tasks ==> TaskOk(s', t))
  }

  predicate FreeRight(s: System, f: nat, u: Update)
  {
    && Distinct(u.free) && (forall h :: h in u.free ==> h < |s.pool.frames|)
    && (f in u.free ==> u.frame.state == Free && u.holder == None)
  }

  predicate ActiveFile(s: System, file: nat) { file in s.pool.files && s.pool.files[file].state == Active }

  /** No drain can be complete for the page's or the file's owner, nor for the pool. */
  predicate Busy(s: System, p: PageId, g: nat)
  {
    && (!Drained(s.pool, p.file) || ActiveFile(s, p.file))
    && !(s.pool.quiescing && AllDrained(s.pool))
    && (g == p.file || ActiveFile(s, g))
  }

  lemma MoveKeeps(s: System, s': System, t: TaskId, f: nat, p: PageId, g: nat, u: Update)
    requires Core(s) && Shape(s, s', t, f, p, g, u) && Mended(s', t, f, p, g) && Busy(s, p, g)
    ensures Core(s')
  {
    UpdateConfined(s, t, f, p, g, u) by { hide Core, Owns, Repaired, TaskOk, Drained, AllDrained; }
    BusyDrains(s, s', t, f, p, g) by { hide StateOk, Repaired, TaskOk, Confined, Drained, AllDrained, SparesFrame, SparesGuard, SameRole; }
    UpdateKeeps(s, s', t, f, p, g, u) by { hide Core, Owns, Repaired, TaskOk, Confined, Drained, AllDrained, SparesDrains; }
    hide *;
  }

  /** A page that is loading or leaving keeps its file and the pool from being drained. */
  lemma EntryBusy(s: System, page: PageId)
    requires page in s.pool.table && s.pool.table[page].state != ResidentEntry
    ensures !Drained(s.pool, page.file) && !AllDrained(s.pool)
  {}

  lemma CreatorBusy(s: System, t: TaskId, file: nat)
    requires CreatorIs(s, t, file)
    ensures !Drained(s.pool, file) && !AllDrained(s.pool)
  {}

  /** A page and a file that a want is about. */
  function Home(want: Want): PageId
  {
    match want
    case ForLoad(page, _) => page
    case ForNew(file) => PageId(file, 0)
  }

  lemma WantBusy(s: System, t: TaskId, want: Want)
    requires WantOk(s, t, want)
    ensures !Drained(s.pool, Home(want).file) && !AllDrained(s.pool)
  {
    match want
    case ForLoad(page, _) => EntryBusy(s, page);
    case ForNew(file) => CreatorBusy(s, t, file);
  }

  lemma PopLast(free: seq<nat>)
    requires |free| > 0 && Distinct(free)
    ensures var f, rest := free[|free| - 1], free[..|free| - 1];
      Distinct(rest) && f !in rest && forall h :: h != f ==> (h in rest <==> h in free)
  {
    var rest := free[..|free| - 1];
    assert free == rest + [free[|free| - 1]];
  }

  lemma AppendFree(free: seq<nat>, f: nat)
    ensures f in free + [f] && forall h :: h != f ==> (h in free + [f] <==> h in free)
    ensures Distinct(free) && f !in free ==> Distinct(free + [f])
  {}
}
