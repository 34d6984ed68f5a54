/** Page guards (src/storage/buffer/page_guard.cpp): one pin and one latch, released once, latch first. */
module PageGuards {
  import opened Basics
  import opened BufferState
  import opened BufferSystem
  import opened BufferPools

  /** The latch of frame `f` without `holder`. */
  function Unlatch(p: Pool, f: nat, holder: TaskId, mode: Mode): Pool
    requires f < |p.frames|
  {
    var latch := p.frames[f].latch;
    p.With(f, p.frames[f].(latch := if mode == Shared then latch.(readers := latch.readers - {holder}) else latch.(writer := None)))
  }

  /** What releasing a live guard does to the pool: the latch goes, then the pin. */
  function Released(p: Pool, f: nat, holder: TaskId, mode: Mode): Pool
  {
    if f >= |p.frames| then p else DropPin(Unlatch(p, f, holder, mode), f)
  }

  /** The pool a guard refers to; an inert guard refers to none. */
  ghost function PoolOf(pool: BufferPool?): Option<Pool>
    reads pool, if pool != null then {pool.frames, pool.clock, pool.clock.referenced} else {}
  {
    if pool == null || !pool.Valid() then None else Some(pool.View())
  }

  function ReleasedFrom(p: Option<Pool>, f: nat, holder: TaskId, mode: Mode): Option<Pool>
  {
    match p
    case None => None
    case Some(pool) => Some(Released(pool, f, holder, mode))
  }

  class PageGuard {
    const mode: Mode
    var pool: BufferPool?
    var frame: nat
    var holder: TaskId

    ghost predicate Valid()
      reads this, pool, if pool != null then {pool.clock} else {}
    {
      pool != null ==> pool.Valid() && frame < pool.frames.Length
    }

    constructor (pool: BufferPool, frame: nat, holder: TaskId, mode: Mode)
      requires pool.Valid() && frame < pool.frames.Length
      ensures Valid() && this.pool == pool && this.frame == frame && this.holder == holder && this.mode == mode
    {
      this.pool := pool;
      this.frame := frame;
      this.holder := holder;
      this.mode := mode;
    }

    /** A second release finds no pool and does nothing. */
    method Release()
      requires Valid()
      modifies this`pool, if pool != null then {pool.frames} else {}
      ensures pool == null && Valid()
      ensures PoolOf(old(pool)) == ReleasedFrom(old(PoolOf(pool)), frame, holder, mode)
    {
      if pool == null {
        return;
      }
      var owner := pool;
      pool := null;
      var held := owner.frames[frame];
      var latch := if mode == Shared then held.latch.(readers := held.latch.readers - {holder}) else held.latch.(writer := None);
      owner.frames[frame] := held.(latch := latch);
      owner.Unpin(frame);
    }

    /** The move: the other guard becomes inert, and its pin and latch change hands untouched. */
    method TakeFrom(other: PageGuard)
      requires Valid() && other.Valid() && other.mode == mode && pool == null && this != other
      modifies this, other`pool
      ensures Valid() && other.pool == null
      ensures pool == old(other.pool) && frame == other.frame && holder == other.holder
    {
      pool := other.pool;
      other.pool := null;
      frame := other.frame;
      holder := other.holder;
    }

    /** Move assignment releases its own residency before it takes the other's; onto itself it does nothing. */
    method MoveAssign(other: PageGuard)
      requires Valid() && other.Valid() && other.mode == mode
      modifies this, other`pool, if pool != null then {pool.frames} else {}
      ensures Valid() && (this != other ==> other.pool == null && pool == old(other.pool) && holder == other.holder && frame == other.frame)
      ensures this == other ==> pool == old(pool) && frame == old(frame) && holder == old(holder)
      ensures PoolOf(old(pool)) == if this == other then old(PoolOf(pool)) else ReleasedFrom(old(PoolOf(pool)), old(frame), old(holder), mode)
    {
      if this != other {
        Release();
        TakeFrom(other);
      }
    }
  }

  // ---- The methods are the step machine's steps ----

  /** Releasing a guard is the machine's two steps, latch then pin, and nothing in between is lost. */
  lemma ReleaseIsTwoSteps(s: System, t: TaskId)
    requires s.Wf() && CanReleaseLatch(s, t) && s.tasks[t].frame < |s.pool.frames|
    ensures var mid := DoReleaseLatch(s, t);
      && mid.Wf() && CanReleasePin(mid, t)
      && DoReleasePin(mid, t).pool == Released(s.pool, s.tasks[t].frame, t, s.tasks[t].mode) && t !in DoReleasePin(mid, t).tasks
  {}

  lemma ExaminePool(s: System, t: TaskId)
    requires s.Wf() && CanExamine(s, t)
    ensures DoExamine(s, t).pool == FetchSection(s.pool, t, s.tasks[t].page).0
  {
    hide Fetchable;
  }

  lemma ExamineOutcome(s: System, t: TaskId)
    requires s.Wf() && CanExamine(s, t)
    ensures var outcome, s' := FetchSection(s.pool, t, s.tasks[t].page).1, DoExamine(s, t);
      match outcome
      case Refused(_) => t !in s'.tasks
      case PinOverflow => t !in s'.tasks
      case Waits => s' == s
      case Loads => t in s'.tasks && s'.tasks[t] == Acquire(ForLoad(s.tasks[t].page, s.tasks[t].mode))
      case Joins(l) => t in s'.tasks && s'.tasks[t] == Join(s.tasks[t].page, s.tasks[t].mode, l)
      case Pins(f) => t in s'.tasks && s'.tasks[t] == Pinned(f, s.tasks[t].mode)
  {
    hide Fetchable, InstallIntent, PinResident, Claim;
  }
}
