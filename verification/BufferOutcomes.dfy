/** How loads and evictions end: every claim becomes one pin, and a failure leaves nothing behind. */
module BufferOutcomes {
  import opened Basics
  import opened PageChecksum
  import opened BufferState
  import opened BufferSystem
  import opened BufferInvariant
  import opened BufferPins
  import opened BufferPinSteps
  import opened BufferPreservation

  /** A load that is published: loader and joiners own one pin each, and no one else does. */
  lemma ClaimsBecomePins(s: System, t: TaskId)
    requires s.Wf() && Inv(s) && CanFinishLoad(s, t) && s.tasks[t].verdict == Some(Valid)
    requires s.tasks[t].page.file in s.pool.files && s.pool.files[s.tasks[t].page.file].state == Active
    ensures var f, s' := s.tasks[t].frame, DoFinishLoad(s, t);
      && f < |s.pool.frames| && t in s.pool.loads && t !in Joiners(s, t)
      && Owners(s', f) == {t} + Joiners(s, t)
      && s'.tasks[t] == Pinned(f, s.tasks[t].mode)
      && s'.pool.frames[f].pins == s.pool.loads[t].claims == 1 + |Joiners(s, t)|
  {
    TaskKnown(s, t) by { hide Inv; }
    InvParts(s);
    LoadingPins(s, t) by { hide Inv, Core, PinsOk, LatchesOk, Knows; }
    PublishOwners(s, t, s.tasks[t].frame) by { hide Inv, Core, PinsOk, LatchesOk, Knows; }
    assert Owners(s, s.tasks[t].frame) == {} by { hide Inv, Core, LatchesOk, Knows; }
    hide Inv, Core, LatchesOk, Knows, Owners;
  }

  /** The read failed, the page was refused, or the file began to retire during the load. */
  predicate Fails(s: System, t: TaskId)
    requires CanFinishLoad(s, t)
  {
    var LoadRead(page, _, _, verdict) := s.tasks[t];
    verdict != Some(Valid) || (page.file in s.pool.files && s.pool.files[page.file].state != Active)
  }

  /** A load that fails: its mapping is gone, its frame is free, and nothing else has changed. */
  lemma FailedLoadSettles(s: System, t: TaskId)
    requires s.Wf() && Inv(s) && CanFinishLoad(s, t) && Fails(s, t)
    ensures var f, page, s' := s.tasks[t].frame, s.tasks[t].page, DoFinishLoad(s, t);
      && f < |s'.pool.frames| && s'.pool.frames[f].state == Free && s'.pool.free == s.pool.free + [f] && f !in s.pool.free
      && s'.pool.table == s.pool.table - {page} && s'.pool.files == s.pool.files
      && s'.published == s.published && s'.disk == s.disk && t !in s'.tasks
  {
    TaskKnown(s, t) by { hide Inv; }
    hide Inv, Core, PinsOk, LatchesOk, SameContent;
  }

  /** And every joiner of it wakes to the error, owning no pin. */
  lemma FailureReachesJoiners(s: System, t: TaskId, u: TaskId)
    requires s.Wf() && Inv(s) && CanFinishLoad(s, t) && Fails(s, t) && u in Joiners(s, t)
    ensures var s' := DoFinishLoad(s, t);
      && s'.Wf() && CanWake(s', u) && PinAt(s', u) == None
      && DoWake(s', u) == s'.End(u)
  {
    TaskKnown(s, t) by { hide Inv; }
    hide Inv, Core, PinsOk, LatchesOk, SameContent;
  }

  /** An eviction whose writeback fails: the victim is pinnable again with its changes, and the caller gives up. */
  lemma FailedEvictionRestores(s: System, t: TaskId)
    requires s.Wf() && Inv(s) && CanFinishEvict(s, t) && s.tasks[t].progress == Failed
    ensures var f, victim, s' := s.tasks[t].frame, s.tasks[t].victim, DoFinishEvict(s, t);
      && f < |s.pool.frames| && s.pool.frames[f].page == victim && s.pool.frames[f].dirty
      && s'.pool.frames == s.pool.frames[f := s.pool.frames[f].(state := Resident, io := Idle)]
      && victim in s'.pool.table && s'.pool.table[victim] == Entry(ResidentEntry, f, None)
      && s'.published == s.published && s'.disk == s.disk && s'.pool.free == s.pool.free && t !in s'.tasks
  {
    TaskKnown(s, t) by { hide Inv; }
    hide Inv, Core, PinsOk, LatchesOk, SameContent;
  }
}
