/** The steps that do move a pin, a claim or a latch. */
module BufferPinSteps {
  import opened Basics
  import opened PageChecksum
  import opened BufferState
  import opened BufferSystem
  import opened BufferInvariant
  import opened BufferGuardSteps
  import opened BufferLoadSteps
  import opened BufferCallSteps
  import opened BufferOpenSteps
  import opened BufferTaskStep
  import opened BufferPins

  /** A step that changes the owners of frame `f` alone, and the claims of no load. */
  predicate PinMoves(s: System, s': System, t: TaskId, f: nat)
  {
    && |s'.pool.frames| == |s.pool.frames| && s'.pool.maxPins == s.pool.maxPins && OthersStay(s, s', t)
    && (forall h :: 0 <= h < |s.pool.frames| && h != f ==> s'.pool.frames[h].pins == s.pool.frames[h].pins)
    && s'.pool.loads == s.pool.loads && WaitAt(s, t) == WaitAt(s', t) == None
    && PinAt(s, t) in {None, Some(f)} && PinAt(s', t) in {None, Some(f)}
  }

  lemma PinMoveKeeps(s: System, s': System, t: TaskId, f: nat)
    requires PinsOk(s) && PinMoves(s, s', t, f) && f < |s.pool.frames|
    requires s'.pool.frames[f].pins ==
      s.pool.frames[f].pins - (if PinAt(s, t) == Some(f) then 1 else 0) + (if PinAt(s', t) == Some(f) then 1 else 0)
    requires s'.pool.frames[f].pins <= s.pool.maxPins
    ensures PinsOk(s')
  {
    forall h | 0 <= h < |s'.pool.frames| ensures s'.pool.frames[h].pins == |Owners(s', h)| <= s'.pool.maxPins {
      MovedOwners(s, s', t, f, h);
    }
    forall l | l in s'.pool.loads && !s'.pool.loads[l].done ensures s'.pool.loads[l].claims == 1 + |Joiners(s', l)| {
      assert forall u :: (u in Joiners(s, l) <==> WaitAt(s, u) == Some(l)) && (u in Joiners(s', l) <==> WaitAt(s', u) == Some(l));
      assert Joiners(s', l) == Joiners(s, l);
    }
    hide Owners, PinAt;
  }

  lemma OwnersArePinned(s: System, h: nat)
    ensures forall u :: u in Owners(s, h) <==> PinAt(s, u) == Some(h)
  {}

  lemma WithoutOne(a: set<TaskId>, t: TaskId)
    ensures |a| == |a - {t}| + (if t in a then 1 else 0)
  {
    if t in a { assert a == (a - {t}) + {t}; } else { assert a == a - {t}; }
  }

  lemma MovedOwners(s: System, s': System, t: TaskId, f: nat, h: nat)
    requires PinMoves(s, s', t, f)
    ensures t in Owners(s, h) <==> PinAt(s, t) == Some(h)
    ensures t in Owners(s', h) <==> PinAt(s', t) == Some(h)
    ensures h != f ==> Owners(s', h) == Owners(s, h)
    ensures |Owners(s, h)| - (if t in Owners(s, h) then 1 else 0) == |Owners(s', h)| - (if t in Owners(s', h) then 1 else 0)
  {
    OwnersArePinned(s, h);
    OwnersArePinned(s', h);
    forall u | u != t ensures u in Owners(s, h) <==> u in Owners(s', h) {
      assert PinAt(s, u) == PinAt(s', u) by { hide Owners, WaitAt; }
    }
    assert Owners(s', h) - {t} == Owners(s, h) - {t} by { hide Owners, PinMoves, PinAt; }
    WithoutOne(Owners(s, h), t);
    WithoutOne(Owners(s', h), t);
    hide Owners, PinAt, OthersStay, WaitAt;
  }

  // ---- Pins ----

  lemma PinsPin(s: System, t: TaskId, f: nat)
    requires s.Wf() && PinsOk(s) && LatchesOk(s) && CanExamine(s, t) && f < |s.pool.frames| && s.pool.frames[f].pins < s.pool.maxPins
    ensures PinsOk(AfterPin(s, t, f)) && LatchesOk(AfterPin(s, t, f))
  {
    var s' := AfterPin(s, t, f);
    assert PinMoves(s, s', t, f) by { hide PinsOk, LatchesOk; }
    PinMoveKeeps(s, s', t, f) by { hide PinsOk, LatchesOk, PinMoves; }
    hide PinsOk, PinMoves;
  }

  lemma PinsReleasePin(s: System, t: TaskId)
    requires PinsOk(s) && LatchesOk(s) && Knows(s, t) && CanReleasePin(s, t) && s.tasks[t].frame < |s.pool.frames| && s.pool.frames[s.tasks[t].frame].pins > 0
    ensures PinsOk(DoReleasePin(s, t)) && LatchesOk(DoReleasePin(s, t))
  {
    var s' := DoReleasePin(s, t);
    var f := s.tasks[t].frame;
    assert s.pool.frames[f].pins <= s.pool.maxPins by { hide Knows, LatchesOk, Owners; }
    assert PinMoves(s, s', t, f) by { hide PinsOk, LatchesOk, Knows; }
    PinMoveKeeps(s, s', t, f) by { hide PinsOk, LatchesOk, PinMoves, Knows; }
    hide PinsOk, PinMoves, Knows;
  }

  lemma PinsPublishNew(s: System, t: TaskId)
    requires PinsOk(s) && LatchesOk(s) && Knows(s, t) && CanFinishNew(s, t) && s.tasks[t].built == Some(true)
    requires s.tasks[t].page.file in s.pool.files && s.pool.files[s.tasks[t].page.file].state == Active
    ensures PinsOk(DoFinishNew(s, t)) && LatchesOk(DoFinishNew(s, t))
  {
    var s' := DoFinishNew(s, t);
    var f := s.tasks[t].frame;
    assert f < |s.pool.frames| && s.pool.frames[f].pins == 0 && s'.pool.frames[f].pins == 1 && 1 <= s.pool.maxPins by {
      hide PinsOk, LatchesOk, SameContent;
    }
    assert PinMoves(s, s', t, f) by { hide PinsOk, LatchesOk, FrameOk, TaskOk, LoadOk; }
    PinMoveKeeps(s, s', t, f) by { hide PinsOk, LatchesOk, PinMoves, Knows; }
    hide PinsOk, PinMoves, FrameOk, TaskOk, LoadOk;
  }

  // ---- Latches ----

  lemma PinsTakeLatch(s: System, t: TaskId)
    requires s.Wf() && PinsOk(s) && LatchesOk(s) && CanTakeLatch(s, t)
    ensures PinsOk(DoTakeLatch(s, t)) && LatchesOk(DoTakeLatch(s, t))
  {
    assert CountsSteady(s, DoTakeLatch(s, t), t) by { hide PinsOk, LatchesOk; }
    CountsKeep(s, DoTakeLatch(s, t), t) by { hide PinsOk, LatchesOk, CountsSteady; }
    hide PinsOk, CountsSteady;
  }

  lemma PinsReleaseLatch(s: System, t: TaskId)
    requires s.Wf() && PinsOk(s) && LatchesOk(s) && Knows(s, t) && CanReleaseLatch(s, t)
    requires s.tasks[t].frame < |s.pool.frames| && FrameOk(s, s.tasks[t].frame)
    ensures PinsOk(DoReleaseLatch(s, t)) && LatchesOk(DoReleaseLatch(s, t))
  {
    assert CountsSteady(s, DoReleaseLatch(s, t), t) by { hide PinsOk, LatchesOk, Knows; }
    CountsKeep(s, DoReleaseLatch(s, t), t) by { hide PinsOk, LatchesOk, CountsSteady, Knows, FrameOk; }
    ReleasedLatches(s, t) by { hide PinsOk, CountsSteady, LatchesOk, Knows, FrameOk; }
    hide *;
  }

  lemma ReleasedLatches(s: System, t: TaskId)
    requires LatchesOk(s) && Knows(s, t) && CanReleaseLatch(s, t)
    requires s.tasks[t].frame < |s.pool.frames| && FrameOk(s, s.tasks[t].frame)
    ensures LatchesOk(DoReleaseLatch(s, t))
  {
    hide LoadOk, SameContent, Shows;
  }

  // ---- Claims ----

  /** A join adds one waiter and one claim. */
  lemma PinsClaim(s: System, t: TaskId, l: TaskId)
    requires s.Wf() && PinsOk(s) && LatchesOk(s) && CanExamine(s, t) && l in s.pool.loads && !s.pool.loads[l].done
    ensures PinsOk(AfterClaim(s, t, l)) && LatchesOk(AfterClaim(s, t, l))
  {
    var s' := AfterClaim(s, t, l);
    forall f | 0 <= f < |s'.pool.frames| ensures Owners(s', f) == Owners(s, f) { ClaimOwners(s, t, l, f) by { hide PinsOk, LatchesOk; } }
    forall m | m in s'.pool.loads && !s'.pool.loads[m].done ensures s'.pool.loads[m].claims == 1 + |Joiners(s', m)| {
      ClaimJoiners(s, t, l, m) by { hide PinsOk, LatchesOk; }
    }
    assert LatchesOk(s') by { hide PinsOk; }
    hide Owners, Joiners;
  }

  lemma ClaimOwners(s: System, t: TaskId, l: TaskId, f: nat)
    requires s.Wf() && CanExamine(s, t) && l in s.pool.loads && !s.pool.loads[l].done
    ensures Owners(AfterClaim(s, t, l), f) == Owners(s, f)
  {
    var s' := AfterClaim(s, t, l);
    forall u ensures PinAt(s', u) == PinAt(s, u) {}
    OwnersArePinned(s, f);
    OwnersArePinned(s', f);
    hide Owners, PinAt;
  }

  lemma ClaimJoiners(s: System, t: TaskId, l: TaskId, m: TaskId)
    requires s.Wf() && CanExamine(s, t) && l in s.pool.loads
    ensures |Joiners(AfterClaim(s, t, l), m)| == |Joiners(s, m)| + (if m == l then 1 else 0)
  {
    var s' := AfterClaim(s, t, l);
    assert Joiners(s', m) == Joiners(s, m) + (if m == l then {t} else {});
    assert t !in Joiners(s, m);
  }

  /** A new load has no waiters yet. */
  lemma PinsInstall(s: System, t: TaskId)
    requires Core(s) && PinsOk(s) && LatchesOk(s) && CanExamine(s, t)
    ensures PinsOk(AfterInstall(s, t)) && LatchesOk(AfterInstall(s, t))
  {
    var s' := AfterInstall(s, t);
    assert s.Wf() by { hide TaskOk, PinsOk, LatchesOk; }
    assert t !in s.pool.loads by { TaskAt(s, t); hide Core, StateOk, PinsOk, LatchesOk; }
    forall u | u in s.tasks && s.tasks[u].Join? ensures s.tasks[u].load in s.pool.loads {
      TaskAt(s, u);
      hide Core, StateOk, PinsOk, LatchesOk;
    }
    forall f | 0 <= f < |s'.pool.frames| ensures Owners(s', f) == Owners(s, f) { InstallOwners(s, t, f) by { hide Core, PinsOk, LatchesOk; } }
    forall m | m in s'.pool.loads && !s'.pool.loads[m].done ensures s'.pool.loads[m].claims == 1 + |Joiners(s', m)| {
      InstallJoiners(s, t, m) by { hide Core, PinsOk, LatchesOk; }
      hide Core, LatchesOk, Joiners, Owners;
    }
    hide Core, Owners, Joiners;
  }

  lemma InstallOwners(s: System, t: TaskId, f: nat)
    requires s.Wf() && CanExamine(s, t) && t !in s.pool.loads
    requires forall u :: u in s.tasks && s.tasks[u].Join? ==> s.tasks[u].load in s.pool.loads
    ensures Owners(AfterInstall(s, t), f) == Owners(s, f)
  {
    var s' := AfterInstall(s, t);
    forall u ensures PinAt(s', u) == PinAt(s, u) {}
    OwnersArePinned(s, f);
    OwnersArePinned(s', f);
    hide Owners, PinAt;
  }

  lemma InstallJoiners(s: System, t: TaskId, m: TaskId)
    requires s.Wf() && CanExamine(s, t) && t !in s.pool.loads
    requires forall u :: u in s.tasks && s.tasks[u].Join? ==> s.tasks[u].load in s.pool.loads
    ensures Joiners(AfterInstall(s, t), m) == if m == t then {} else Joiners(s, m)
  {}

  // ---- Publication: the loader and every waiter own one pin each ----

  ghost predicate Publishes(s: System, t: TaskId)
  {
    && Knows(s, t) && CanFinishLoad(s, t) && s.tasks[t].verdict == Some(Valid)
    && s.tasks[t].page.file in s.pool.files && s.pool.files[s.tasks[t].page.file].state == Active
  }

  lemma PublishOwners(s: System, t: TaskId, h: nat)
    requires Publishes(s, t)
    ensures Owners(DoFinishLoad(s, t), h) == Owners(s, h) + (if h == s.tasks[t].frame then {t} + Joiners(s, t) else {})
  {
    var s' := DoFinishLoad(s, t);
    var f := s.tasks[t].frame;
    assert t in s.pool.loads && s'.pool.loads == s.pool.loads[t := Load(s.pool.loads[t].claims, true, Some(f))] && !s.pool.loads[t].done
      && s'.tasks == s.tasks[t := Pinned(f, s.tasks[t].mode)] by { hide FrameOk, SameContent, LoadOk; }
    hide Publishes;
  }

  lemma PublishJoiners(s: System, t: TaskId, m: TaskId)
    requires Publishes(s, t)
    ensures Joiners(DoFinishLoad(s, t), m) == Joiners(s, m)
  {
    hide FrameOk, SameContent, LoadOk, TaskOk;
  }

  lemma PublishedPins(s: System, t: TaskId, h: nat)
    requires PinsOk(s) && Publishes(s, t) && h < |s.pool.frames|
    ensures var s' := DoFinishLoad(s, t);
      |s'.pool.frames| == |s.pool.frames| && s'.pool.frames[h].pins == |Owners(s', h)| <= s'.pool.maxPins
  {
    var f := s.tasks[t].frame;
    PublishOwners(s, t, h) by { hide Publishes, PinsOk; }
    LoadingPins(s, t) by { hide PinsOk, Publishes; }
    assert h == f ==> Owners(s, h) == {} by { hide Publishes, Owners, Joiners; }
    assert t !in Joiners(s, t) by { hide TaskOk, FrameOk, LoadOk, PinsOk, Owners; }
    assert h == f ==> |Owners(DoFinishLoad(s, t), h)| == 1 + |Joiners(s, t)| by { hide Publishes, Joiners, Owners, PinsOk; }
    hide Owners, Joiners, TaskOk, FrameOk, LoadOk;
  }

  lemma LoadingPins(s: System, t: TaskId)
    requires Publishes(s, t)
    ensures var f := s.tasks[t].frame;
      && f < |s.pool.frames| && s.pool.frames[f].pins == 0
      && t in s.pool.loads && !s.pool.loads[t].done && s.pool.loads[t].claims <= s.pool.maxPins
  {
    hide SameContent;
  }

  lemma PublishedLatches(s: System, t: TaskId)
    requires LatchesOk(s) && Publishes(s, t)
    ensures LatchesOk(DoFinishLoad(s, t))
  {
    hide TaskOk, FrameOk, LoadOk;
  }

  lemma PublishedClaims(s: System, t: TaskId, m: TaskId)
    requires PinsOk(s) && Publishes(s, t) && m in DoFinishLoad(s, t).pool.loads && !DoFinishLoad(s, t).pool.loads[m].done
    ensures DoFinishLoad(s, t).pool.loads[m].claims == 1 + |Joiners(DoFinishLoad(s, t), m)|
  {
    PublishJoiners(s, t, m) by { hide Publishes, PinsOk; }
    hide Owners, Joiners, TaskOk, FrameOk, LoadOk;
  }

  lemma PinsPublish(s: System, t: TaskId)
    requires PinsOk(s) && LatchesOk(s) && Publishes(s, t)
    ensures PinsOk(DoFinishLoad(s, t)) && LatchesOk(DoFinishLoad(s, t))
  {
    var s' := DoFinishLoad(s, t);
    assert |s'.pool.frames| == |s.pool.frames| by { hide PinsOk, LatchesOk, TaskOk, FrameOk, LoadOk; }
    forall h | 0 <= h < |s'.pool.frames| ensures s'.pool.frames[h].pins == |Owners(s', h)| <= s'.pool.maxPins {
      PublishedPins(s, t, h) by { hide PinsOk, Publishes, LatchesOk; }
    }
    forall m | m in s'.pool.loads && !s'.pool.loads[m].done ensures s'.pool.loads[m].claims == 1 + |Joiners(s', m)| {
      PublishedClaims(s, t, m) by { hide PinsOk, Publishes, LatchesOk; }
    }
    PublishedLatches(s, t) by { hide PinsOk, LatchesOk, Publishes; }
    hide LatchesOk, Owners, Joiners, Publishes, DoFinishLoad;
  }

  // ---- A closed file had no pins ----

  lemma PinsClose(s: System, t: TaskId, g: nat, freed: seq<nat>)
    requires StateOk(s) && PinsOk(s) && LatchesOk(s) && Closes(s, t, g, freed)
    requires !s.tasks[t].Guard? && !s.tasks[t].Join? && PinOf(s.pool.loads, s.tasks[t]) == None
    ensures var s' := AfterClose(s, t, g, freed);
      PinsOk(s') && LatchesOk(s')
  {
    var s' := AfterClose(s, t, g, freed);
    forall f | 0 <= f < |s.pool.frames| ensures s'.pool.frames[f].pins == s.pool.frames[f].pins && s'.pool.frames[f].latch == s.pool.frames[f].latch {
      CloseFrameCases(s, t, g, freed, f) by { hide StateOk, Closes, PinsOk, LatchesOk; }
      hide StateOk, Drained, NoIo, FileFrames, EnumeratesFrames, PinsOk, LatchesOk, FrameOk, Matches;
    }
    assert PinsSteady(s, s', t) by { hide StateOk, Drained, NoIo, FileFrames, EnumeratesFrames, PinsOk, LatchesOk, Matches, RoleOf; }
    SteadyKeeps(s, s', t) by { hide StateOk, Closes, PinsOk, LatchesOk, PinsSteady; }
    hide *;
  }
}
