/**
 * A caller that never registers a file twice at a time keeps every page count current: over all such
 * runs page numbers are consecutive and none is handed out twice.
 */
module BufferDiscipline {
  import opened Basics
  import opened PageChecksum
  import opened ClockReplacement
  import opened BufferState
  import opened BufferSystem
  import opened BufferInvariant
  import opened BufferPins
  import opened BufferPreservation
  import opened BufferTheorems
  import opened BufferHistory
  import opened BufferDurability
  import opened BufferAppend

  // ---- The discipline ----

  /** RegisterFile is not called for a file that is registered, or that another call is registering. */
  ghost predicate Disciplined(s: System, l: Label)
  {
    match l
    case Starts(StartRegister(_, file)) =>
      file !in s.pool.files && forall u :: u in s.tasks && s.tasks[u].Register? ==> s.tasks[u].file != file
    case _ => true
  }

  ghost predicate DisciplinedRuns(s: System, labels: seq<Label>)
    decreases |labels|
  {
    |labels| == 0 ||
    (s.Wf() && Enabled(s, labels[0]) && Disciplined(s, labels[0]) && DisciplinedRuns(Apply(s, labels[0]), labels[1..]))
  }

  /** Every pending registration is the only one of its file, the file is closed, and the count is current. */
  ghost predicate Pending(s: System)
  {
    && (forall t :: t in s.tasks && s.tasks[t].Register? ==>
          s.tasks[t].file !in s.pool.files && s.tasks[t].count == CountOf(s.disk, s.tasks[t].file))
    && (forall t, u :: t in s.tasks && u in s.tasks && s.tasks[t].Register? && s.tasks[u].Register? && t != u ==>
          s.tasks[t].file != s.tasks[u].file)
  }

  // ---- Registrations come and go only by their own steps ----

  /** No registration begins, and the others keep what they read. */
  predicate RegistersStay(s: System, s': System)
  {
    forall t :: t in s'.tasks && s'.tasks[t].Register? ==> t in s.tasks && s'.tasks[t] == s.tasks[t]
  }

  lemma RegistersByStarts(s: System, step: Start)
    requires s.Wf() && StartsEnabled(s, step) && !step.StartRegister?
    ensures RegistersStay(s, ApplyStarts(s, step))
  {}

  lemma RegistersByFetches(s: System, step: Fetching)
    requires s.Wf() && FetchesEnabled(s, step)
    ensures RegistersStay(s, ApplyFetches(s, step))
    ensures step.FinishRegister? ==> step.t !in ApplyFetches(s, step).tasks
  {
    hide Verifies;
  }

  lemma RegistersBySearch(s: System, t: TaskId)
    requires s.Wf() && CanSearch(s, t)
    ensures RegistersStay(s, DoSearch(s, t))
  {
    FindSound(s.pool.clock, Eligibility(s.pool));
    hide Find, Eligibility;
  }

  lemma RegistersByEviction(s: System, t: TaskId)
    requires s.Wf() && (CanBeginEvict(s, t) || CanFinishEvict(s, t))
    ensures CanBeginEvict(s, t) ==> RegistersStay(s, DoBeginEvict(s, t))
    ensures CanFinishEvict(s, t) ==> RegistersStay(s, DoFinishEvict(s, t))
  {
    hide Finalized;
  }

  lemma RegistersByReplaces(s: System, step: Replacing)
    requires s.Wf() && ReplacesEnabled(s, step)
    ensures RegistersStay(s, ApplyReplaces(s, step))
  {
    hide Find, Eligibility;
    match step {
      case Search(t) => RegistersBySearch(s, t) by { hide RegistersStay, DoSearch; }
      case Observe(t) => assert RegistersStay(s, DoObserve(s, t));
      case Recheck(t) => assert RegistersStay(s, DoRecheck(s, t));
      case BeginEvict(t) => RegistersByEviction(s, t) by { hide RegistersStay, DoBeginEvict; }
      case FinishEvict(t) => RegistersByEviction(s, t) by { hide RegistersStay, DoFinishEvict; }
    }
    hide RegistersStay, CanObserve, DoSearch, DoObserve, DoRecheck, DoBeginEvict, DoFinishEvict;
  }

  lemma RegistersByCreates(s: System, step: Creating)
    requires s.Wf() && CreatesEnabled(s, step)
    ensures RegistersStay(s, ApplyCreates(s, step))
  {}

  lemma RegistersByGuards(s: System, step: Guarding)
    requires s.Wf() && GuardsEnabled(s, step)
    ensures RegistersStay(s, ApplyGuards(s, step))
  {}

  lemma RegistersByCleans(s: System, step: Cleaning)
    requires s.Wf() && CleansEnabled(s, step)
    ensures RegistersStay(s, ApplyCleans(s, step))
  {
    hide Drained, NoIo, AllDrained, AllIdle, Enumerates, EnumeratesFrames, CloseFile, Matches;
  }

  lemma RegistersByDisks(s: System, step: DiskStep)
    requires s.Wf() && DisksEnabled(s, step)
    ensures RegistersStay(s, ApplyDisks(s, step))
  {}

  lemma RegistersByStep(s: System, l: Label)
    requires s.Wf() && Enabled(s, l) && !(l.Starts? && l.start.StartRegister?)
    ensures RegistersStay(s, Apply(s, l))
    ensures l.Fetches? && l.fetch.FinishRegister? ==> l.fetch.t !in Apply(s, l).tasks
  {
    match l {
      case Starts(step) => RegistersByStarts(s, step);
      case Fetches(step) => RegistersByFetches(s, step);
      case Replaces(step) => RegistersByReplaces(s, step);
      case Creates(step) => RegistersByCreates(s, step);
      case Guards(step) => RegistersByGuards(s, step);
      case Cleans(step) => RegistersByCleans(s, step);
      case Disks(step) => RegistersByDisks(s, step);
    }
    hide StartsEnabled, FetchesEnabled, ReplacesEnabled, CreatesEnabled, GuardsEnabled, CleansEnabled, DisksEnabled,
         ApplyStarts, ApplyFetches, ApplyReplaces, ApplyCreates, ApplyGuards, ApplyCleans, ApplyDisks, RegistersStay;
  }

  // ---- What a step does to files and counts ----

  /** Files only close; the page count of a closed file stays. */
  ghost predicate FilesStay(s: System, s': System)
  {
    && (forall file :: file in s'.pool.files ==> file in s.pool.files)
    && (forall file :: file !in s.pool.files ==> CountOf(s'.disk, file) == CountOf(s.disk, file))
  }

  /** Only a creation extends a file, and only an open one. */
  lemma FilesByCreates(s: System, step: Creating)
    requires s.Wf() && CreatesEnabled(s, step)
    ensures FilesStay(s, ApplyCreates(s, step))
  {}

  lemma FilesByGuards(s: System, step: Guarding)
    requires s.Wf() && GuardsEnabled(s, step)
    ensures FilesStay(s, ApplyGuards(s, step))
  {}

  lemma FilesByStep(s: System, l: Label)
    requires s.Wf() && Enabled(s, l) && !(l.Fetches? && l.fetch.FinishRegister?)
    ensures FilesStay(s, Apply(s, l))
  {
    match l {
      case Starts(step) => BoundsByStarts(s, step);
      case Fetches(step) => BoundsByFetches(s, step);
      case Replaces(step) => BoundsByReplaces(s, step);
      case Creates(step) => FilesByCreates(s, step);
      case Guards(step) => FilesByGuards(s, step);
      case Cleans(step) => BoundsByCleans(s, step);
      case Disks(step) => BoundsByTransfers(s, step);
    }
    hide StartsEnabled, FetchesEnabled, ReplacesEnabled, CreatesEnabled, GuardsEnabled, CleansEnabled, DisksEnabled,
         ApplyStarts, ApplyFetches, ApplyReplaces, ApplyCreates, ApplyGuards, ApplyCleans, ApplyDisks;
  }

  lemma FilesByRegister(s: System, t: TaskId)
    requires s.Wf() && CanFinishRegister(s, t)
    ensures var s' := DoFinishRegister(s, t);
      && s'.disk == s.disk && (forall file :: file in s'.pool.files ==> file in s.pool.files || file == s.tasks[t].file)
  {}

  // ---- Pending registrations stay current ----

  lemma PendingByStart(s: System, t: TaskId, file: nat)
    requires s.Wf() && Pending(s) && StartsEnabled(s, StartRegister(t, file)) && Disciplined(s, Starts(StartRegister(t, file)))
    ensures Pending(ApplyStarts(s, StartRegister(t, file)))
  {}

  lemma PendingKeeps(s: System, l: Label)
    requires s.Wf() && Pending(s) && Enabled(s, l) && Disciplined(s, l)
    ensures Pending(Apply(s, l))
  {
    if l.Starts? && l.start.StartRegister? {
      PendingByStart(s, l.start.t, l.start.file);
    } else {
      RegistersByStep(s, l) by { hide Enabled, Apply, Pending; }
      if l.Fetches? && l.fetch.FinishRegister? {
        FilesByRegister(s, l.fetch.t) by { hide Pending; }
      } else {
        FilesByStep(s, l) by { hide Enabled, Apply, Pending; }
      }
      hide Disciplined;
    }
    hide DoFinishRegister, StartsEnabled, ReplacesEnabled, CreatesEnabled, GuardsEnabled, CleansEnabled, DisksEnabled,
         ApplyStarts, ApplyReplaces, ApplyCreates, ApplyGuards, ApplyCleans, ApplyDisks;
  }

  /** So every disciplined run is one in which each registration opens its file with a current count. */
  lemma {:induction false} DisciplineKeepsCounts(s: System, labels: seq<Label>)
    requires Pending(s) && DisciplinedRuns(s, labels)
    ensures CurrentRuns(s, labels)
    decreases |labels|
  {
    if |labels| > 0 {
      PendingKeeps(s, labels[0]) by { hide Enabled, Apply, Pending, Disciplined; }
      DisciplineKeepsCounts(Apply(s, labels[0]), labels[1..]) by { hide Enabled, Apply, Pending, Disciplined; }
    }
    hide Enabled, Apply, Disciplined;
  }

  /** Over every disciplined run of a new pool the append discipline holds throughout. */
  lemma DisciplinedRunsAppend(frameCount: nat, maxPins: nat, disk: Disk, labels: seq<Label>)
    requires frameCount > 0 && maxPins > 0 && DiskOk(disk)
    requires DisciplinedRuns(InitialSystem(frameCount, maxPins, disk), labels)
    ensures var s := InitialSystem(frameCount, maxPins, disk);
      Runs(s, labels) && Inv(After(s, labels)) && AppendOk(After(s, labels))
  {
    var s := InitialSystem(frameCount, maxPins, disk);
    InitiallyOk(frameCount, maxPins, disk) by { hide Inv, DisciplinedRuns; }
    assert Pending(s) && AppendOk(s) by { hide Inv, DisciplinedRuns; }
    DisciplineKeepsCounts(s, labels) by { hide Inv, DisciplinedRuns, AppendOk, Pending, InitialSystem; }
    AppendRuns(s, labels) by { hide Inv, DisciplinedRuns, AppendOk, Pending, InitialSystem, CurrentRuns; }
    hide *;
  }

  /** Registration publishes every page within the count, also one that a failed creation left behind. */
  lemma RegistrationAdoptsAll(s: System, t: TaskId, no: nat)
    requires s.Wf() && Inv(s) && Opening(s, t) && s.tasks[t].count == CountOf(s.disk, s.tasks[t].file)
    ensures PageId(s.tasks[t].file, no) in DoFinishRegister(s, t).published <==>
      PageId(s.tasks[t].file, no) in s.published || 1 <= no < s.tasks[t].count
  {
    InvParts(s) by { hide Inv; }
    assert DiskOk(s.disk) by { hide Inv, PinsOk, LatchesOk, TaskOk, DiskOk; }
    hide Inv, Core, PinsOk, LatchesOk;
  }

  // ---- The numbers NewPage returns ----

  /** The number of the page of `file` that a step publishes as new. */
  function PublishedNumber(s: System, l: Label, file: nat): Option<nat>
  {
    match l
    case Creates(FinishNew(t)) =>
      if t in s.tasks && s.tasks[t].Build? && s.tasks[t].page.file == file && Publishes(s, l, s.tasks[t].page)
      then Some(s.tasks[t].page.no) else None
    case _ => None
  }

  /** Under the append discipline NewPage publishes a page that was not published before. */
  lemma NewPageIsFresh(s: System, l: Label, file: nat)
    requires s.Wf() && Inv(s) && AppendOk(s) && Enabled(s, l) && PublishedNumber(s, l, file).Some?
    ensures PageId(file, PublishedNumber(s, l, file).value) !in s.published
  {
    NewPagePublishes(s, l.create.t) by { hide Inv, AppendOk; }
    hide Inv, DoFinishNew;
  }

  lemma FinishNewNumber(s: System, t: TaskId, file: nat)
    requires s.Wf() && Inv(s) && CanFinishNew(s, t) && file in s.pool.files
    ensures file in DoFinishNew(s, t).pool.files
    ensures var bound, bound' := s.pool.files[file].bound, DoFinishNew(s, t).pool.files[file].bound;
      match PublishedNumber(s, Creates(FinishNew(t)), file)
      case Some(no) => no == bound && bound' == no + 1
      case None => bound' == bound
  {
    TaskKnown(s, t) by { hide Inv; }
    var page := s.tasks[t].page;
    assert page.file in s.pool.files && page.no == s.pool.files[page.file].bound && s.tasks[t].frame < |s.pool.frames| by {
      hide Inv, Core, FrameOk, LoadOk;
    }
    hide Inv, Core, Knows;
  }

  /** A step publishes the page right at the bound and moves the bound past it, or leaves the bound alone. */
  lemma StepNumber(s: System, l: Label, file: nat)
    requires s.Wf() && Inv(s) && Enabled(s, l) && file in s.pool.files && file in Apply(s, l).pool.files
    ensures var bound, bound' := s.pool.files[file].bound, Apply(s, l).pool.files[file].bound;
      match PublishedNumber(s, l, file)
      case Some(no) => no == bound && bound' == no + 1
      case None => bound' == bound
  {
    if l.Creates? && l.create.FinishNew? {
      FinishNewNumber(s, l.create.t, file) by { hide Inv; }
    } else {
      BoundsMoveByOne(s, l, file) by { hide Inv, Enabled, Apply; }
    }
    hide Inv, DoFinishNew, ApplyStarts, ApplyFetches, ApplyReplaces, ApplyGuards, ApplyCleans, ApplyDisks, Publishes,
         StartsEnabled, FetchesEnabled, ReplacesEnabled, GuardsEnabled, CleansEnabled, DisksEnabled;
  }

  ghost predicate StaysOpen(s: System, labels: seq<Label>, file: nat)
    requires Runs(s, labels)
    decreases |labels|
  {
    file in s.pool.files && (|labels| == 0 || StaysOpen(Apply(s, labels[0]), labels[1..], file))
  }

  /** The numbers of the pages of `file` that NewPage publishes over a run, in order. */
  ghost function Numbers(s: System, labels: seq<Label>, file: nat): seq<nat>
    requires Runs(s, labels)
    decreases |labels|
  {
    if |labels| == 0 then []
    else
      (match PublishedNumber(s, labels[0], file) case Some(no) => [no] case None => [])
        + Numbers(Apply(s, labels[0]), labels[1..], file)
  }

  /**
   * While a file stays registered, NewPage returns consecutive numbers from the bound on, and the
   * bound advances by exactly their count.
   */
  lemma {:induction false} NumbersAreConsecutive(s: System, labels: seq<Label>, file: nat)
    requires Inv(s) && Runs(s, labels) && StaysOpen(s, labels, file)
    ensures var numbers, r := Numbers(s, labels, file), After(s, labels);
      && file in r.pool.files && r.pool.files[file].bound == s.pool.files[file].bound + |numbers|
      && forall k :: 0 <= k < |numbers| ==> numbers[k] == s.pool.files[file].bound + k
    decreases |labels|
  {
    if |labels| > 0 {
      StepKeeps(s, labels[0]) by { hide Inv, Enabled, Apply, PublishedNumber; }
      StepNumber(s, labels[0], file) by { hide Inv, Enabled, Apply, PublishedNumber; }
      NumbersAreConsecutive(Apply(s, labels[0]), labels[1..], file) by { hide Inv, Enabled, Apply, PublishedNumber; }
    }
    hide Inv, Enabled, Apply, PublishedNumber;
  }

  // ---- No number twice, even across registrations ----

  /** Numbers of `file` below `floor` will not be handed out. */
  ghost predicate Grown(s: System, file: nat, floor: nat)
  {
    floor <= CountOf(s.disk, file) && (file in s.pool.files ==> floor <= s.pool.files[file].bound)
  }

  lemma CountsByCreates(s: System, step: Creating, file: nat)
    requires s.Wf() && CreatesEnabled(s, step)
    ensures CountOf(s.disk, file) <= CountOf(ApplyCreates(s, step).disk, file)
  {}

  lemma CountsByGuards(s: System, step: Guarding)
    requires s.Wf() && GuardsEnabled(s, step)
    ensures ApplyGuards(s, step).disk == s.disk
  {}

  /** No step shrinks a file. */
  lemma CountsGrow(s: System, l: Label, file: nat)
    requires s.Wf() && Enabled(s, l)
    ensures CountOf(s.disk, file) <= CountOf(Apply(s, l).disk, file)
  {
    match l {
      case Starts(step) => BoundsByStarts(s, step);
      case Fetches(step) => if step.FinishRegister? { FilesByRegister(s, step.t); } else { BoundsByFetches(s, step); }
      case Replaces(step) => BoundsByReplaces(s, step);
      case Creates(step) => CountsByCreates(s, step, file);
      case Guards(step) => CountsByGuards(s, step);
      case Cleans(step) => BoundsByCleans(s, step);
      case Disks(step) => BoundsByTransfers(s, step);
    }
    hide StartsEnabled, ReplacesEnabled, CreatesEnabled, GuardsEnabled, CleansEnabled, DisksEnabled, DoFinishRegister,
         ApplyStarts, ApplyReplaces, ApplyCreates, ApplyGuards, ApplyCleans, ApplyDisks;
  }

  lemma GrownByRegister(s: System, t: TaskId, file: nat, floor: nat)
    requires s.Wf() && Pending(s) && CanFinishRegister(s, t) && Grown(s, file, floor)
    ensures Grown(DoFinishRegister(s, t), file, floor)
  {}

  lemma GrownStays(s: System, l: Label, file: nat, floor: nat)
    requires s.Wf() && Inv(s) && Pending(s) && Enabled(s, l) && Grown(s, file, floor)
    ensures Grown(Apply(s, l), file, floor)
  {
    if l.Fetches? && l.fetch.FinishRegister? {
      GrownByRegister(s, l.fetch.t, file, floor) by { hide Inv, Pending; }
    } else {
      FilesByStep(s, l) by { hide Inv, Pending, Enabled, Apply; }
      CountsGrow(s, l, file) by { hide Inv, Pending, Enabled, Apply; }
      if file in Apply(s, l).pool.files { BoundsMoveByOne(s, l, file) by { hide Inv, Pending, Enabled, Apply; } }
    }
    hide Inv, Pending, StartsEnabled, ReplacesEnabled, CreatesEnabled, GuardsEnabled, CleansEnabled, DisksEnabled, DoFinishRegister,
         ApplyStarts, ApplyReplaces, ApplyCreates, ApplyGuards, ApplyCleans, ApplyDisks;
  }

  lemma {:induction false} GrownOverRun(s: System, labels: seq<Label>, file: nat, floor: nat)
    requires Inv(s) && Pending(s) && DisciplinedRuns(s, labels) && Grown(s, file, floor)
    ensures Runs(s, labels) && Inv(After(s, labels)) && Grown(After(s, labels), file, floor)
    decreases |labels|
  {
    if |labels| > 0 {
      StepKeeps(s, labels[0]) by { hide Inv, Enabled, Apply, Pending, Disciplined, Grown; }
      PendingKeeps(s, labels[0]) by { hide Inv, Enabled, Apply, Pending, Disciplined, Grown; }
      GrownStays(s, labels[0], file, floor) by { hide Inv, Enabled, Apply, Pending, Disciplined, Grown; }
      GrownOverRun(Apply(s, labels[0]), labels[1..], file, floor) by { hide Inv, Enabled, Apply, Pending, Disciplined, Grown; }
    }
    hide Inv, Enabled, Apply, Pending, Disciplined, Grown;
  }

  /**
   * Along a disciplined run no page number is handed out twice, whatever is retired, discarded or
   * registered again in between: a later NewPage of the file returns a larger number.
   */
  lemma NumbersIncrease(s: System, first: Label, labels: seq<Label>, second: Label, file: nat)
    requires s.Wf() && Inv(s) && Pending(s) && Enabled(s, first) && PublishedNumber(s, first, file).Some?
    requires Runs(Apply(s, first), labels) && DisciplinedRuns(Apply(s, first), labels)
    requires var r := After(Apply(s, first), labels);
      r.Wf() && Enabled(r, second) && PublishedNumber(r, second, file).Some?
    ensures PublishedNumber(s, first, file).value < PublishedNumber(After(Apply(s, first), labels), second, file).value
  {
    var no := PublishedNumber(s, first, file).value;
    var s' := Apply(s, first);
    StepKeeps(s, first) by { hide Inv, Pending, PublishedNumber, DisciplinedRuns, Runs, After; }
    PendingKeeps(s, first) by { hide Inv, Pending, Enabled, Apply, DisciplinedRuns, Runs, After; }
    PublicationGrows(s, first, file) by { hide Inv, Pending, Enabled, Apply, PublishedNumber, DisciplinedRuns, Runs, After; }
    GrownOverRun(s', labels, file, no + 1) by { hide Inv, Pending, Enabled, Apply, PublishedNumber, DisciplinedRuns, Runs, After; }
    NumberIsBound(After(s', labels), second, file) by { hide Inv, Pending, Enabled, Apply, PublishedNumber, DisciplinedRuns, Runs, After; }
    hide Inv, Pending, Enabled, Apply, PublishedNumber, DisciplinedRuns, Runs, After;
  }

  lemma NumberIsBound(s: System, l: Label, file: nat)
    requires s.Wf() && Inv(s) && Enabled(s, l) && PublishedNumber(s, l, file).Some?
    ensures file in s.pool.files && PublishedNumber(s, l, file).value == s.pool.files[file].bound
  {
    NewPagePublishes(s, l.create.t) by { hide Inv; }
    hide Inv, DoFinishNew;
  }

  lemma PublicationGrows(s: System, l: Label, file: nat)
    requires s.Wf() && Inv(s) && Enabled(s, l) && PublishedNumber(s, l, file).Some?
    ensures Grown(Apply(s, l), file, PublishedNumber(s, l, file).value + 1)
  {
    var t := l.create.t;
    NumberIsBound(s, l, file) by { hide Inv, Enabled; }
    FinishNewNumber(s, t, file) by { hide Inv; }
    ConstructedIsCounted(s, t) by { hide Inv, Publishes; }
    hide Inv, DoFinishNew;
  }

  lemma ConstructedIsCounted(s: System, t: TaskId)
    requires s.Wf() && Inv(s) && CanFinishNew(s, t)
    ensures s.tasks[t].page.no < CountOf(s.disk, s.tasks[t].page.file) && DoFinishNew(s, t).disk == s.disk
  {
    TaskKnown(s, t) by { hide Inv; }
    assert s.tasks[t].page in s.disk.volatile by { hide Inv, Core, FrameOk, LoadOk; }
    ExistingIsCounted(s, s.tasks[t].page) by { hide Inv, Core, Knows; }
    hide Inv, Core, Knows;
  }
}
