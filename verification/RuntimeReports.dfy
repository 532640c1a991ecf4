/** What a job's snapshot shows over a whole run: the last report that was announced, and in the
    end what the executor returned. */
module RuntimeReports {
  import opened Basics
  import opened JobEvents
  import opened HistoryTable
  import opened RuntimeModel
  import opened RuntimeInvariant
  import opened RuntimeSafety
  import opened RuntimeTheorems

  // ----- reports -----

  function LastReport(log: seq<Event>): Option<Report> {
    if log == [] then None
    else if log[|log| - 1].EvProgress? then Some(log[|log| - 1].report)
    else LastReport(log[..|log| - 1])
  }

  lemma LastReportAppend(log: seq<Event>, e: Event)
    ensures LastReport(log + [e]) == if e.EvProgress? then Some(e.report) else LastReport(log)
  {
    assert (log + [e])[..|log|] == log;
  }

  /** Item and counters are those of the report, or as at the start. */
  predicate Shows(c: Cell, p: Option<Report>) {
    match p
    case None => c.item == None && c.items == 0 && c.bytes == 0
    case Some(p) => c.item == p.item && c.items == p.items && c.bytes == p.bytes
  }

  /** The report that a thread has had accepted and not yet announced. */
  function PcPends(pc: Pc): Option<Report> {
    if pc.Task? && pc.w.ProgressAccepted? then Some(pc.w.p) else None
  }

  function Pending(s: State, j: JobId): Option<Report>
    requires j in s.cells
  {
    match s.cells[j].gate
    case None => None
    case Some(t) => PcPends(PcIn(s, t))
  }

  predicate ShowsLast(c: Cell, pending: Option<Report>) {
    Shows(c, if pending.Some? then pending else LastReport(c.log))
  }

  predicate Shown(s: State, j: JobId) {
    j in s.cells ==> ShowsLast(s.cells[j], Pending(s, j))
  }

  /** A step that leaves the item, the counters and the last report alone. */
  predicate SameReport(c: Cell, c': Cell) {
    c'.item == c.item && c'.items == c.items && c'.bytes == c.bytes && LastReport(c'.log) == LastReport(c.log)
  }

  lemma TaskReport(t: ThreadId, w: TaskPc, c: Cell, now: Time, choice: Choice)
    ensures var m := TaskStep(t, w, c, now, choice);
      if w.ProgressCheck? && m.w.ProgressAccepted? then m.w.p == w.p && Shows(m.cell, Some(w.p))
      else if w.ProgressAccepted? then !m.w.ProgressAccepted? && (Shows(c, Some(w.p)) ==> Shows(m.cell, LastReport(m.cell.log)))
      else !m.w.ProgressAccepted? ==> SameReport(c, m.cell)
    ensures var m := TaskStep(t, w, c, now, choice);
      m.w.ProgressAccepted? ==> w.ProgressCheck?
  {
    hide AcceptsProgress, LastReport, Announcement;
    match w
    case ProgressAccepted(p) => LastReportAppend(c.log, EvProgress(p));
    case FinalGate(st, code) =>
      LastReportAppend(c.log, Announcement(st, code));
      AnnouncementKind(st, code);
    case _ =>
  }

  lemma AnnouncementKind(st: Status, code: Option<string>)
    ensures !Announcement(st, code).EvProgress?
  {
  }

  lemma StarterReport(s: StarterPc, c: Cell)
    ensures SameReport(c, StarterStep(s, c).cell)
  {
    LastReportAppend(c.log, EvStarted);
  }

  lemma ToggleReport(t: ThreadId, k: ToggleKind, g: TogglePc, c: Cell, now: Time, choice: Choice)
    ensures SameReport(c, ToggleStep(t, k, g, c, now, choice).cell)
  {
    hide LastReport;
    LastReportAppend(c.log, ToggleEvent(k));
  }

  /** One step of a thread on its own job. */
  lemma OwnReport(t: ThreadId, pc: Pc, c: Cell, now: Time, choice: Choice, pending: Option<Report>)
    requires HasJob(pc) && ShowsLast(c, pending)
    requires c.gate == Some(t) ==> pending == PcPends(pc)
    requires pc.Task? && pc.w.ProgressCheck? ==> c.gate == Some(t)
    requires PcPends(pc).Some? ==> c.gate == Some(t)
    ensures var l := OwnStep(t, pc, c, now, choice);
      ShowsLast(l.cell, if c.gate == Some(t) || PcPends(l.pc).Some? then PcPends(l.pc) else pending)
  {
    hide TaskStep, StarterStep, ToggleStep, LastReport;
    match pc
    case Starter(j, s) => StarterReport(s, c);
    case Toggling(j, k, g) => ToggleReport(t, k, g, c, now, choice);
    case Task(j, w) => TaskReport(t, w, c, now, choice);
  }

  // ----- the same in the machine -----

  lemma OwnGateKept(s: State, t: ThreadId, choice: Choice)
    requires Inv(s) && CanOwn(s, t, choice)
    ensures var pc := s.threads[t].pc; var c := s.cells[pc.j]; var l := OwnStep(t, pc, c, s.now, choice);
      && (HoldsGate(pc) <==> c.gate == Some(t))
      && (l.cell.gate == Some(t) <==> HoldsGate(l.pc))
      && (l.cell.gate != Some(t) && c.gate != Some(t) ==> l.cell.gate == c.gate)
      && (c.gate == Some(t) ==> l.cell.gate == Some(t) || l.cell.gate.None?)
      && (c.gate.Some? && c.gate != Some(t) ==> l.cell.gate == c.gate)
  {
    hide Inv, JobOk, TaskStep, TaskEnabled, ToggleStep, ToggleEnabled, HoldsGate, OwedIn;
    var pc := s.threads[t].pc;
    var c := s.cells[pc.j];
    TaskHasItsGate(s, t);
    match pc
    case Task(j, w) => TaskGate(t, j, w, c, s.jobsLock, s.now, choice);
    case Toggling(j, k, g) =>
      ToggleGate(t, j, k, g, c, s.jobsLock, s.now, choice);
      ClientHoldsNothing();
    case Starter(j, at) =>
      StarterKeepsGate(at, c);
      StarterHoldsNothing(j, at);
      StarterHoldsNothing(j, StarterStep(at, c).s);
      StarterHasNoGate(s, t);
  }

  lemma ClientHoldsNothing()
    ensures !HoldsGate(Client)
  {
  }

  lemma StarterHoldsNothing(j: JobId, at: StarterPc)
    ensures !HoldsGate(Starter(j, at))
  {
  }

  lemma StarterKeepsGate(at: StarterPc, c: Cell)
    ensures StarterStep(at, c).cell.gate == c.gate
  {
  }

  /** Only a thread that holds the gate can be past an accepted report, or be checking one. */
  lemma PendsHolds(pc: Pc)
    ensures PcPends(pc).Some? || (pc.Task? && pc.w.ProgressCheck?) ==> HoldsGate(pc)
  {
  }

  lemma ShownOwn(s: State, t: ThreadId, choice: Choice, j: JobId)
    requires Inv(s) && CanOwn(s, t, choice) && Shown(s, j)
    ensures Shown(DoOwn(s, t, choice), j)
  {
    hide Inv, OwnStep, OwnEnabled, HoldsGate, ShowsLast, PcPends, Unlock;
    var pc := s.threads[t].pc;
    var c, l := s.cells[pc.j], OwnStep(t, pc, s.cells[pc.j], s.now, choice);
    var s' := DoOwn(s, t, choice);
    assert s'.cells == s.cells[pc.j := l.cell] && s'.threads == s.threads[t := s.threads[t].(pc := l.pc)] by { OwnMoves(s, t, choice); }
    OwnGateKept(s, t, choice);
    if j == pc.j {
      PendsHolds(pc);
      PendsHolds(l.pc);
      OwnReport(t, pc, c, s.now, choice, Pending(s, j));
    } else if j in s.cells && s.cells[j].gate.Some? {
      GateHolderElsewhere(s, t, j);
    }
  }

  lemma OwnMoves(s: State, t: ThreadId, choice: Choice)
    requires AtJob(s, t)
    ensures var pc := s.threads[t].pc; var l := OwnStep(t, pc, s.cells[pc.j], s.now, choice);
      DoOwn(s, t, choice).cells == s.cells[pc.j := l.cell] && DoOwn(s, t, choice).threads == s.threads[t := s.threads[t].(pc := l.pc)]
  {
    hide OwnStep;
  }

  lemma GateHolderElsewhere(s: State, t: ThreadId, j: JobId)
    requires Inv(s) && AtJob(s, t) && j in s.cells && j != s.threads[t].pc.j && s.cells[j].gate.Some?
    ensures s.cells[j].gate != Some(t)
  {
    hide JobOk, CountsOk, Distinct, ThreadOk;
    assert CellOk(s, j);
  }

  /** Every other action leaves reports, gates, outcomes and statuses alone. */
  predicate Untold(c: Cell, c': Cell) {
    && c'.item == c.item && c'.items == c.items && c'.bytes == c.bytes && c'.log == c.log
    && c'.gate == c.gate && c'.outcome == c.outcome && c'.status == c.status && c'.updatedAt == c.updatedAt
  }

  lemma FlagsUntold(c: Cell)
    ensures Untold(c, UserFlagged(c)) && Untold(c, WatchdogFlagged(c))
  {
  }

  lemma OtherUntold(s: State, a: Action, j: JobId)
    requires !a.Own? && j in s.cells
    ensures Untold(s.cells[j], CellAfter(s, a, j))
  {
    hide Stalled, UserFlagged, WatchdogFlagged, FirstOf;
    FlagsUntold(s.cells[j]);
  }

  /** The report that a task is about to have checked, has had accepted, or has just made. */
  function Carries(pc: Pc): Option<Report> {
    if !pc.Task? then None
    else match pc.w
      case ProgressWait(p) => Some(p)
      case ProgressCheck(p) => Some(p)
      case ProgressAccepted(p) => Some(p)
      case _ => None
  }

  /** Such a thread stays where it is unless it steps itself, and no other action makes one. */
  predicate CarrierStays(s: State, s': State, u: ThreadId) {
    (Carries(PcIn(s, u)).Some? || Carries(PcIn(s', u)).Some?) ==> PcIn(s', u) == PcIn(s, u)
  }

  lemma JobActionPcs(s: State, a: Action, u: ThreadId)
    requires Enabled(s, a)
    requires a.Admit? || a.Insert? || a.RecordStart? || a.Send? || a.Pickup? || a.PersistFinal? || a.CleanupHistory? || a.DropToken?
    ensures CarrierStays(s, Apply(s, a), u)
  {
    hide Prunable, Retained, Unregister;
  }

  lemma OtherPcs(s: State, a: Action, u: ThreadId)
    requires Enabled(s, a) && !a.Own?
    ensures CarrierStays(s, Apply(s, a), u)
  {
    if a.Admit? || a.Insert? || a.RecordStart? || a.Send? || a.Pickup? || a.PersistFinal? || a.CleanupHistory? || a.DropToken? {
      hide Enabled, Apply;
      JobActionPcs(s, a, u);
    } else {
      hide Retained, NeedsJobs, Stalled, UserFlagged, WatchdogFlagged, HoldsGate, InSink;
    }
  }

  lemma ShownStep(r: Run, i: nat, j: JobId)
    requires ValidRun(r) && i < |r.actions| && Shown(r.states[i], j)
    ensures Shown(r.states[i + 1], j)
  {
    hide Inv, Initial, ShowsLast, CellAfter, Shows;
    var s, a := r.states[i], r.actions[i];
    assert StepAt(r, i);
    RunKeepsInv(r, i);
    if a.Own? {
      ShownOwn(s, a.t, a.choice, j);
    } else if j in s.cells {
      hide Enabled, Apply;
      ApplyCell(s, a, j);
      OtherUntold(s, a, j);
      SameShows(s.cells[j], CellAfter(s, a, j), Pending(s, j));
      if s.cells[j].gate.Some? { OtherPcs(s, a, s.cells[j].gate.value); }
    } else if j in r.states[i + 1].cells {
      NewJob(s, a, j);
      FreshShown(r.states[i + 1], j);
    }
  }

  lemma SameShows(c: Cell, c': Cell, p: Option<Report>)
    requires SameReport(c, c')
    ensures ShowsLast(c, p) ==> ShowsLast(c', p)
  {
  }

  lemma FreshShown(s: State, j: JobId)
    requires j in s.cells && s.cells[j].log == [] && s.cells[j].gate == None
    requires s.cells[j].item == None && s.cells[j].items == 0 && s.cells[j].bytes == 0
    ensures Shown(s, j)
  {
  }

  /** A job that an action creates. */
  lemma NewJob(s: State, a: Action, j: JobId)
    requires Enabled(s, a) && j !in s.cells && j in Apply(s, a).cells
    ensures var c := Apply(s, a).cells[j];
      c.log == [] && c.outcome == None && c.gate == None && c.status == Running && c.item == None && c.items == 0 && c.bytes == 0
  {
    hide Prunable, Retained, OwnStep, OwnEnabled, NeedsJobs, Stalled, UserFlagged, WatchdogFlagged, HoldsGate, InSink;
  }

  lemma {:induction false} AlwaysShown(r: Run, n: nat, j: JobId)
    requires ValidRun(r) && n < |r.states|
    ensures Shown(r.states[n], j)
  {
    hide Shown;
    if n == 0 {
      NothingShown(r, j);
    } else {
      AlwaysShown(r, n - 1, j);
      ShownStep(r, n - 1, j);
    }
  }

  lemma NothingShown(r: Run, j: JobId)
    requires ValidRun(r)
    ensures Shown(r.states[0], j)
  {
  }

  lemma {:induction false} LastReportMeaning(log: seq<Event>)
    ensures LastReport(log).None? <==> forall i :: 0 <= i < |log| ==> !log[i].EvProgress?
    ensures LastReport(log).Some? ==>
      exists i :: 0 <= i < |log| && log[i] == EvProgress(LastReport(log).value) && forall k :: i < k < |log| ==> !log[k].EvProgress?
  {
    if log != [] {
      var n, init := |log| - 1, log[..|log| - 1];
      LastReportMeaning(init);
      assert forall i :: 0 <= i < n ==> init[i] == log[i];
      if !log[n].EvProgress? && LastReport(log).Some? {
        var i :| 0 <= i < |init| && init[i] == EvProgress(LastReport(log).value) && forall k :: i < k < |init| ==> !init[k].EvProgress?;
        assert log[i] == EvProgress(LastReport(log).value) && forall k :: i < k < |log| ==> !log[k].EvProgress?;
      } else if log[n].EvProgress? {
        assert log[n] == EvProgress(LastReport(log).value);
      }
    }
  }

  lemma OwesIsPending(s: State, j: JobId)
    requires j in s.cells
    ensures OwedIn(s, j).OwesProgress? <==> Pending(s, j).Some?
  {
  }

  /** Whenever no progress is owed, the snapshot shows item and counters of the last progress event
      that the sink was given, or none and zero if it was given none. */
  lemma SnapshotShowsLastReport(r: Run, n: nat, j: JobId)
    requires ValidRun(r) && n < |r.states| && j in r.states[n].cells && !OwedIn(r.states[n], j).OwesProgress?
    ensures var c := r.states[n].cells[j];
      && ((forall i :: 0 <= i < |c.log| ==> !c.log[i].EvProgress?) ==> c.item == None && c.items == 0 && c.bytes == 0)
      && (forall i :: 0 <= i < |c.log| && c.log[i].EvProgress? && (forall k :: i < k < |c.log| ==> !c.log[k].EvProgress?) ==>
            c.item == c.log[i].report.item && c.items == c.log[i].report.items && c.bytes == c.log[i].report.bytes)
  {
    hide ValidRun, LastReport, OwedIn;
    var c := r.states[n].cells[j];
    AlwaysShown(r, n, j);
    OwesIsPending(r.states[n], j);
    LastReportMeaning(c.log);
  }

  // ----- where reports come from -----

  /** Action i is the executor of job j making report p. */
  ghost predicate MakesReport(r: Run, i: nat, j: JobId, p: Report)
    requires ValidRun(r) && i < |r.actions|
  {
    assert StepAt(r, i);
    r.actions[i].Own? && r.actions[i].choice == ReportProgress(p) && r.states[i].threads[r.actions[i].t].pc == Task(j, Executing)
  }

  ghost predicate Made(r: Run, n: nat, j: JobId, p: Report)
    requires ValidRun(r) && n <= |r.actions|
  {
    exists i :: 0 <= i < n && MakesReport(r, i, j, p)
  }

  lemma MadeBefore(r: Run, n: nat, j: JobId, p: Report)
    requires ValidRun(r) && n < |r.actions|
    ensures Made(r, n + 1, j, p) <==> Made(r, n, j, p) || MakesReport(r, n, j, p)
  {
    hide MakesReport, StepAt, Initial;
  }

  /** What thread u carries for job j has been made. */
  ghost predicate CarriedMade(r: Run, n: nat, u: ThreadId)
    requires ValidRun(r) && n <= |r.actions|
  {
    var pc := PcIn(r.states[n], u);
    Carries(pc).Some? ==> Made(r, n, pc.j, Carries(pc).value)
  }

  lemma TaskCarries(t: ThreadId, w: TaskPc, c: Cell, now: Time, choice: Choice, j: JobId)
    ensures var m := TaskStep(t, w, c, now, choice);
      Carries(Task(j, m.w)).Some? ==>
        || Carries(Task(j, w)) == Carries(Task(j, m.w))
        || (w.Executing? && choice == ReportProgress(Carries(Task(j, m.w)).value))
  {
    hide AcceptsProgress, Announcement;
  }

  lemma OwnCarries(s: State, t: ThreadId, choice: Choice, u: ThreadId)
    requires CanOwn(s, t, choice)
    ensures var pc, pc' := PcIn(s, u), PcIn(DoOwn(s, t, choice), u);
      Carries(pc').Some? ==>
        && pc.Task? && pc'.j == pc.j
        && (Carries(pc) == Carries(pc') || (u == t && pc.w.Executing? && choice == ReportProgress(Carries(pc').value)))
  {
    hide TaskStep, TaskEnabled, StarterStep, ToggleStep, OwnEnabled;
    OwnMoves(s, t, choice);
    var pc := s.threads[t].pc;
    if pc.Task? { TaskCarries(t, pc.w, s.cells[pc.j], s.now, choice, pc.j); }
  }

  lemma {:induction false} AlwaysCarriedMade(r: Run, n: nat, u: ThreadId)
    requires ValidRun(r) && n <= |r.actions|
    ensures CarriedMade(r, n, u)
  {
    hide Enabled, Apply, Initial, Made, MakesReport;
    if n == 0 {
      NobodyCarries(r, u);
    } else {
      AlwaysCarriedMade(r, n - 1, u);
      assert StepAt(r, n - 1);
      var s, a, pc := r.states[n - 1], r.actions[n - 1], PcIn(r.states[n], u);
      if Carries(pc).Some? {
        MadeBefore(r, n - 1, pc.j, Carries(pc).value);
        if a.Own? { OwnCarriesMade(r, n - 1, u); } else { OtherPcs(s, a, u); }
      }
    }
  }

  lemma NobodyCarries(r: Run, u: ThreadId)
    requires ValidRun(r)
    ensures CarriedMade(r, 0, u)
  {
  }

  lemma OwnCarriesMade(r: Run, i: nat, u: ThreadId)
    requires ValidRun(r) && i < |r.actions| && r.actions[i].Own? && CarriedMade(r, i, u)
    requires Carries(PcIn(r.states[i + 1], u)).Some?
    ensures var pc := PcIn(r.states[i + 1], u); Made(r, i, pc.j, Carries(pc).value) || MakesReport(r, i, pc.j, Carries(pc).value)
  {
    hide Made, OwnStep, OwnEnabled;
    assert StepAt(r, i);
    OwnCarries(r.states[i], r.actions[i].t, r.actions[i].choice, u);
  }

  /** All progress events of the log have been made. */
  ghost predicate AllMade(r: Run, n: nat, j: JobId)
    requires ValidRun(r) && n <= |r.actions|
  {
    j in r.states[n].cells ==> LogMade(r, n, j, r.states[n].cells[j].log)
  }

  ghost predicate LogMade(r: Run, n: nat, j: JobId, log: seq<Event>)
    requires ValidRun(r) && n <= |r.actions|
  {
    forall k :: 0 <= k < |log| && log[k].EvProgress? ==> Made(r, n, j, log[k].report)
  }

  /** A step on the log: nothing, an event that is no progress, or the report that is carried. */
  predicate LogStep(log: seq<Event>, log': seq<Event>, carried: Option<Report>) {
    log' == log || (log' != [] && log' == log + [log'[|log'| - 1]] && (log'[|log'| - 1].EvProgress? ==> carried == Some(log'[|log'| - 1].report)))
  }

  lemma TaskLog(t: ThreadId, w: TaskPc, c: Cell, now: Time, choice: Choice, j: JobId)
    ensures LogStep(c.log, TaskStep(t, w, c, now, choice).cell.log, Carries(Task(j, w)))
  {
    hide AcceptsProgress, Announcement;
    if w.FinalGate? { AnnouncementKind(w.st, w.code); }
  }

  lemma OwnLog(t: ThreadId, pc: Pc, c: Cell, now: Time, choice: Choice)
    requires HasJob(pc)
    ensures LogStep(c.log, OwnStep(t, pc, c, now, choice).cell.log, Carries(pc))
  {
    hide TaskStep, Carries;
    if pc.Task? { TaskLog(t, pc.w, c, now, choice, pc.j); }
  }

  lemma {:induction false} EveryReportWasMade(r: Run, n: nat, j: JobId)
    requires ValidRun(r) && n <= |r.actions|
    ensures AllMade(r, n, j)
  {
    hide Made, MakesReport, Initial;
    if n == 0 {
      NothingLogged(r, j);
    } else {
      EveryReportWasMade(r, n - 1, j);
      hide Enabled, Apply;
      assert StepAt(r, n - 1);
      var s, a, s' := r.states[n - 1], r.actions[n - 1], r.states[n];
      forall p | Made(r, n - 1, j, p) ensures Made(r, n, j, p) { MadeBefore(r, n - 1, j, p); }
      if j in s.cells {
        ApplyCell(s, a, j);
        if a.Own? { LogStepMade(r, n - 1, j); } else { OtherUntold(s, a, j); }
      } else if j in s'.cells {
        NewJob(s, a, j);
      }
    }
  }

  lemma NothingLogged(r: Run, j: JobId)
    requires ValidRun(r)
    ensures AllMade(r, 0, j)
  {
  }

  lemma LogStepMade(r: Run, i: nat, j: JobId)
    requires ValidRun(r) && i < |r.actions| && r.actions[i].Own? && j in r.states[i].cells && AllMade(r, i, j)
    requires j in r.states[i + 1].cells && r.states[i + 1].cells[j] == CellAfter(r.states[i], r.actions[i], j)
    ensures LogMade(r, i, j, r.states[i + 1].cells[j].log)
  {
    hide Made, OwnStep, Apply, Initial;
    assert StepAt(r, i);
    var s, a := r.states[i], r.actions[i];
    var pc := s.threads[a.t].pc;
    if pc.j == j {
      OwnLog(a.t, pc, s.cells[j], s.now, a.choice);
      AlwaysCarriedMade(r, i, a.t);
    }
  }

  // ----- the end -----

  /** A job ends as its executor returned: completed, failed with the error's code, or stopped. */
  lemma VerdictOfOutcome(r: Run, n: nat, j: JobId)
    requires ValidRun(r) && n < |r.states| && j in r.states[n].cells && Terminal(r.states[n].cells[j].status)
    ensures var c := r.states[n].cells[j];
      && c.outcome.Some?
      && (c.outcome == Some(Ok) ==> c.status == Completed && c.code == None)
      && (forall e :: c.outcome == Some(ErrOther(e)) ==> c.status == Failed && c.code == Some(e))
      && (c.outcome == Some(ErrCancelled) ==> (c.status == Cancelled && c.code == None) || (c.status == Failed && c.code == Some("timeout")))
  {
    hide ValidRun, PhaseOf, StationIn, OwedIn, LinksOk, RowSettled;
    JobInRun(r, n, j);
  }

  /** Action i is the executor of job j returning x. */
  ghost predicate Returns(r: Run, i: nat, j: JobId, x: Outcome)
    requires ValidRun(r) && i < |r.actions|
  {
    assert StepAt(r, i);
    r.actions[i].Own? && r.actions[i].choice == Return(x) && r.states[i].threads[r.actions[i].t].pc == Task(j, Executing)
  }

  lemma TaskOutcome(t: ThreadId, w: TaskPc, c: Cell, now: Time, choice: Choice)
    ensures TaskStep(t, w, c, now, choice).cell.outcome == if w.Executing? && choice.Return? then Some(choice.r) else c.outcome
  {
    hide AcceptsProgress, Announcement;
  }

  lemma OwnOutcome(t: ThreadId, pc: Pc, c: Cell, now: Time, choice: Choice)
    requires HasJob(pc)
    ensures OwnStep(t, pc, c, now, choice).cell.outcome ==
      if pc.Task? && pc.w.Executing? && choice.Return? then Some(choice.r) else c.outcome
  {
    hide TaskStep;
    if pc.Task? { TaskOutcome(t, pc.w, c, now, choice); }
  }

  /** The recorded outcome is what the executor returned in some action of the run. */
  lemma {:induction false} OutcomeWasReturned(r: Run, n: nat, j: JobId)
    requires ValidRun(r) && n <= |r.actions| && j in r.states[n].cells && r.states[n].cells[j].outcome.Some?
    ensures exists i :: 0 <= i < n && Returns(r, i, j, r.states[n].cells[j].outcome.value)
  {
    hide Enabled, Apply, Returns;
    if n > 0 {
      assert StepAt(r, n - 1);
      var s, a := r.states[n - 1], r.actions[n - 1];
      if j !in s.cells {
        NewJob(s, a, j);
      } else {
        ApplyCell(s, a, j);
        if s.cells[j].outcome == r.states[n].cells[j].outcome {
          OutcomeWasReturned(r, n - 1, j);
        } else {
          OutcomeSet(r, n - 1, j);
        }
      }
    }
  }

  lemma OutcomeSet(r: Run, i: nat, j: JobId)
    requires ValidRun(r) && i < |r.actions| && j in r.states[i].cells && j in r.states[i + 1].cells
    requires r.states[i + 1].cells[j] == CellAfter(r.states[i], r.actions[i], j)
    requires r.states[i + 1].cells[j].outcome != r.states[i].cells[j].outcome
    ensures r.states[i + 1].cells[j].outcome.Some? && Returns(r, i, j, r.states[i + 1].cells[j].outcome.value)
  {
    hide OwnStep, Apply;
    assert StepAt(r, i);
    var s, a := r.states[i], r.actions[i];
    if a.Own? { OwnOutcome(a.t, s.threads[a.t].pc, s.cells[j], s.now, a.choice); } else { OtherUntold(s, a, j); }
  }

  // ----- the time of the end -----

  /** Action i takes job j from a status that is not terminal to one that is. */
  ghost predicate Ends(r: Run, i: nat, j: JobId)
    requires ValidRun(r) && i < |r.actions|
  {
    && j in r.states[i].cells && !Terminal(r.states[i].cells[j].status)
    && j in r.states[i + 1].cells && Terminal(r.states[i + 1].cells[j].status)
  }

  lemma TaskUpdated(t: ThreadId, w: TaskPc, c: Cell, now: Time, choice: Choice)
    ensures var c' := TaskStep(t, w, c, now, choice).cell;
      && (Terminal(c.status) && !w.Picked? && !w.Finish? ==> c'.updatedAt == c.updatedAt)
      && (!Terminal(c.status) && Terminal(c'.status) ==> c'.updatedAt == now)
  {
    hide Announcement;
  }

  lemma ToggleUpdated(t: ThreadId, k: ToggleKind, g: TogglePc, c: Cell, now: Time, choice: Choice)
    ensures var c' := ToggleStep(t, k, g, c, now, choice).cell;
      && (Terminal(c.status) ==> c'.updatedAt == c.updatedAt)
      && (Terminal(c'.status) ==> Terminal(c.status))
  {
  }

  lemma OwnUpdated(s: State, t: ThreadId, choice: Choice)
    requires Inv(s) && CanOwn(s, t, choice)
    ensures var pc := s.threads[t].pc; var c := s.cells[pc.j]; var c' := OwnStep(t, pc, c, s.now, choice).cell;
      && (Terminal(c.status) ==> c'.updatedAt == c.updatedAt)
      && (!Terminal(c.status) && Terminal(c'.status) ==> c'.updatedAt == s.now)
  {
    hide Inv, TaskStep, ToggleStep, OwnEnabled, PhaseOf, Verdict, RowSettled, StationIn, OwedIn, LinksOk;
    var pc := s.threads[t].pc;
    OwnFits(s, t);
    match pc
    case Task(j, w) => TaskUpdated(t, w, s.cells[j], s.now, choice);
    case Toggling(j, k, g) => ToggleUpdated(t, k, g, s.cells[j], s.now, choice);
    case _ =>
  }

  /** The time that pruning goes by is, for a terminal job, the moment at which it ended. */
  lemma {:induction false} TerminalTime(r: Run, n: nat, j: JobId)
    requires ValidRun(r) && n <= |r.actions| && j in r.states[n].cells && Terminal(r.states[n].cells[j].status)
    ensures exists i :: 0 <= i < n && Ends(r, i, j) && r.states[n].cells[j].updatedAt == r.states[i].now
  {
    hide Enabled, Apply, OwnStep, Inv, OwnEnabled;
    if n > 0 {
      assert StepAt(r, n - 1);
      var s, a := r.states[n - 1], r.actions[n - 1];
      if j !in s.cells {
        NewJob(s, a, j);
      } else {
        ApplyCell(s, a, j);
        RunKeepsInv(r, n - 1);
        if a.Own? { OwnAction(s, a); OwnUpdated(s, a.t, a.choice); } else { OtherUntold(s, a, j); }
        if Terminal(s.cells[j].status) {
          TerminalTime(r, n - 1, j);
        } else {
          assert Ends(r, n - 1, j);
        }
      }
    }
  }

  lemma OwnAction(s: State, a: Action)
    requires Enabled(s, a) && a.Own?
    ensures CanOwn(s, a.t, a.choice)
  {
  }
}
