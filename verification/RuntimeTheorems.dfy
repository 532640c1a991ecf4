/** What holds of every run of the job runtime, whatever the interleaving. */
module RuntimeTheorems {
  import opened Basics
  import opened JobEvents
  import opened HistoryTable
  import opened RuntimeModel
  import opened RuntimeInvariant
  import opened RuntimeSafety
  import opened RuntimeCancelSafety

  lemma InitialInv(s: State)
    requires Initial(s)
    ensures Inv(s)
  {
    assert Tokens(s) == {} && Registered(s) == {};
  }

  lemma {:induction false} RunKeepsInv(r: Run, i: nat)
    requires ValidRun(r) && i < |r.states|
    ensures Inv(r.states[i])
  {
    hide Inv, Enabled, Initial;
    if i == 0 {
      InitialInv(r.states[0]);
    } else {
      RunKeepsInv(r, i - 1);
      assert StepAt(r, i - 1);
      ActionSafe(r.states[i - 1], r.actions[i - 1]);
    }
  }

  /** What happens to a job over any stretch of a run. */
  lemma {:induction false} RunEvolves(r: Run, i: nat, k: nat, j: JobId)
    requires ValidRun(r) && i <= k < |r.states|
    ensures JobEvolves(r.states[i], r.states[k], j)
  {
    hide Inv, Enabled, Initial, ProgressCount, JobEvolves;
    if i < k {
      RunEvolves(r, i, k - 1, j);
      RunKeepsInv(r, k - 1);
      assert StepAt(r, k - 1);
      ActionSafe(r.states[k - 1], r.actions[k - 1]);
      assert JobEvolves(r.states[k - 1], r.states[k], j);
      EvolvesOn(r.states[i], r.states[k - 1], r.states[k], j);
    } else {
      EvolvesFrom(r.states[i], j);
    }
  }

  lemma EvolvesFrom(s: State, j: JobId)
    ensures JobEvolves(s, s, j)
  {
  }

  lemma EvolvesOn(s: State, s1: State, s2: State, j: JobId)
    requires JobEvolves(s, s1, j) && JobEvolves(s1, s2, j)
    ensures JobEvolves(s, s2, j)
  {
    hide ProgressDue, OwedIn, Terminal;
  }

  lemma JobInRun(r: Run, i: nat, j: JobId)
    requires ValidRun(r) && i < |r.states| && j in r.states[i].cells
    ensures JobOk(r.states[i].cells[j], StationIn(r.states[i], j), OwedIn(r.states[i], j), RowIn(r.states[i], j))
    ensures LinksOk(r.states[i], j)
    ensures r.states[i].cells[j].stage.Finished? ==> StationIn(r.states[i], j).Over?
  {
    hide JobOk, ThreadOk, CountsOk, Distinct;
    RunKeepsInv(r, i);
    assert CellOk(r.states[i], j);
  }

  // ----- event streams -----

  /** In every interleaving a job's sink sees a well-shaped stream, and once the task is over
      the stream ends with the one event that announces the final status. */
  lemma EventStream(r: Run, i: nat, j: JobId)
    requires ValidRun(r) && i < |r.states| && j in r.states[i].cells
    ensures var c := r.states[i].cells[j];
      && WellShaped(c.log)
      && (c.stage.Finished? ==>
           c.log != [] && Terminal(c.status) && c.log[|c.log| - 1] == Announcement(c.status, c.code)
           && TerminalEvent(c.log[|c.log| - 1]))
  {
    hide WellShaped, Verdict, RowSettled;
    JobInRun(r, i, j);
    PhaseMeaning(r.states[i].cells[j].log);
  }

  /** While no emission is owed, a running job shows `Paused` exactly if its stream has an open
      pause, and its executor is held exactly then. */
  lemma SnapshotMatchesStream(r: Run, i: nat, j: JobId)
    requires ValidRun(r) && i < |r.states| && j in r.states[i].cells
    ensures var c := r.states[i].cells[j];
      c.log != [] && !Terminal(c.status) && OwedIn(r.states[i], j).Nothing? ==>
        (c.status.Paused? <==> HasOpenPause(c.log)) && (c.status.Paused? <==> c.paused)
  {
    hide WellShaped, Verdict, RowSettled, HasOpenPause, OwedIn, StationIn, LinksOk;
    JobInRun(r, i, j);
    PhaseMeaning(r.states[i].cells[j].log);
  }

  /** A terminal status is never left, its error code never changes, and streams only grow. */
  lemma TerminalIsAbsorbing(r: Run, i: nat, k: nat, j: JobId)
    requires ValidRun(r) && i <= k < |r.states| && j in r.states[i].cells
    ensures j in r.states[k].cells
    ensures var c, c' := r.states[i].cells[j], r.states[k].cells[j];
      && c.log <= c'.log
      && (Terminal(c.status) ==> c'.status == c.status && c'.code == c.code)
      && (c.stage.Finished? ==> c'.log == c.log)
  {
    hide Inv, ValidRun, ProgressCount;
    RunEvolves(r, i, k, j);
    var c, c' := r.states[i].cells[j], r.states[k].cells[j];
    if c.stage.Finished? && c'.log != c.log {
      EventStream(r, i, j);
      EventStream(r, k, j);
      assert false;
    }
  }

  // ----- cancellation -----

  /** Action i is a `cancel` of job j that finds it registered. */
  ghost predicate CancelRequest(r: Run, i: nat, j: JobId)
    requires ValidRun(r) && i < |r.actions|
  {
    assert StepAt(r, i);
    var s := r.states[i];
    match r.actions[i]
    case CancelFlag(t) => s.threads[t].call.k == j && s.cells[j].registered
    case _ => false
  }

  /** Action i is the watchdog finding job j stalled. */
  ghost predicate WatchdogFires(r: Run, i: nat, j: JobId)
    requires ValidRun(r) && i < |r.actions|
  {
    assert StepAt(r, i);
    var s := r.states[i];
    match r.actions[i]
    case WatchdogTest(t, k) => k == j && Stalled(s.cells[j], s.now, s.threads[t].pc.d.timeout)
    case _ => false
  }

  /** The first of either on job j. */
  ghost predicate FirstStop(r: Run, i: nat, j: JobId)
    requires ValidRun(r) && i < |r.actions|
  {
    (CancelRequest(r, i, j) || WatchdogFires(r, i, j))
    && forall k :: 0 <= k < i ==> !CancelRequest(r, k, j) && !WatchdogFires(r, k, j)
  }

  /** What one action does to the cell of a job that exists already. */
  function CellAfter(s: State, a: Action, j: JobId): Cell
    requires j in s.cells
  {
    var c := s.cells[j];
    match a
    case Own(t, choice) =>
      if t in s.threads && HasJob(s.threads[t].pc) && s.threads[t].pc.j == j
      then OwnStep(t, s.threads[t].pc, c, s.now, choice).cell else c
    case Insert(t, pruned) =>
      if t in s.threads && HasJob(s.threads[t].pc) && s.threads[t].pc.j == j then c.(registered := true)
      else if j in pruned then c.(registered := false) else c
    case Send(t) =>
      if t in s.threads && HasJob(s.threads[t].pc) && s.threads[t].pc.j == j then c.(stage := Waiting) else c
    case Pickup(t) => if s.queue != [] && s.queue[0] == j then c.(stage := OnWorker(t)) else c
    case DropToken(t) =>
      if t in s.threads && HasJob(s.threads[t].pc) && s.threads[t].pc.j == j then c.(stage := Finished) else c
    case CancelFlag(t) =>
      if t in s.threads && s.threads[t].call == CancelWait(j) && c.registered then UserFlagged(c) else c
    case CancelToken(t) =>
      if t in s.threads && s.threads[t].call == CancelCall.CancelFlagged(j) then c.(cancelled := true) else c
    case WatchdogTest(t, k) =>
      if k == j && AtWatch(s, t) && s.threads[t].pc.d.Scan? && Stalled(c, s.now, s.threads[t].pc.d.timeout)
      then WatchdogFlagged(c) else c
    case WatchdogToken(t) =>
      if AtWatch(s, t) && s.threads[t].pc.d.Flagged? && s.threads[t].pc.d.k == j then c.(cancelled := true) else c
    case _ => c
  }

  /** What happens to cell j agrees with `CellAfter`. */
  predicate CellFollows(s: State, s': State, a: Action, j: JobId)
    requires j in s.cells
  {
    j in s'.cells && s'.cells[j] == CellAfter(s, a, j)
  }

  lemma ApplyOwnCell(s: State, a: Action, j: JobId)
    requires Enabled(s, a) && j in s.cells
    requires a.Own? || a.Insert? || a.Send? || a.Pickup? || a.DropToken?
    ensures CellFollows(s, Apply(s, a), a, j)
  {
    hide Prunable, OwnStep, OwnEnabled;
  }

  lemma ApplyStopCell(s: State, a: Action, j: JobId)
    requires Enabled(s, a) && j in s.cells
    requires a.CancelFlag? || a.CancelToken? || a.WatchdogTest? || a.WatchdogToken?
    ensures CellFollows(s, Apply(s, a), a, j)
  {
    hide Stalled, UserFlagged, WatchdogFlagged;
  }

  lemma ApplyOtherCell(s: State, a: Action, j: JobId)
    requires Enabled(s, a) && j in s.cells
    requires !(a.Own? || a.Insert? || a.Send? || a.Pickup? || a.DropToken?)
    requires !(a.CancelFlag? || a.CancelToken? || a.WatchdogTest? || a.WatchdogToken?)
    ensures CellFollows(s, Apply(s, a), a, j)
  {
    hide Retained, NeedsJobs, HoldsGate, InSink;
  }

  lemma ApplyCell(s: State, a: Action, j: JobId)
    requires Enabled(s, a) && j in s.cells
    ensures j in Apply(s, a).cells && Apply(s, a).cells[j] == CellAfter(s, a, j)
  {
    hide Enabled, Apply, CellAfter;
    if a.Own? || a.Insert? || a.Send? || a.Pickup? || a.DropToken? {
      ApplyOwnCell(s, a, j);
    } else if a.CancelFlag? || a.CancelToken? || a.WatchdogTest? || a.WatchdogToken? {
      ApplyStopCell(s, a, j);
    } else {
      ApplyOtherCell(s, a, j);
    }
  }

  lemma TaskStepFields(t: ThreadId, w: TaskPc, c: Cell, now: Time, choice: Choice)
    ensures TaskStep(t, w, c, now, choice).cell.first == c.first
  {
    hide AcceptsProgress, Announcement;
  }

  lemma OwnStepFields(t: ThreadId, pc: Pc, c: Cell, now: Time, choice: Choice)
    ensures OwnStep(t, pc, c, now, choice).cell.first == c.first
  {
    hide AcceptsProgress, TaskStep;
    if pc.Task? { TaskStepFields(t, pc.w, c, now, choice); }
  }

  /** The job's first canceller, or nobody, also for jobs that do not exist yet. */
  function FirstIn(s: State, j: JobId): Option<Canceller> {
    if j in s.cells then s.cells[j].first else None
  }

  lemma NewJobUnstopped(s: State, a: Action, j: JobId)
    requires Enabled(s, a) && j !in s.cells
    ensures FirstIn(Apply(s, a), j).None?
    ensures j in Apply(s, a).cells ==> Apply(s, a).cells[j].lastActivity.None?
  {
    hide Prunable, Retained, OwnStep, OwnEnabled, NeedsJobs, Stalled, UserFlagged, WatchdogFlagged, HoldsGate, InSink;
  }

  lemma FirstAfter(r: Run, i: nat, j: JobId)
    requires ValidRun(r) && i < |r.actions|
    ensures var f := FirstIn(r.states[i], j);
      FirstIn(r.states[i + 1], j) ==
        if CancelRequest(r, i, j) then FirstOf(f, User)
        else if WatchdogFires(r, i, j) then FirstOf(f, Watchdog)
        else f
  {
    hide OwnStep, Apply, Stalled;
    assert StepAt(r, i);
    var s, a := r.states[i], r.actions[i];
    if j in s.cells {
      ApplyCell(s, a, j);
      if a.Own? && a.t in s.threads { OwnStepFields(a.t, s.threads[a.t].pc, s.cells[j], s.now, a.choice); }
    } else {
      NewJobUnstopped(s, a, j);
    }
  }

  ghost predicate Untouched(r: Run, n: nat, j: JobId)
    requires ValidRun(r) && n <= |r.actions|
  {
    forall i :: 0 <= i < n ==> !CancelRequest(r, i, j) && !WatchdogFires(r, i, j)
  }

  ghost predicate UserFirst(r: Run, n: nat, j: JobId)
    requires ValidRun(r) && n <= |r.actions|
  {
    exists i :: 0 <= i < n && FirstStop(r, i, j) && CancelRequest(r, i, j)
  }

  ghost predicate WatchdogFirst(r: Run, n: nat, j: JobId)
    requires ValidRun(r) && n <= |r.actions|
  {
    exists i :: 0 <= i < n && FirstStop(r, i, j) && WatchdogFires(r, i, j)
  }

  /** One position more. */
  lemma FirstStopStep(r: Run, n: nat, j: JobId)
    requires ValidRun(r) && n < |r.actions|
    ensures Untouched(r, n + 1, j) <==> Untouched(r, n, j) && !CancelRequest(r, n, j) && !WatchdogFires(r, n, j)
    ensures UserFirst(r, n + 1, j) <==> UserFirst(r, n, j) || (Untouched(r, n, j) && CancelRequest(r, n, j))
    ensures WatchdogFirst(r, n + 1, j) <==> WatchdogFirst(r, n, j) || (Untouched(r, n, j) && WatchdogFires(r, n, j))
  {
    hide CancelRequest, WatchdogFires, StepAt;
  }

  /** Who stopped the job first, in terms of the run alone: nobody, or whoever acts at the
      first position where anybody does. */
  lemma {:induction false} FirstMeaning(r: Run, n: nat, j: JobId)
    requires ValidRun(r) && n <= |r.actions|
    ensures FirstIn(r.states[n], j).None? <==> Untouched(r, n, j)
    ensures FirstIn(r.states[n], j) == Some(User) <==> UserFirst(r, n, j)
    ensures FirstIn(r.states[n], j) == Some(Watchdog) <==> WatchdogFirst(r, n, j)
  {
    hide CancelRequest, WatchdogFires, FirstIn, StepAt, Untouched, UserFirst, WatchdogFirst, Initial;
    if n == 0 {
      InitialState(r);
      StartsUnstopped(r.states[0], j);
      NothingYet(r, j);
    } else {
      FirstMeaning(r, n - 1, j);
      FirstAfter(r, n - 1, j);
      StopsAreOneKind(r, n - 1, j);
      FirstStopStep(r, n - 1, j);
    }
  }

  lemma NothingYet(r: Run, j: JobId)
    requires ValidRun(r)
    ensures Untouched(r, 0, j) && !UserFirst(r, 0, j) && !WatchdogFirst(r, 0, j)
  {
  }

  lemma InitialState(r: Run)
    requires ValidRun(r)
    ensures Initial(r.states[0])
  {
  }

  lemma StartsUnstopped(s: State, j: JobId)
    requires Initial(s)
    ensures FirstIn(s, j).None?
  {
  }

  lemma StopsAreOneKind(r: Run, i: nat, j: JobId)
    requires ValidRun(r) && i < |r.actions|
    ensures !(CancelRequest(r, i, j) && WatchdogFires(r, i, j))
  {
  }

  /** First canceller wins: the two flags exclude each other and name who came first, the token
      is set only when somebody came, and an executor that returned `Cancelled` ends its job as
      `Failed` with code "timeout" exactly when the watchdog came first, else as `Cancelled`. */
  lemma FirstCancellerWins(r: Run, n: nat, j: JobId)
    requires ValidRun(r) && n < |r.states| && j in r.states[n].cells
    ensures var c := r.states[n].cells[j];
      && !(c.timedOut && c.userCancelled)
      && (c.cancelled ==> c.timedOut || c.userCancelled)
      && (c.timedOut <==> WatchdogFirst(r, n, j))
      && (c.userCancelled <==> UserFirst(r, n, j))
      && (c.outcome == Some(ErrCancelled) && Terminal(c.status) ==>
           if WatchdogFirst(r, n, j)
           then c.status.Failed? && c.code == Some("timeout")
           else c.status.Cancelled? && c.code.None?)
  {
    hide StepAt, UserFirst, WatchdogFirst, PhaseOf, StationIn, OwedIn, LinksOk;
    JobInRun(r, n, j);
    FirstMeaning(r, n, j);
  }

  /** After the first canceller the snapshot's item and counters stand still, and at most one
      more progress event comes out: the one that was past its check. */
  lemma FrozenAfterCancel(r: Run, i: nat, k: nat, j: JobId)
    requires ValidRun(r) && i <= k < |r.states| && j in r.states[i].cells
    requires r.states[i].cells[j].timedOut || r.states[i].cells[j].userCancelled
    ensures j in r.states[k].cells
    ensures var c, c' := r.states[i].cells[j], r.states[k].cells[j];
      && c'.item == c.item && c'.items == c.items && c'.bytes == c.bytes
      && ProgressCount(c'.log) <= ProgressCount(c.log) + (if OwedIn(r.states[i], j).OwesProgress? then 1 else 0)
  {
    hide ValidRun, ProgressCount, OwedIn, StationIn, LinksOk, PhaseOf;
    JobInRun(r, i, j);
    RunEvolves(r, i, k, j);
  }
}
