/** The watchdog times out only jobs that have really been idle for a full timeout. */
module RuntimeWatchdog {
  import opened Basics
  import opened JobEvents
  import opened HistoryTable
  import opened RuntimeModel
  import opened RuntimeInvariant
  import opened RuntimeSafety
  import opened RuntimeTheorems

  /** The step of a thread at `pc` is activity of its job: a worker picks the task up, the job
      is resumed, or a progress report is accepted. */
  predicate Lively(pc: Pc, c: Cell) {
    match pc
    case Task(_, w) => (w.Picked? && c.registered) || (w.ProgressCheck? && AcceptsProgress(c))
    case Toggling(_, k, g) => k.Resume? && g.Check? && c.registered && c.status.Paused?
    case _ => false
  }

  /** Action i of the run is activity of job j. */
  ghost predicate Activity(r: Run, i: nat, j: JobId)
    requires ValidRun(r) && i < |r.actions|
  {
    assert StepAt(r, i);
    var s := r.states[i];
    match r.actions[i]
    case Own(t, _) => s.threads[t].pc.j == j && Lively(s.threads[t].pc, s.cells[j])
    case _ => false
  }

  lemma TaskActivity(t: ThreadId, j: JobId, w: TaskPc, c: Cell, now: Time, choice: Choice)
    ensures TaskStep(t, w, c, now, choice).cell.lastActivity ==
      if Lively(Task(j, w), c) then Some(now) else c.lastActivity
  {
    hide AcceptsProgress, Announcement;
  }

  lemma OwnActivity(t: ThreadId, pc: Pc, c: Cell, now: Time, choice: Choice)
    ensures OwnStep(t, pc, c, now, choice).cell.lastActivity == if Lively(pc, c) then Some(now) else c.lastActivity
  {
    hide AcceptsProgress, TaskStep;
    if pc.Task? { TaskActivity(t, pc.j, pc.w, c, now, choice); }
  }

  function LastActivityIn(s: State, j: JobId): Option<Time> {
    if j in s.cells then s.cells[j].lastActivity else None
  }

  lemma ActivityAfter(r: Run, i: nat, j: JobId)
    requires ValidRun(r) && i < |r.actions|
    ensures LastActivityIn(r.states[i + 1], j) ==
      if Activity(r, i, j) then Some(r.states[i].now) else LastActivityIn(r.states[i], j)
  {
    hide OwnStep, Apply, Stalled, Lively;
    assert StepAt(r, i);
    var s, a := r.states[i], r.actions[i];
    if j in s.cells {
      ApplyCell(s, a, j);
      if a.Own? && a.t in s.threads { OwnActivity(a.t, s.threads[a.t].pc, s.cells[j], s.now, a.choice); }
    } else {
      NewJobUnstopped(s, a, j);
    }
  }

  lemma ClockAfter(s: State, a: Action)
    requires Enabled(s, a)
    ensures s.now <= Apply(s, a).now
  {
    hide Prunable, Retained, OwnStep, OwnEnabled, NeedsJobs, Stalled, UserFlagged, WatchdogFlagged, HoldsGate, InSink;
  }

  lemma {:induction false} ClockMonotone(r: Run, i: nat, k: nat)
    requires ValidRun(r) && i <= k < |r.states|
    ensures r.states[i].now <= r.states[k].now
  {
    hide Enabled, Apply;
    if i < k {
      ClockMonotone(r, i, k - 1);
      assert StepAt(r, k - 1);
      ClockAfter(r.states[k - 1], r.actions[k - 1]);
    }
  }

  /** The recorded time is that of the last activity, and is absent without any. */
  lemma {:induction false} LastActivityMeaning(r: Run, n: nat, j: JobId) returns (at: int)
    requires ValidRun(r) && n <= |r.actions|
    ensures -1 <= at < n
    ensures forall i :: at < i < n ==> !Activity(r, i, j)
    ensures at >= 0 ==> Activity(r, at, j)
    ensures LastActivityIn(r.states[n], j) == if at >= 0 then Some(r.states[at].now) else None
  {
    hide StepAt, Activity;
    if n == 0 {
      at := -1;
    } else {
      at := LastActivityMeaning(r, n - 1, j);
      ActivityAfter(r, n - 1, j);
      if Activity(r, n - 1, j) { at := n - 1; }
    }
  }

  // ----- what the first activity is -----

  /** The step picks the task up or resumes the job. */
  predicate Begins(pc: Pc, c: Cell) {
    match pc
    case Task(_, w) => w.Picked? && c.registered
    case Toggling(_, k, g) => k.Resume? && g.Check? && c.registered && c.status.Paused?
    case _ => false
  }

  ghost predicate Beginning(r: Run, i: nat, j: JobId)
    requires ValidRun(r) && i < |r.actions|
  {
    assert StepAt(r, i);
    var s := r.states[i];
    match r.actions[i]
    case Own(t, _) => s.threads[t].pc.j == j && Begins(s.threads[t].pc, s.cells[j])
    case _ => false
  }

  /** A thread runs a task because it has just picked it up, or ran it before. */
  predicate TaskContinues(s: State, s': State, a: Action, t: ThreadId) {
    t in s'.threads && s'.threads[t].pc.Task? ==>
      && t in s.threads
      && var pc, pc' := s.threads[t].pc, s'.threads[t].pc;
         || (a == Pickup(t) && pc'.w.Picked?)
         || (pc.Task? && pc.j == pc'.j && (pc.w.Picked? && !pc'.w.Picked? ==> a.Own? && a.t == t))
  }

  lemma OwnContinues(s: State, a: Action, t: ThreadId)
    requires Enabled(s, a) && a.Own?
    ensures TaskContinues(s, Apply(s, a), a, t)
  {
    hide TaskStep, StarterStep, ToggleStep, TaskEnabled, ToggleEnabled;
  }

  lemma OtherContinues(s: State, a: Action, t: ThreadId)
    requires Enabled(s, a) && !a.Own?
    ensures TaskContinues(s, Apply(s, a), a, t)
  {
    hide Prunable, Retained, NeedsJobs, Stalled, UserFlagged, WatchdogFlagged, HoldsGate, InSink, Unregister;
  }

  /** A task that is past its first region has recorded activity. */
  ghost predicate PickedUp(s: State, j: JobId) {
    j in s.cells && s.cells[j].stage.OnWorker? ==>
      (PcIn(s, s.cells[j].stage.t).Task? && !PcIn(s, s.cells[j].stage.t).w.Picked? ==> s.cells[j].lastActivity.Some?)
  }

  lemma PickedUpStep(r: Run, i: nat, j: JobId)
    requires ValidRun(r) && i < |r.actions| && PickedUp(r.states[i], j)
    ensures PickedUp(r.states[i + 1], j)
  {
    hide Enabled, Apply, PhaseOf, Verdict, Activity, Initial, Lively, ThreadOk, LinksOk;
    var s, a, s' := r.states[i], r.actions[i], r.states[i + 1];
    ActivityAfter(r, i, j);
    if j in s'.cells && s'.cells[j].stage.OnWorker? && PcIn(s', s'.cells[j].stage.t).Task? && !PcIn(s', s'.cells[j].stage.t).w.Picked? {
      var t := s'.cells[j].stage.t;
      WorkerOf(r, i + 1, j, t);
      assert StepAt(r, i) by { ValidStep(r, i); }
      if a.Own? { OwnContinues(s, a, t); } else { OtherContinues(s, a, t); }
      ThreadOfTask(r, i, t);
      if s.threads[t].pc.w.Picked? { PickupIsActivity(r, i, j, t); }
    }
  }

  lemma ValidStep(r: Run, i: nat)
    requires ValidRun(r) && i < |r.actions|
    ensures StepAt(r, i)
  {
  }

  lemma WorkerOf(r: Run, n: nat, j: JobId, t: ThreadId)
    requires ValidRun(r) && n < |r.states| && j in r.states[n].cells && r.states[n].cells[j].stage == OnWorker(t)
    ensures t in r.states[n].threads && r.states[n].threads[t].pc.Task? && r.states[n].threads[t].pc.j == j
  {
    hide ValidRun, JobOk, StationIn, OwedIn;
    JobInRun(r, n, j);
  }

  lemma ThreadOfTask(r: Run, n: nat, t: ThreadId)
    requires ValidRun(r) && n < |r.states| && t in r.states[n].threads && r.states[n].threads[t].pc.Task?
    ensures var s := r.states[n]; var j := s.threads[t].pc.j;
      j in s.cells && s.cells[j].stage == OnWorker(t)
  {
    hide ValidRun, CellOk, CountsOk, Distinct;
    RunKeepsInv(r, n);
    assert ThreadOk(r.states[n], t);
  }

  /** When a task is picked up its job is still registered. */
  lemma PickupIsActivity(r: Run, i: nat, j: JobId, t: ThreadId)
    requires ValidRun(r) && i < |r.actions| && r.actions[i].Own? && r.actions[i].t == t
    requires var s := r.states[i];
      t in s.threads && s.threads[t].pc == Task(j, Picked) && j in s.cells && s.cells[j].stage == OnWorker(t)
    ensures Activity(r, i, j)
  {
    hide PhaseOf, Verdict, Initial, LinksOk, OwedIn;
    JobInRun(r, i, j);
  }

  lemma {:induction false} AlwaysPickedUp(r: Run, n: nat, j: JobId)
    requires ValidRun(r) && n < |r.states|
    ensures PickedUp(r.states[n], j)
  {
    hide PickedUp;
    if n == 0 {
      NobodyPickedUp(r, j);
    } else {
      AlwaysPickedUp(r, n - 1, j);
      PickedUpStep(r, n - 1, j);
    }
  }

  lemma NobodyPickedUp(r: Run, j: JobId)
    requires ValidRun(r)
    ensures PickedUp(r.states[0], j)
  {
  }

  /** Activity that begins nothing is a report of a task that was picked up before. */
  lemma OtherActivity(r: Run, i: nat, j: JobId)
    requires ValidRun(r) && i < |r.actions| && Activity(r, i, j) && !Beginning(r, i, j)
    ensures LastActivityIn(r.states[i], j).Some?
  {
    hide PhaseOf, Verdict, LinksOk, AcceptsProgress;
    assert StepAt(r, i);
    var t := r.actions[i].t;
    ThreadOfTask(r, i, t);
    AlwaysPickedUp(r, i, j);
  }

  /** A recorded time goes back to a pickup or a resumption. */
  lemma {:induction false} ActivityBegan(r: Run, n: nat, j: JobId)
    requires ValidRun(r) && n <= |r.actions| && LastActivityIn(r.states[n], j).Some?
    ensures exists i :: 0 <= i < n && Beginning(r, i, j)
  {
    hide Activity, Beginning, StepAt, Enabled, Apply;
    if n == 0 {
      NoActivityYet(r, j);
    } else {
      ActivityAfter(r, n - 1, j);
      if !Beginning(r, n - 1, j) {
        if Activity(r, n - 1, j) { OtherActivity(r, n - 1, j); }
        ActivityBegan(r, n - 1, j);
      }
    }
  }

  lemma NoActivityYet(r: Run, j: JobId)
    requires ValidRun(r)
    ensures LastActivityIn(r.states[0], j).None?
  {
  }

  /** If the watchdog fires on job j, then the job is running, not paused, the timeout it works
      with is not zero, the job has been picked up or resumed before, and every activity it ever
      had lies a full timeout back. */
  lemma WatchdogSound(r: Run, n: nat, j: JobId)
    requires ValidRun(r) && n < |r.actions| && WatchdogFires(r, n, j)
    ensures var s := r.states[n];
      && r.actions[n].WatchdogTest? && r.actions[n].t in s.threads
      && s.threads[r.actions[n].t].pc.Watching? && s.threads[r.actions[n].t].pc.d.Scan?
      && var timeout := s.threads[r.actions[n].t].pc.d.timeout;
      && timeout > 0
      && j in s.cells && s.cells[j].status == Running && !s.cells[j].paused
      && (exists i :: 0 <= i < n && Beginning(r, i, j))
      && (exists i :: 0 <= i < n && Activity(r, i, j))
      && (forall i :: 0 <= i < n && Activity(r, i, j) ==> r.states[i].now + timeout <= s.now)
  {
    hide Activity, Beginning, PhaseOf, Verdict;
    assert StepAt(r, n);
    var s, t := r.states[n], r.actions[n].t;
    var timeout := s.threads[t].pc.d.timeout;
    RunKeepsInv(r, n);
    assert ThreadOk(s, t);
    RunningNotHeld(r, n, j);
    var at := LastActivityMeaning(r, n, j);
    ActivityBegan(r, n, j);
    forall i | 0 <= i < n && Activity(r, i, j) ensures r.states[i].now + timeout <= s.now {
      ClockMonotone(r, i, at);
    }
  }

  /** Exactly when a test times a job out, said of the states before and after it and of the run
      so far: the job is running, nobody has stopped it yet, it has been active, and all its
      activity lies a full timeout back. */
  lemma WatchdogExactly(r: Run, n: nat, t: ThreadId, j: JobId)
    requires ValidRun(r) && n < |r.actions| && r.actions[n] == WatchdogTest(t, j)
    ensures t in r.states[n].threads && r.states[n].threads[t].pc.Watching? && r.states[n].threads[t].pc.d.Scan?
    ensures j in r.states[n].cells && j in r.states[n + 1].cells
    ensures var s, timeout := r.states[n], r.states[n].threads[t].pc.d.timeout;
      !s.cells[j].timedOut && r.states[n + 1].cells[j].timedOut <==>
        && s.cells[j].status == Running
        && Untouched(r, n, j)
        && (exists i :: 0 <= i < n && Activity(r, i, j))
        && (forall i :: 0 <= i < n && Activity(r, i, j) ==> r.states[i].now + timeout <= s.now)
  {
    hide Activity, PhaseOf, Verdict, StationIn, OwedIn, RowIn, LinksOk, Untouched;
    assert StepAt(r, n);
    var s := r.states[n];
    var c, timeout := s.cells[j], s.threads[t].pc.d.timeout;
    TestEffect(s, t, j);
    JobInRun(r, n, j);
    FirstMeaning(r, n, j);
    var at := LastActivityMeaning(r, n, j);
    if at >= 0 {
      forall i | 0 <= i < n && Activity(r, i, j) ensures r.states[i].now <= r.states[at].now {
        ClockMonotone(r, i, at);
      }
    }
  }

  lemma TestEffect(s: State, t: ThreadId, j: JobId)
    requires Enabled(s, WatchdogTest(t, j))
    ensures var c, c' := s.cells[j], Apply(s, WatchdogTest(t, j)).cells[j];
      var overdue := c.lastActivity.Some? && c.lastActivity.value + s.threads[t].pc.d.timeout <= s.now;
      c'.timedOut <==> c.timedOut || (c.status.Running? && !c.userCancelled && overdue)
  {
  }

  lemma RunningNotHeld(r: Run, n: nat, j: JobId)
    requires ValidRun(r) && n < |r.states| && j in r.states[n].cells && r.states[n].cells[j].status.Running?
    ensures !r.states[n].cells[j].paused
  {
    hide PhaseOf, Verdict, ValidRun, StationIn, OwedIn, RowIn, LinksOk;
    JobInRun(r, n, j);
  }

  /** A parked executor holds no lock, and waits only while its job is paused and not cancelled:
      a resumption or a cancellation lets it go on. */
  lemma ParkedExecutor(r: Run, n: nat, t: ThreadId)
    requires ValidRun(r) && n < |r.states| && AtTask(r.states[n], t) && r.states[n].threads[t].pc.w.Parked?
    ensures var s := r.states[n]; var c := s.cells[s.threads[t].pc.j];
      && s.jobsLock != Some(t) && (forall k :: k in s.cells ==> s.cells[k].gate != Some(t))
      && (Enabled(s, Own(t, NoChoice)) <==> c.status != Paused || c.cancelled)
  {
    hide PhaseOf, Verdict, RowSettled, ValidRun;
    var s := r.states[n];
    RunKeepsInv(r, n);
    OwnFits(s, t);
    forall k | k in s.cells ensures s.cells[k].gate != Some(t) {
      assert CellOk(s, k);
    }
  }
}
