/** Calls, cancellation, the watchdog and the jobs lock keep the invariant; with the other
    actions this makes it inductive. */
module RuntimeCancelSafety {
  import opened Basics
  import opened JobEvents
  import opened HistoryTable
  import opened RuntimeModel
  import opened RuntimeInvariant
  import opened RuntimeSafety

  // ----- steps that change no job -----

  /** No cell can refer to a thread at such a counter. */
  predicate Unattached(pc: Pc) {
    !pc.Starter? && !pc.Task? && !HoldsGate(pc)
  }

  lemma FrameThread(s: State, s': State, t: ThreadId)
    requires Inv(s) && t in s.threads && t in s'.threads
    requires s' == s.(threads := s.threads[t := s'.threads[t]], jobsLock := s'.jobsLock)
    requires s'.threads[t].pc == s.threads[t].pc || (Unattached(s.threads[t].pc) && Unattached(s'.threads[t].pc))
    requires s'.jobsLock == s.jobsLock || (s.jobsLock.None? && s'.jobsLock == Some(t)) || (s.jobsLock == Some(t) && s'.jobsLock.None?)
    requires ThreadOk(s', t)
    requires s'.jobsLock == Some(t) ==> NeedsJobs(s'.threads[t])
    ensures Safe(s, s')
  {
    hide CountsOk, Distinct, ThreadOk, CellOk, NeedsJobs, ProgressCount, Unattached;
    forall u | u in s'.threads ensures ThreadOk(s', u) {
      if u != t { BystanderThread(s, s', t, u); }
    }
    forall j | j in s'.cells ensures CellOk(s', j) && OwedIn(s', j) == OwedIn(s, j) {
      BystanderCell(s, s', t, j);
    }
    assert CountsOk(s') by { SameTokens(s, s'); }
  }

  lemma BystanderThread(s: State, s': State, t: ThreadId, u: ThreadId)
    requires t in s.threads && t in s'.threads && u in s.threads && u != t && ThreadOk(s, u)
    requires s' == s.(threads := s.threads[t := s'.threads[t]], jobsLock := s'.jobsLock)
    requires s'.jobsLock == s.jobsLock || (s.jobsLock.None? && s'.jobsLock == Some(t)) || (s.jobsLock == Some(t) && s'.jobsLock.None?)
    ensures u in s'.threads && ThreadOk(s', u)
  {
    hide InSink, HoldsGate;
  }

  lemma BystanderCell(s: State, s': State, t: ThreadId, j: JobId)
    requires t in s.threads && t in s'.threads && j in s.cells && CellOk(s, j)
    requires s' == s.(threads := s.threads[t := s'.threads[t]], jobsLock := s'.jobsLock)
    requires s'.threads[t].pc == s.threads[t].pc || (Unattached(s.threads[t].pc) && Unattached(s'.threads[t].pc))
    ensures j in s'.cells && CellOk(s', j) && OwedIn(s', j) == OwedIn(s, j)
  {
    hide JobOk, HoldsGate, StationOf, OwedBy;
  }

  lemma ThreadFacts(s: State, t: ThreadId)
    requires Inv(s) && t in s.threads
    ensures ThreadOk(s, t)
    ensures s.jobsLock == Some(t) ==> NeedsJobs(s.threads[t])
  {
    hide ThreadOk, CellOk, CountsOk, Distinct, NeedsJobs;
  }

  lemma AcquireJobsSafe(s: State, t: ThreadId)
    requires Inv(s) && t in s.threads && NeedsJobs(s.threads[t]) && s.jobsLock.None?
    ensures Safe(s, s.(jobsLock := Some(t)))
  {
    hide Inv, Safe, NeedsJobs;
    ThreadFacts(s, t);
    var s' := s.(jobsLock := Some(t));
    assert s.threads[t := s.threads[t]] == s.threads;
    FrameThread(s, s', t);
  }

  lemma CallToggleSafe(s: State, t: ThreadId, k: ToggleKind, j: JobId)
    requires Inv(s) && At(s, t) && s.threads[t].pc.Client? && Known(s, j)
    ensures Safe(s, MovePc(s, t, Toggling(j, k, Lookup)))
  {
    hide Inv, Safe;
    ThreadFacts(s, t);
    FrameThread(s, MovePc(s, t, Toggling(j, k, Lookup)), t);
  }

  lemma CallCancelSafe(s: State, t: ThreadId, j: JobId)
    requires Inv(s) && At(s, t) && (s.threads[t].pc.Client? || InSink(s.threads[t].pc)) && Known(s, j)
    ensures Safe(s, MoveCall(s, t, CancelWait(j)))
  {
    hide Inv, Safe, WatchOk;
    ThreadFacts(s, t);
    FrameThread(s, MoveCall(s, t, CancelWait(j)), t);
  }

  lemma WatchMove(s: State, t: ThreadId, d: WatchPc, lock: Option<ThreadId>)
    requires Inv(s) && AtWatch(s, t)
    requires lock == s.jobsLock || (s.jobsLock == Some(t) && lock.None?)
    requires WatchOk(s.(jobsLock := lock), t, d) && (lock == Some(t) ==> !d.Resting?)
    ensures Safe(s, MovePc(s, t, Watching(d)).(jobsLock := lock))
  {
    hide Inv, Safe;
    ThreadFacts(s, t);
    FrameThread(s, MovePc(s, t, Watching(d)).(jobsLock := lock), t);
  }

  // ----- steps on the flags of a job -----

  lemma UserFlagKeeps(c: Cell, at: Station, owed: Owed, row: Option<Row>)
    requires JobOk(c, at, owed, row) && c.log != []
    ensures JobOk(UserFlagged(c), at, owed, row) && Evolves(c, UserFlagged(c))
  {
    hide PhaseOf;
  }

  lemma WatchdogFlagKeeps(c: Cell, at: Station, owed: Owed, row: Option<Row>, now: Time, timeout: Time)
    requires JobOk(c, at, owed, row) && Stalled(c, now, timeout)
    ensures JobOk(WatchdogFlagged(c), at, owed, row) && Evolves(c, WatchdogFlagged(c))
  {
    hide PhaseOf;
  }

  lemma TokenKeeps(c: Cell, at: Station, owed: Owed, row: Option<Row>)
    requires JobOk(c, at, owed, row) && c.first.Some?
    ensures JobOk(c.(cancelled := true), at, owed, row) && Evolves(c, c.(cancelled := true))
  {
    hide PhaseOf;
  }

  /** The cell changes in its flags only: whoever holds what keeps it. */
  predicate FlagChange(c: Cell, c': Cell) {
    c' == c.(timedOut := c'.timedOut, userCancelled := c'.userCancelled, cancelled := c'.cancelled, first := c'.first)
    && (c.first.Some? ==> c'.first.Some?)
  }

  /** The state after a thread set flags of job k. */
  function Flagged(s: State, t: ThreadId, th: Thread, k: JobId, c: Cell, lock: Option<ThreadId>): State {
    s.(threads := s.threads[t := th], cells := s.cells[k := c], jobsLock := lock)
  }

  lemma FlagViews(s: State, t: ThreadId, th: Thread, k: JobId, c: Cell, lock: Option<ThreadId>)
    requires Inv(s) && t in s.threads && k in s.cells && FlagChange(s.cells[k], c)
    requires lock == s.jobsLock || (s.jobsLock == Some(t) && lock.None?)
    requires th.pc == s.threads[t].pc || (Unattached(s.threads[t].pc) && Unattached(th.pc) && !HasJob(s.threads[t].pc))
    ensures var s' := Flagged(s, t, th, k, c, lock);
      && Touches(s, s', t, k) && LinksOk(s', k)
      && StationIn(s', k) == StationIn(s, k) && OwedIn(s', k) == OwedIn(s, k) && RowIn(s', k) == RowIn(s, k)
      && CellOk(s, k)
  {
    hide JobOk, ThreadOk, CountsOk, Distinct, NeedsJobs, StationOf, OwedBy, HoldsGate;
    assert CellOk(s, k);
  }

  lemma FlagSafe(s: State, t: ThreadId, th: Thread, k: JobId, c: Cell, lock: Option<ThreadId>)
    requires Inv(s) && t in s.threads && k in s.cells && FlagChange(s.cells[k], c)
    requires lock == s.jobsLock || (s.jobsLock == Some(t) && lock.None?)
    requires th.pc == s.threads[t].pc || (Unattached(s.threads[t].pc) && Unattached(th.pc) && !HasJob(s.threads[t].pc))
    requires JobOk(c, StationIn(s, k), OwedIn(s, k), RowIn(s, k)) && Evolves(s.cells[k], c)
    requires ThreadOk(Flagged(s, t, th, k, c, lock), t)
    requires lock == Some(t) ==> NeedsJobs(th)
    ensures Safe(s, Flagged(s, t, th, k, c, lock))
  {
    hide Inv, JobOk, ThreadOk, Touches, NeedsJobs, StationIn, OwedIn, RowIn, Unattached, LinksOk, Safe;
    FlagViews(s, t, th, k, c, lock);
    FrameLocal(s, Flagged(s, t, th, k, c, lock), t, k);
  }

  lemma CancelFlagSafe(s: State, t: ThreadId)
    requires Inv(s) && t in s.threads && s.threads[t].call.CancelWait? && s.jobsLock == Some(t) && s.threads[t].call.k in s.cells
    ensures Safe(s, DoCancelFlag(s, t))
  {
    hide Inv, Safe, JobOk, WatchOk, Unattached, NeedsJobs, Evolves;
    ThreadFacts(s, t);
    var k := s.threads[t].call.k;
    if s.cells[k].registered {
      assert JobOk(s.cells[k], StationIn(s, k), OwedIn(s, k), RowIn(s, k)) by { hide *; JobFacts(s, k); }
      UserFlagKeeps(s.cells[k], StationIn(s, k), OwedIn(s, k), RowIn(s, k));
      var th := s.threads[t].(call := CancelFlagged(k));
      assert NeedsJobs(th) by { CallNeedsJobs(th); }
      FlagSafe(s, t, th, k, UserFlagged(s.cells[k]), s.jobsLock);
    } else {
      FrameThread(s, DoCancelFlag(s, t), t);
    }
  }

  lemma CallNeedsJobs(th: Thread)
    requires th.call != NoCall
    ensures NeedsJobs(th)
  {
  }

  lemma JobFacts(s: State, k: JobId)
    requires Inv(s) && k in s.cells
    ensures JobOk(s.cells[k], StationIn(s, k), OwedIn(s, k), RowIn(s, k))
  {
    hide JobOk, ThreadOk, CountsOk, Distinct, LinksOk;
    assert CellOk(s, k);
  }

  lemma CancelTokenSafe(s: State, t: ThreadId)
    requires Inv(s) && t in s.threads && s.threads[t].call.CancelFlagged? && s.jobsLock == Some(t) && s.threads[t].call.k in s.cells
    ensures Safe(s, DoCancelToken(s, t))
  {
    hide Inv, Safe, JobOk, WatchOk, Unattached, NeedsJobs, Evolves;
    ThreadFacts(s, t);
    var k := s.threads[t].call.k;
    assert JobOk(s.cells[k], StationIn(s, k), OwedIn(s, k), RowIn(s, k)) by { hide *; JobFacts(s, k); }
    TokenKeeps(s.cells[k], StationIn(s, k), OwedIn(s, k), RowIn(s, k));
    FlagSafe(s, t, s.threads[t].(call := NoCall), k, s.cells[k].(cancelled := true), None);
  }

  lemma WatchdogTestSafe(s: State, t: ThreadId, j: JobId)
    requires Inv(s) && AtWatch(s, t) && s.threads[t].pc.d.Scan? && s.jobsLock == Some(t) && j in s.cells
    ensures Safe(s, DoWatchdogTest(s, t, j))
  {
    hide Inv, Safe, JobOk, Evolves;
    ThreadFacts(s, t);
    var d := s.threads[t].pc.d;
    if Stalled(s.cells[j], s.now, d.timeout) {
      assert JobOk(s.cells[j], StationIn(s, j), OwedIn(s, j), RowIn(s, j)) by { hide *; JobFacts(s, j); }
      WatchdogFlagKeeps(s.cells[j], StationIn(s, j), OwedIn(s, j), RowIn(s, j), s.now, d.timeout);
      var th := s.threads[t].(pc := Watching(WatchPc.Flagged(d.timeout, d.todo - {j}, j)));
      FlagSafe(s, t, th, j, WatchdogFlagged(s.cells[j]), s.jobsLock);
    } else {
      WatchMove(s, t, Scan(d.timeout, d.todo - {j}), s.jobsLock);
    }
  }

  lemma WatchdogTokenSafe(s: State, t: ThreadId)
    requires Inv(s) && AtWatch(s, t) && s.threads[t].pc.d.Flagged? && s.jobsLock == Some(t) && s.threads[t].pc.d.k in s.cells
    ensures Safe(s, DoWatchdogToken(s, t))
  {
    hide Inv, Safe, JobOk, Evolves;
    ThreadFacts(s, t);
    var d := s.threads[t].pc.d;
    assert JobOk(s.cells[d.k], StationIn(s, d.k), OwedIn(s, d.k), RowIn(s, d.k)) by { hide *; JobFacts(s, d.k); }
    TokenKeeps(s.cells[d.k], StationIn(s, d.k), OwedIn(s, d.k), RowIn(s, d.k));
    FlagSafe(s, t, s.threads[t].(pc := Watching(Scan(d.timeout, d.todo))), d.k, s.cells[d.k].(cancelled := true), s.jobsLock);
  }

  // ----- every action -----

  lemma RetainedTrims(table: Table, limit: nat, kept: Table)
    requires Retained(table, limit, kept)
    ensures Trimmed(table, kept)
  {
  }

  lemma OwnSafe(s: State, t: ThreadId, choice: Choice)
    requires Inv(s) && CanOwn(s, t, choice)
    ensures Safe(s, DoOwn(s, t, choice))
  {
    hide Inv, Safe, DoOwn;
    var pc := s.threads[t].pc;
    if pc.Starter? {
      OwnStarter(s, t, choice);
    } else if pc.Task? {
      OwnTask(s, t, choice);
    } else {
      OwnToggle(s, t, choice);
    }
  }

  /** The invariant is inductive, and no action harms any job. */
  lemma ActionSafe(s: State, a: Action)
    requires Inv(s) && Enabled(s, a)
    ensures Safe(s, Apply(s, a))
  {
    hide Inv, Safe, DoOwn, CanOwn, DoAdmit, DoInsert, DoRecordStart, DoSend, DoPickup, DoPersistFinal, DoDropToken,
      DoCancelFlag, DoCancelToken, DoWatchdogTest, DoWatchdogToken, Prunable, Retained, NeedsJobs;
    match a
    case Tick(d) => EnvironmentSafe(s, Apply(s, a));
    case SetIdleTimeout(ms) => EnvironmentSafe(s, Apply(s, a));
    case ClearHistory => EnvironmentSafe(s, Apply(s, a));
    case TrimHistory(kept) => RetainedTrims(s.table, HISTORY_RETENTION_LIMIT, kept); EnvironmentSafe(s, Apply(s, a));
    case AcquireJobs(t) => AcquireJobsSafe(s, t);
    case Own(t, choice) => OwnSafe(s, t, choice);
    case Admit(t, j) => AdmitSafe(s, t, j);
    case Insert(t, pruned) => InsertSafe(s, t, pruned);
    case RecordStart(t) => RecordStartSafe(s, t);
    case Send(t) => SendSafe(s, t);
    case Pickup(t) => PickupSafe(s, t);
    case PersistFinal(t) => PersistFinalSafe(s, t);
    case CleanupHistory(t, kept) => RetainedTrims(s.table, HISTORY_RETENTION_LIMIT, kept); CleanupHistorySafe(s, t, kept);
    case DropToken(t) => DropTokenSafe(s, t);
    case CallToggle(t, k, j) => CallToggleSafe(s, t, k, j);
    case CallCancel(t, j) => CallCancelSafe(s, t, j);
    case CancelFlag(t) => CancelFlagSafe(s, t);
    case CancelToken(t) => CancelTokenSafe(s, t);
    case WatchdogLoad(t) => WatchMove(s, t, Armed(s.idleTimeout), s.jobsLock);
    case WatchdogStart(t) => WatchdogStartSafe(s, t);
    case WatchdogTest(t, j) => WatchdogTestSafe(s, t, j);
    case WatchdogToken(t) => WatchdogTokenSafe(s, t);
    case WatchdogDone(t) => WatchMove(s, t, Resting, None);
  }

  lemma WatchdogStartSafe(s: State, t: ThreadId)
    requires Inv(s) && AtWatch(s, t) && s.threads[t].pc.d.Armed? && s.jobsLock == Some(t)
    ensures Safe(s, MovePc(s, t, Watching(Scan(s.threads[t].pc.d.timeout, Registered(s)))))
  {
    hide Inv, Safe;
    ThreadFacts(s, t);
    WatchMove(s, t, Scan(s.threads[t].pc.d.timeout, Registered(s)), s.jobsLock);
  }
}
