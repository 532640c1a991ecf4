/** Deadlock freedom: whoever waits for a lock waits for a thread that can step, possibly
    through the one jobs lock that this thread waits for itself. */
module RuntimeProgress {
  import opened Basics
  import opened JobEvents
  import opened HistoryTable
  import opened RuntimeModel
  import opened RuntimeInvariant
  import opened RuntimeSafety
  import opened RuntimeCancelSafety
  import opened RuntimeTheorems

  /** The action is a step of thread t. */
  predicate By(a: Action, t: ThreadId) {
    match a
    case Tick(_) => false
    case SetIdleTimeout(_) => false
    case ClearHistory => false
    case TrimHistory(_) => false
    case _ => a.t == t
  }

  ghost predicate CanStep(s: State, t: ThreadId) {
    exists a :: By(a, t) && Enabled(s, a)
  }

  /** Thread t asks for the jobs lock and does not have it. */
  predicate WaitsForJobs(s: State, t: ThreadId) {
    t in s.threads && NeedsJobs(s.threads[t]) && s.jobsLock != Some(t)
  }

  /** Thread t asks for the gate of its job. */
  predicate WaitsForGate(s: State, t: ThreadId) {
    AtJob(s, t) && WantsGate(s.threads[t].pc)
  }

  /** Pruning can always be carried out: sorting by time and cutting is possible. */
  lemma PruneExists(s: State) returns (pruned: set<JobId>)
    ensures Prunable(s, pruned)
  {
    var terminal := RegisteredTerminal(s);
    var time := map j | j in terminal :: s.cells[j].updatedAt;
    if |terminal| <= TERMINAL_JOB_RETENTION {
      pruned := {};
    } else {
      var kept := NewestExists(terminal, TERMINAL_JOB_RETENTION, time);
      pruned := terminal - kept;
      assert terminal - pruned == kept;
    }
  }

  /** Nobody who works under the jobs lock waits for anything. */
  lemma JobsHolderSteps(s: State, t: ThreadId)
    requires Inv(s) && s.jobsLock == Some(t)
    ensures CanStep(s, t)
  {
    hide JobOk, CountsOk, Distinct, Prunable;
    assert t in s.threads && ThreadOk(s, t) && NeedsJobs(s.threads[t]);
    var th := s.threads[t];
    if th.call.CancelWait? {
      assert By(CancelFlag(t), t) && Enabled(s, CancelFlag(t));
    } else if th.call.CancelFlagged? {
      assert By(CancelToken(t), t) && Enabled(s, CancelToken(t));
    } else if th.pc.Starter? {
      var pruned := PruneExists(s);
      assert By(Insert(t, pruned), t) && Enabled(s, Insert(t, pruned));
    } else if th.pc.Watching? {
      WatchdogSteps(s, t);
    } else {
      assert By(Own(t, NoChoice), t) && Enabled(s, Own(t, NoChoice));
    }
  }

  lemma WatchdogSteps(s: State, t: ThreadId)
    requires AtWatch(s, t) && ThreadOk(s, t) && s.jobsLock == Some(t) && !s.threads[t].pc.d.Resting?
    ensures CanStep(s, t)
  {
    match s.threads[t].pc.d
    case Armed(_) => assert By(WatchdogStart(t), t) && Enabled(s, WatchdogStart(t));
    case Flagged(_, _, _) => assert By(WatchdogToken(t), t) && Enabled(s, WatchdogToken(t));
    case Scan(_, todo) =>
      if todo == {} {
        assert By(WatchdogDone(t), t) && Enabled(s, WatchdogDone(t));
      } else {
        var j :| j in todo;
        assert By(WatchdogTest(t, j), t) && Enabled(s, WatchdogTest(t, j));
      }
  }

  /** A gate holder can step unless it asks for the jobs lock. */
  lemma GateHolderSteps(s: State, t: ThreadId)
    requires Inv(s) && t in s.threads && HoldsGate(s.threads[t].pc) && !NeedsJobs(s.threads[t])
    ensures CanStep(s, t)
  {
    hide JobOk, CountsOk, Distinct;
    assert ThreadOk(s, t);
    assert By(Own(t, NoChoice), t) && Enabled(s, Own(t, NoChoice));
  }

  /** The lock order is gate before jobs: who waits for a gate holds neither a gate nor the jobs lock. */
  lemma GateWaiterHoldsNothing(s: State, t: ThreadId)
    requires Inv(s) && WaitsForGate(s, t)
    ensures s.jobsLock != Some(t) && forall j :: j in s.cells ==> s.cells[j].gate != Some(t)
  {
    hide JobOk, CountsOk, Distinct, ThreadOk;
    forall j | j in s.cells ensures s.cells[j].gate != Some(t) {
      assert CellOk(s, j);
    }
  }

  lemma JobsWaiterMoves(s: State, t: ThreadId)
    requires Inv(s) && WaitsForJobs(s, t)
    ensures if s.jobsLock.None? then CanStep(s, t) else CanStep(s, s.jobsLock.value)
  {
    hide Inv, Enabled;
    if s.jobsLock.None? {
      assert By(AcquireJobs(t), t) && Enabled(s, AcquireJobs(t)) by { AcquireEnabled(s, t); }
    } else {
      JobsHolderSteps(s, s.jobsLock.value);
    }
  }

  lemma AcquireEnabled(s: State, t: ThreadId)
    requires t in s.threads && NeedsJobs(s.threads[t]) && s.jobsLock.None?
    ensures Enabled(s, AcquireJobs(t))
  {
  }

  lemma FreeGateTaken(s: State, t: ThreadId)
    requires Inv(s) && WaitsForGate(s, t) && s.cells[s.threads[t].pc.j].gate.None?
    ensures CanStep(s, t)
  {
    hide Inv;
    assert By(Own(t, NoChoice), t) && Enabled(s, Own(t, NoChoice));
  }

  /** No deadlock. A thread that waits for the jobs lock can take it, or its holder can step. A
      thread that waits for a gate can take it, or the gate's holder can step, or that holder
      waits for the jobs lock and whoever has the jobs lock can step. */
  lemma NoDeadlock(r: Run, n: nat, t: ThreadId)
    requires ValidRun(r) && n < |r.states|
    ensures var s := r.states[n];
      WaitsForJobs(s, t) ==> if s.jobsLock.None? then CanStep(s, t) else CanStep(s, s.jobsLock.value)
    ensures var s := r.states[n];
      WaitsForGate(s, t) ==>
        match s.cells[s.threads[t].pc.j].gate
        case None => CanStep(s, t)
        case Some(u) => u != t && (CanStep(s, u) || (s.jobsLock.Some? && WaitsForJobs(s, u) && CanStep(s, s.jobsLock.value)))
  {
    hide ValidRun, Inv, CanStep, WaitsForJobs, WantsGate;
    var s := r.states[n];
    RunKeepsInv(r, n);
    if WaitsForJobs(s, t) { JobsWaiterMoves(s, t); }
    if WaitsForGate(s, t) {
      GateWaiterHoldsNothing(s, t);
      var j := s.threads[t].pc.j;
      if s.cells[j].gate.None? {
        FreeGateTaken(s, t);
      } else {
        GateHolderMoves(s, j, s.cells[j].gate.value);
      }
    }
  }

  lemma GateHolderMoves(s: State, j: JobId, u: ThreadId)
    requires Inv(s) && j in s.cells && s.cells[j].gate == Some(u)
    ensures CanStep(s, u) || (s.jobsLock.Some? && WaitsForJobs(s, u) && CanStep(s, s.jobsLock.value))
  {
    hide JobOk, CountsOk, Distinct, ThreadOk, CanStep;
    assert CellOk(s, j);
    if NeedsJobs(s.threads[u]) {
      if s.jobsLock == Some(u) { JobsHolderSteps(s, u); } else { JobsWaiterMoves(s, u); }
    } else {
      GateHolderSteps(s, u);
    }
  }
}
