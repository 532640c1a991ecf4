/** The invariant of the whole runtime, and that every action of every thread keeps it. */
module RuntimeSafety {
  import opened Basics
  import opened JobEvents
  import opened HistoryTable
  import opened RuntimeModel
  import opened RuntimeInvariant

  const REGISTRY_LIMIT: nat := TERMINAL_JOB_RETENTION + ACTIVE_OPERATION_LIMIT

  function PcIn(s: State, t: ThreadId): Pc {
    if t in s.threads then s.threads[t].pc else Client
  }

  function StationIn(s: State, j: JobId): Station
    requires j in s.cells
  {
    match s.cells[j].stage
    case Starting(t) => StationOf(Starting(t), PcIn(s, t))
    case OnWorker(t) => StationOf(OnWorker(t), PcIn(s, t))
    case stage => StationOf(stage, Client)
  }

  function OwedIn(s: State, j: JobId): Owed
    requires j in s.cells
  {
    match s.cells[j].gate
    case None => Nothing
    case Some(t) => OwedBy(PcIn(s, t))
  }

  function RowIn(s: State, j: JobId): Option<Row> {
    if j in s.table then Some(s.table[j]) else None
  }

  /** A thread's claims about the job it works for, and about the jobs lock. */
  predicate ThreadOk(s: State, t: ThreadId)
    requires t in s.threads
  {
    var th := s.threads[t];
    && (HasJob(th.pc) ==> th.pc.j in s.cells && PcOk(t, th.pc, s.cells[th.pc.j]))
    && (th.call != NoCall ==> Known(s, th.call.k) && (th.pc.Client? || InSink(th.pc)))
    && (th.call.CancelFlagged? ==> s.jobsLock == Some(t) && s.cells[th.call.k].first.Some?)
    && (th.pc.Watching? ==> WatchOk(s, t, th.pc.d))
  }

  predicate PcOk(t: ThreadId, pc: Pc, c: Cell) {
    && (pc.Starter? ==> c.stage == Starting(t))
    && (pc.Task? ==> c.stage == OnWorker(t))
    && (pc.Toggling? ==> c.log != [])
    && (HoldsGate(pc) ==> c.gate == Some(t))
  }

  predicate WatchOk(s: State, t: ThreadId, d: WatchPc) {
    match d
    case Resting => true
    case Armed(timeout) => timeout > 0
    case Scan(timeout, todo) => timeout > 0 && s.jobsLock == Some(t) && todo <= s.cells.Keys
    case Flagged(timeout, todo, k) =>
      timeout > 0 && s.jobsLock == Some(t) && todo <= s.cells.Keys && k in s.cells && s.cells[k].first.Some?
  }

  /** The threads and the queue that a cell refers to refer back to it. */
  predicate LinksOk(s: State, j: JobId)
    requires j in s.cells
  {
    var c := s.cells[j];
    && (c.stage.Starting? ==> c.stage.t in s.threads && PcIn(s, c.stage.t).Starter? && PcIn(s, c.stage.t).j == j)
    && (c.stage.OnWorker? ==> c.stage.t in s.threads && PcIn(s, c.stage.t).Task? && PcIn(s, c.stage.t).j == j)
    && (c.stage.Waiting? <==> j in s.queue)
    && (c.gate.Some? ==> c.gate.value in s.threads && HoldsGate(PcIn(s, c.gate.value)) && PcIn(s, c.gate.value).j == j)
  }

  predicate CellOk(s: State, j: JobId)
    requires j in s.cells
  {
    LinksOk(s, j) && JobOk(s.cells[j], StationIn(s, j), OwedIn(s, j), RowIn(s, j))
  }

  predicate Distinct<T(==)>(q: seq<T>) {
    forall i, k :: 0 <= i < k < |q| ==> q[i] != q[k]
  }

  ghost predicate CountsOk(s: State) {
    && s.admitted == |Tokens(s)| <= ACTIVE_OPERATION_LIMIT
    && |Registered(s)| <= REGISTRY_LIMIT
  }

  ghost predicate Inv(s: State) {
    && (forall t :: t in s.threads ==> ThreadOk(s, t))
    && (forall j :: j in s.cells ==> CellOk(s, j))
    && (forall j :: j in s.queue ==> j in s.cells)
    && Distinct(s.queue)
    && (s.jobsLock.Some? ==> s.jobsLock.value in s.threads && NeedsJobs(s.threads[s.jobsLock.value]))
    && CountsOk(s)
  }

  /** What an action may do to any job. */
  ghost predicate JobEvolves(s: State, s': State, j: JobId) {
    j in s.cells ==>
      && j in s'.cells
      && Evolves(s.cells[j], s'.cells[j])
      && (s.cells[j].first.Some? ==>
           ProgressDue(s'.cells[j], OwedIn(s', j)) <= ProgressDue(s.cells[j], OwedIn(s, j)))
  }

  // ----- frame: what thread t does to job j leaves the others alone -----

  /** Only thread t moves, only job j changes, and what the others hold of j they keep. */
  ghost predicate Touches(s: State, s': State, t: ThreadId, j: JobId) {
    && t in s.threads && t in s'.threads
    && s'.threads == s.threads[t := s'.threads[t]]
    && j in s'.cells
    && s'.cells == s.cells[j := s'.cells[j]]
    && (forall k :: k != j ==> RowIn(s', k) == RowIn(s, k) && (k in s.queue <==> k in s'.queue))
    && (s'.jobsLock == s.jobsLock || (s.jobsLock == Some(t) && s'.jobsLock.None?))
    && (HasJob(s.threads[t].pc) && s'.threads[t].pc != s.threads[t].pc ==> s.threads[t].pc.j == j)
    && (j in s.cells ==> KeepsHolds(t, s.cells[j], s'.cells[j]))
  }

  /** Threads other than t keep the token and the gate. */
  predicate KeepsHolds(t: ThreadId, c: Cell, c': Cell) {
    && ((c.stage.Starting? || c.stage.OnWorker?) && c.stage.t != t ==> c'.stage == c.stage)
    && (c.gate.Some? && c.gate.value != t ==> c'.gate == c.gate)
    && (c.log != [] ==> c'.log != [])
    && (c.first.Some? ==> c'.first.Some?)
  }

  lemma OtherThreads(s: State, s': State, t: ThreadId, j: JobId, u: ThreadId)
    requires Touches(s, s', t, j) && u in s.threads && u != t && ThreadOk(s, u)
    ensures u in s'.threads && ThreadOk(s', u)
  {
    hide JobOk, NeedsJobs, InSink;
  }

  lemma OtherJobs(s: State, s': State, t: ThreadId, j: JobId, k: JobId)
    requires Touches(s, s', t, j) && k in s.cells && k != j && CellOk(s, k)
    ensures k in s'.cells && CellOk(s', k) && OwedIn(s', k) == OwedIn(s, k)
  {
    hide JobOk;
  }

  /** Enough for the invariant after a step of t on j: the moved thread, the changed job, the
      queue, the lock and the counts. */
  lemma FrameInv(s: State, s': State, t: ThreadId, j: JobId)
    requires Inv(s) && Touches(s, s', t, j)
    requires ThreadOk(s', t) && CellOk(s', j)
    requires forall k :: k in s'.queue ==> k in s'.cells
    requires Distinct(s'.queue)
    requires s'.jobsLock == Some(t) ==> NeedsJobs(s'.threads[t])
    requires CountsOk(s')
    ensures Inv(s')
  {
    hide JobOk, CountsOk, Distinct, Touches, ThreadOk, CellOk, NeedsJobs;
    assert s'.threads.Keys == s.threads.Keys && s'.cells.Keys == s.cells.Keys + {j} by { FrameDomains(s, s', t, j); }
    forall u | u in s'.threads ensures ThreadOk(s', u) {
      if u != t { OtherThreads(s, s', t, j, u); }
    }
    forall k | k in s'.cells ensures CellOk(s', k) {
      if k != j { OtherJobs(s, s', t, j, k); }
    }
    FrameLock(s, s', t, j);
  }

  lemma FrameDomains(s: State, s': State, t: ThreadId, j: JobId)
    requires Touches(s, s', t, j)
    ensures s'.threads.Keys == s.threads.Keys && s'.cells.Keys == s.cells.Keys + {j}
  {
  }

  lemma FrameLock(s: State, s': State, t: ThreadId, j: JobId)
    requires Inv(s) && Touches(s, s', t, j)
    requires s'.jobsLock == Some(t) ==> NeedsJobs(s'.threads[t])
    ensures s'.jobsLock.Some? ==> s'.jobsLock.value in s'.threads && NeedsJobs(s'.threads[s'.jobsLock.value])
  {
    hide ThreadOk, CellOk, CountsOk, Distinct, NeedsJobs;
  }

  /** Same counts, if no token changes hands and nothing is registered anew. */
  lemma SameCounts(s: State, s': State, j: JobId)
    requires CountsOk(s) && j in s.cells && j in s'.cells && s'.cells == s.cells[j := s'.cells[j]]
    requires s'.cells[j].stage.Finished? <==> s.cells[j].stage.Finished?
    requires s'.cells[j].registered ==> s.cells[j].registered
    requires s'.admitted == s.admitted
    ensures CountsOk(s')
  {
    assert Tokens(s') == Tokens(s);
    SubsetSize(Registered(s'), Registered(s));
  }

  // ----- every action keeps the invariant -----

  /** The moving thread's job is what the job's own invariant says it is. */
  lemma OwnFits(s: State, t: ThreadId)
    requires Inv(s) && AtJob(s, t)
    ensures var pc := s.threads[t].pc; var c := s.cells[pc.j];
      && JobOk(c, StationIn(s, pc.j), OwedIn(s, pc.j), RowIn(s, pc.j))
      && PcOk(t, pc, c)
      && (pc.Starter? ==> StationIn(s, pc.j) == StarterStation(pc.s))
      && (pc.Task? ==> StationIn(s, pc.j) == TaskStation(pc.w))
      && (HoldsGate(pc) ==> OwedIn(s, pc.j) == OwedBy(pc))
      && (c.stage.Finished? ==> StationIn(s, pc.j).Over?)
      && LinksOk(s, pc.j)
      && (s.jobsLock == Some(t) ==> NeedsJobs(s.threads[t]))
  {
    hide JobOk, CountsOk, Distinct;
    assert CellOk(s, s.threads[t].pc.j);
  }

  /** The verdict on one action: the invariant holds again and every job has evolved lawfully. */
  ghost predicate Safe(s: State, s': State) {
    Inv(s') && forall k :: JobEvolves(s, s', k)
  }

  lemma FrameSafe(s: State, s': State, t: ThreadId, j: JobId)
    requires Inv(s) && Touches(s, s', t, j)
    requires ThreadOk(s', t) && CellOk(s', j) && JobEvolves(s, s', j)
    requires forall k :: k in s'.queue ==> k in s'.cells
    requires Distinct(s'.queue)
    requires s'.jobsLock == Some(t) ==> NeedsJobs(s'.threads[t])
    requires CountsOk(s')
    ensures Safe(s, s')
  {
    hide JobOk, CountsOk, Distinct, ThreadOk, LinksOk, NeedsJobs, ProgressCount;
    FrameInv(s, s', t, j);
    forall k ensures JobEvolves(s, s', k) {
      if k != j && k in s.cells { OtherJobs(s, s', t, j, k); }
    }
  }

  /** Frame for a step that only changes the cell of j, hands over no token and registers nothing. */
  lemma FrameLocal(s: State, s': State, t: ThreadId, j: JobId)
    requires Inv(s) && Touches(s, s', t, j) && j in s.cells
    requires ThreadOk(s', t) && CellOk(s', j) && JobEvolves(s, s', j)
    requires s'.queue == s.queue && s'.admitted == s.admitted
    requires s'.cells[j].stage.Finished? <==> s.cells[j].stage.Finished?
    requires s'.cells[j].registered ==> s.cells[j].registered
    requires s'.jobsLock == Some(t) ==> NeedsJobs(s'.threads[t])
    ensures Safe(s, s')
  {
    hide JobOk, Distinct, ThreadOk, CellOk, NeedsJobs;
    SameCounts(s, s', j);
    assert s'.cells.Keys == s.cells.Keys;
    FrameSafe(s, s', t, j);
  }

  /** The state after a thread's step on its own job. */
  function Moved(s: State, t: ThreadId, pc': Pc, c': Cell, table: Table): State
    requires AtJob(s, t)
  {
    Unlock(WithCell(MovePc(s, t, pc'), s.threads[t].pc.j, c'), t).(table := table)
  }

  /** A statement on the history concerns only the row of j. */
  ghost predicate OnlyRow(table: Table, table': Table, j: JobId) {
    forall k :: k != j ==> (k in table <==> k in table') && (k in table ==> table'[k] == table[k])
  }

  /** The new counter plays the same role for the same job, or the call has returned. */
  predicate SameRole(pc: Pc, pc': Pc) {
    match pc
    case Starter(j, _) => pc'.Starter? && pc'.j == j
    case Task(j, _) => pc'.Task? && pc'.j == j
    case Toggling(j, _, _) => pc'.Client? || (pc'.Toggling? && pc'.j == j)
    case _ => false
  }

  predicate MoveOk(s: State, t: ThreadId, pc': Pc, c': Cell)
    requires AtJob(s, t)
  {
    var c := s.cells[s.threads[t].pc.j];
    && SameRole(s.threads[t].pc, pc')
    && c'.stage == c.stage && KeepsHolds(t, c, c')
    && (c'.gate.Some? && c'.gate.value != t ==> c'.gate == c.gate)
    && (HoldsGate(pc') <==> c'.gate == Some(t))
  }

  lemma MovedThread(s: State, t: ThreadId, pc': Pc, c': Cell, table: Table)
    requires Inv(s) && AtJob(s, t) && MoveOk(s, t, pc', c') && OnlyRow(s.table, table, s.threads[t].pc.j)
    ensures var s' := Moved(s, t, pc', c', table);
      Touches(s, s', t, s.threads[t].pc.j) && ThreadOk(s', t) && s'.jobsLock != Some(t)
  {
    hide CountsOk, Distinct, CellOk, NeedsJobs, InSink, WatchOk;
    assert ThreadOk(s, t);
  }

  lemma MoveFits(s: State, t: ThreadId, pc': Pc, c': Cell, owed: Owed, row: Option<Row>, at': Station, owed': Owed)
    requires AtJob(s, t) && SameRole(s.threads[t].pc, pc')
    requires var c := s.cells[s.threads[t].pc.j];
      Keeps(c, owed, row, c', at', owed') && GateKept(t, s.threads[t].pc, pc', c, c')
    ensures MoveOk(s, t, pc', c') && (c'.registered ==> s.cells[s.threads[t].pc.j].registered)
    ensures c'.stage == s.cells[s.threads[t].pc.j].stage
  {
    hide JobOk, ProgressDue, Terminal, HoldsGate;
  }

  lemma MovedLinks(s: State, t: ThreadId, pc': Pc, c': Cell, table: Table)
    requires Inv(s) && AtJob(s, t) && MoveOk(s, t, pc', c')
    ensures LinksOk(Moved(s, t, pc', c', table), s.threads[t].pc.j)
  {
    hide Inv, JobOk, StationIn, OwedIn, NeedsJobs;
    OwnFits(s, t);
  }

  lemma MovedOwed(s: State, t: ThreadId, pc': Pc, c': Cell, table: Table)
    requires Inv(s) && AtJob(s, t) && MoveOk(s, t, pc', c')
    ensures var pc := s.threads[t].pc; var j := pc.j;
      OwedIn(Moved(s, t, pc', c', table), j) == OwedAfter(OwedIn(s, j), pc, pc')
  {
    hide Inv, JobOk, StationIn, NeedsJobs, OwedBy, HoldsGate, LinksOk;
    OwnFits(s, t);
    TaskHasItsGate(s, t);
  }

  lemma MovedStation(s: State, t: ThreadId, pc': Pc, c': Cell, table: Table)
    requires Inv(s) && AtJob(s, t) && MoveOk(s, t, pc', c')
    ensures var pc := s.threads[t].pc; var j := pc.j;
      StationIn(Moved(s, t, pc', c', table), j) == (if pc.Toggling? then StationIn(s, j) else StationOf(c'.stage, pc'))
  {
    hide Inv, JobOk, StationOf, OwedIn, NeedsJobs, OwedBy, HoldsGate;
    OwnFits(s, t);
  }

  lemma MovedRow(s: State, t: ThreadId, pc': Pc, c': Cell, table: Table)
    requires AtJob(s, t)
    ensures var j := s.threads[t].pc.j;
      RowIn(Moved(s, t, pc', c', table), j) == if j in table then Some(table[j]) else None
  {
  }

  lemma MovedViews(s: State, t: ThreadId, pc': Pc, c': Cell, table: Table)
    requires Inv(s) && AtJob(s, t) && MoveOk(s, t, pc', c') && OnlyRow(s.table, table, s.threads[t].pc.j)
    ensures var s' := Moved(s, t, pc', c', table); var pc := s.threads[t].pc; var j := pc.j;
      && Touches(s, s', t, j) && ThreadOk(s', t) && LinksOk(s', j)
      && OwedIn(s', j) == OwedAfter(OwedIn(s, j), pc, pc')
      && StationIn(s', j) == (if pc.Toggling? then StationIn(s, j) else StationOf(c'.stage, pc'))
      && s'.jobsLock != Some(t)
      && RowIn(s', j) == (if j in table then Some(table[j]) else None)
  {
    hide *;
    MovedRow(s, t, pc', c', table);
    MovedThread(s, t, pc', c', table);
    MovedLinks(s, t, pc', c', table);
    MovedOwed(s, t, pc', c', table);
    MovedStation(s, t, pc', c', table);
  }

  /** Local steps are safe once the job's own invariant holds again. */
  lemma MovedSafe(s: State, t: ThreadId, pc': Pc, c': Cell, table: Table, at': Station)
    requires Inv(s) && AtJob(s, t)
    requires var s' := Moved(s, t, pc', c', table); var pc := s.threads[t].pc; var j := pc.j;
      && Touches(s, s', t, j) && ThreadOk(s', t) && LinksOk(s', j)
      && StationIn(s', j) == at'
      && Keeps(s.cells[j], OwedIn(s, j), RowIn(s', j), c', at', OwedIn(s', j))
      && s'.jobsLock != Some(t)
      && (c'.registered ==> s.cells[j].registered)
    ensures Safe(s, Moved(s, t, pc', c', table))
  {
    hide CountsOk, Distinct, JobOk, ProgressCount, ThreadOk, LinksOk, Touches, StationIn, OwedIn;
    FrameLocal(s, Moved(s, t, pc', c', table), t, s.threads[t].pc.j);
  }

  lemma OwnStarter(s: State, t: ThreadId, choice: Choice)
    requires Inv(s) && CanOwn(s, t, choice) && s.threads[t].pc.Starter?
    ensures Safe(s, DoOwn(s, t, choice))
  {
    hide JobOk, ProgressCount, PhaseOf, Touches, Inv, Safe, DoOwn, Moved, StationIn, OwedIn, LinksOk, ThreadOk, Keeps, StarterStation;
    var pc := s.threads[t].pc;
    var j, m := pc.j, StarterStep(pc.s, s.cells[pc.j]);
    OwnFits(s, t);
    StarterSteps(pc.s, s.cells[j], OwedIn(s, j), RowIn(s, j));
    assert s.cells[j].gate != Some(t) by { StarterHasNoGate(s, t); }
    MoveFits(s, t, Starter(j, m.s), m.cell, OwedIn(s, j), RowIn(s, j), StarterStation(m.s), OwedIn(s, j));
    DoOwnIsMoved(s, t, choice);
    MovedViews(s, t, Starter(j, m.s), m.cell, s.table);
    MovedSafe(s, t, Starter(j, m.s), m.cell, s.table, StarterStation(m.s));
  }

  lemma StarterHasNoGate(s: State, t: ThreadId)
    requires Inv(s) && AtJob(s, t) && s.threads[t].pc.Starter?
    ensures s.cells[s.threads[t].pc.j].gate != Some(t)
  {
    hide JobOk, CountsOk, Distinct, ThreadOk;
    assert CellOk(s, s.threads[t].pc.j);
  }

  /** A step of thread t keeps the gate and the counter in line, and registers nothing. */
  predicate GateKept(t: ThreadId, pc: Pc, pc': Pc, c: Cell, c': Cell) {
    && (HoldsGate(pc') <==> c'.gate == Some(t))
    && (c'.gate.Some? && c'.gate != Some(t) ==> c'.gate == c.gate)
    && (c.gate.Some? && c.gate.value != t ==> c'.gate == c.gate)
    && c'.registered == c.registered
  }

  predicate TaskGateKept(t: ThreadId, j: JobId, w: TaskPc, c: Cell, now: Time, choice: Choice) {
    var m := TaskStep(t, w, c, now, choice);
    GateKept(t, Task(j, w), Task(j, m.w), c, m.cell)
  }

  lemma RunningGate(t: ThreadId, j: JobId, w: TaskPc, c: Cell, lock: Option<ThreadId>, now: Time, choice: Choice)
    requires w.Picked? || w.Executing? || w.Parked?
    requires TaskEnabled(t, w, c, lock, choice)
    requires HoldsGate(Task(j, w)) <==> c.gate == Some(t)
    ensures TaskGateKept(t, j, w, c, now, choice)
  {
  }

  lemma JudgingGate(t: ThreadId, j: JobId, w: TaskPc, c: Cell, lock: Option<ThreadId>, now: Time, choice: Choice)
    requires w.Returned? || w.CheckUser? || w.Finish?
    requires TaskEnabled(t, w, c, lock, choice)
    requires HoldsGate(Task(j, w)) <==> c.gate == Some(t)
    ensures TaskGateKept(t, j, w, c, now, choice)
  {
  }

  lemma ReportingGate(t: ThreadId, j: JobId, w: TaskPc, c: Cell, lock: Option<ThreadId>, now: Time, choice: Choice)
    requires w.ProgressWait? || w.ProgressCheck? || w.ProgressAccepted? || w.ProgressInSink? || w.ProgressLeave?
    requires TaskEnabled(t, w, c, lock, choice)
    requires HoldsGate(Task(j, w)) <==> c.gate == Some(t)
    ensures TaskGateKept(t, j, w, c, now, choice)
  {
    hide AcceptsProgress;
  }

  lemma FinalGate(t: ThreadId, j: JobId, w: TaskPc, c: Cell, lock: Option<ThreadId>, now: Time, choice: Choice)
    requires w.FinalWait? || w.FinalGate? || w.FinalInSink? || w.Persist? || w.Cleanup? || w.Dropping?
    requires TaskEnabled(t, w, c, lock, choice)
    requires HoldsGate(Task(j, w)) <==> c.gate == Some(t)
    ensures TaskGateKept(t, j, w, c, now, choice)
  {
    hide Announcement;
  }

  /** A task's step and the gate. */
  lemma TaskGate(t: ThreadId, j: JobId, w: TaskPc, c: Cell, lock: Option<ThreadId>, now: Time, choice: Choice)
    requires TaskEnabled(t, w, c, lock, choice)
    requires HoldsGate(Task(j, w)) <==> c.gate == Some(t)
    ensures TaskGateKept(t, j, w, c, now, choice)
  {
    hide TaskGateKept, TaskEnabled, HoldsGate;
    if w.Picked? || w.Executing? || w.Parked? {
      RunningGate(t, j, w, c, lock, now, choice);
    } else if w.Returned? || w.CheckUser? || w.Finish? {
      JudgingGate(t, j, w, c, lock, now, choice);
    } else if w.ProgressWait? || w.ProgressCheck? || w.ProgressAccepted? || w.ProgressInSink? || w.ProgressLeave? {
      ReportingGate(t, j, w, c, lock, now, choice);
    } else {
      FinalGate(t, j, w, c, lock, now, choice);
    }
  }

  /** What `Own` does, in terms of `Moved`. */
  lemma DoOwnIsMoved(s: State, t: ThreadId, choice: Choice)
    requires AtJob(s, t)
    ensures var l := OwnStep(t, s.threads[t].pc, s.cells[s.threads[t].pc.j], s.now, choice);
      DoOwn(s, t, choice) == Moved(s, t, l.pc, l.cell, s.table)
  {
    hide OwnStep;
  }

  lemma OwnTask(s: State, t: ThreadId, choice: Choice)
    requires Inv(s) && CanOwn(s, t, choice) && s.threads[t].pc.Task?
    ensures Safe(s, DoOwn(s, t, choice))
  {
    hide JobOk, ProgressCount, PhaseOf, Touches, TaskStep, TaskEnabled, TaskStation, Inv, Safe, DoOwn, Moved, StationIn, OwedIn, LinksOk, ThreadOk, Keeps, MoveOk, GateKept, HoldsGate;
    var pc := s.threads[t].pc;
    var j, m := pc.j, TaskStep(t, pc.w, s.cells[pc.j], s.now, choice);
    OwnFits(s, t);
    TaskHasItsGate(s, t);
    TaskSteps(t, pc.w, s.cells[j], s.jobsLock, s.now, choice, OwedIn(s, j), RowIn(s, j), j);
    TaskGate(t, j, pc.w, s.cells[j], s.jobsLock, s.now, choice);
    MoveFits(s, t, Task(j, m.w), m.cell, OwedIn(s, j), RowIn(s, j), TaskStation(m.w), OwedAfter(OwedIn(s, j), pc, Task(j, m.w)));
    MovedViews(s, t, Task(j, m.w), m.cell, s.table);
    MovedSafe(s, t, Task(j, m.w), m.cell, s.table, TaskStation(m.w));
    DoOwnIsMoved(s, t, choice);
  }

  /** The gate is held by a thread of the job exactly if its counter says so. */
  lemma TaskHasItsGate(s: State, t: ThreadId)
    requires Inv(s) && AtJob(s, t)
    ensures var pc := s.threads[t].pc;
      (HoldsGate(pc) <==> s.cells[pc.j].gate == Some(t)) && (s.cells[pc.j].gate.None? ==> OwedIn(s, pc.j).Nothing?)
  {
    hide JobOk, CountsOk, Distinct, ThreadOk, HoldsGate;
    assert CellOk(s, s.threads[t].pc.j);
    OwnFits(s, t);
  }

  predicate ToggleGateKept(t: ThreadId, j: JobId, k: ToggleKind, g: TogglePc, c: Cell, now: Time, choice: Choice) {
    var m := ToggleStep(t, k, g, c, now, choice);
    && GateKept(t, Toggling(j, k, g), ToggledPc(j, k, m), c, m.cell)
    && (if g.Lookup? then m.g.None? || m.g.value.GateWait?
        else HoldsGate(Toggling(j, k, g)) || (m.g.Some? && HoldsGate(Toggling(j, k, m.g.value))))
  }

  function ToggledPc(j: JobId, k: ToggleKind, m: ToggleMove): Pc {
    if m.g.Some? then Toggling(j, k, m.g.value) else Client
  }

  lemma CheckGate(t: ThreadId, j: JobId, k: ToggleKind, g: TogglePc, c: Cell, lock: Option<ThreadId>, now: Time, choice: Choice)
    requires g.Check?
    requires HoldsGate(Toggling(j, k, g)) <==> c.gate == Some(t)
    ensures ToggleGateKept(t, j, k, g, c, now, choice)
  {
    hide Toggled;
    assert Toggled(c, k, now).gate == c.gate && Toggled(c, k, now).registered == c.registered by { ToggledGate(c, k, now); }
  }

  lemma ToggledGate(c: Cell, k: ToggleKind, now: Time)
    ensures Toggled(c, k, now).gate == c.gate && Toggled(c, k, now).registered == c.registered
  {
  }

  lemma OtherToggleGate(t: ThreadId, j: JobId, k: ToggleKind, g: TogglePc, c: Cell, lock: Option<ThreadId>, now: Time, choice: Choice)
    requires !g.Check? && ToggleEnabled(t, g, c, lock)
    requires HoldsGate(Toggling(j, k, g)) <==> c.gate == Some(t)
    ensures ToggleGateKept(t, j, k, g, c, now, choice)
  {
    hide Toggled, ToggleEvent;
  }

  /** A toggling step and the gate. */
  lemma ToggleGate(t: ThreadId, j: JobId, k: ToggleKind, g: TogglePc, c: Cell, lock: Option<ThreadId>, now: Time, choice: Choice)
    requires ToggleEnabled(t, g, c, lock)
    requires HoldsGate(Toggling(j, k, g)) <==> c.gate == Some(t)
    ensures ToggleGateKept(t, j, k, g, c, now, choice)
  {
    hide ToggleGateKept;
    if g.Check? { CheckGate(t, j, k, g, c, lock, now, choice); } else { OtherToggleGate(t, j, k, g, c, lock, now, choice); }
  }

  /** The emission owed after a toggling step, from both points of view. */
  lemma ToggleOwesSame(t: ThreadId, j: JobId, k: ToggleKind, g: TogglePc, c: Cell, now: Time, choice: Choice, owed: Owed)
    requires ToggleGateKept(t, j, k, g, c, now, choice)
    ensures var m := ToggleStep(t, k, g, c, now, choice);
      OwedAfter(owed, Toggling(j, k, g), ToggledPc(j, k, m)) == ToggleOwesAfter(owed, k, g, m.g)
  {
    hide ToggleStep, GateKept;
  }

  lemma OwnToggle(s: State, t: ThreadId, choice: Choice)
    requires Inv(s) && CanOwn(s, t, choice) && s.threads[t].pc.Toggling?
    ensures Safe(s, DoOwn(s, t, choice))
  {
    hide JobOk, ProgressCount, PhaseOf, Touches, ToggleStep, ToggleEnabled, Inv, Safe, DoOwn, Moved, StationIn, OwedIn, LinksOk, ThreadOk, Keeps, MoveOk, GateKept, HoldsGate, OwedAfter, ToggleOwesAfter;
    var pc := s.threads[t].pc;
    var j, m := pc.j, ToggleStep(t, pc.k, pc.g, s.cells[pc.j], s.now, choice);
    var pc' := ToggledPc(j, pc.k, m);
    OwnFits(s, t);
    TaskHasItsGate(s, t);
    assert pc.g.Lookup? || pc.g.GateWait? || OwedIn(s, j) == ToggleOwes(pc.k, pc.g) by { ToggleHolds(pc); }
    ToggleSteps(t, pc.k, pc.g, s.cells[j], s.jobsLock, s.now, choice, StationIn(s, j), OwedIn(s, j), RowIn(s, j));
    ToggleGate(t, j, pc.k, pc.g, s.cells[j], s.jobsLock, s.now, choice);
    ToggleOwesSame(t, j, pc.k, pc.g, s.cells[j], s.now, choice, OwedIn(s, j));
    MoveFits(s, t, pc', m.cell, OwedIn(s, j), RowIn(s, j), StationIn(s, j), OwedAfter(OwedIn(s, j), pc, pc'));
    MovedViews(s, t, pc', m.cell, s.table);
    MovedSafe(s, t, pc', m.cell, s.table, StationIn(s, j));
    DoOwnIsMoved(s, t, choice);
  }

  lemma ToggleHolds(pc: Pc)
    requires pc.Toggling?
    ensures pc.g.Lookup? || pc.g.GateWait? || HoldsGate(pc)
  {
  }

  // ----- the remaining actions of starters and tasks -----

  /** A thread without gate or lock moves on and at most the row of its job changes. */
  lemma SameCellMove(s: State, t: ThreadId, pc': Pc, table: Table)
    requires Inv(s) && AtJob(s, t) && SameRole(s.threads[t].pc, pc') && !s.threads[t].pc.Toggling?
    requires !HoldsGate(s.threads[t].pc) && !HoldsGate(pc') && !NeedsJobs(s.threads[t])
    requires OnlyRow(s.table, table, s.threads[t].pc.j)
    requires var j := s.threads[t].pc.j; var row := if j in table then Some(table[j]) else None;
      JobOk(s.cells[j], StationOf(s.cells[j].stage, pc'), OwedIn(s, j), row)
    ensures Safe(s, MovePc(s, t, pc').(table := table))
  {
    hide CountsOk, Distinct, ProgressCount, PhaseOf, ThreadOk, LinksOk, Touches, JobOk, StationOf, StationIn, OwedIn, NeedsJobs, Inv;
    var j := s.threads[t].pc.j;
    var c := s.cells[j];
    OwnFits(s, t);
    TaskHasNoGate(s, t);
    MovedViews(s, t, pc', c, table);
    MovedSafe(s, t, pc', c, table, StationOf(c.stage, pc'));
    assert s.cells[j := c] == s.cells;
    assert Moved(s, t, pc', c, table) == MovePc(s, t, pc').(table := table);
  }

  lemma RecordStartSafe(s: State, t: ThreadId)
    requires Inv(s) && AtStarter(s, t, Inserted)
    ensures Safe(s, DoRecordStart(s, t))
  {
    hide CountsOk, Distinct, ProgressCount, PhaseOf, ThreadOk, LinksOk, RowSettled, Verdict, Safe, Inv, StationIn, OwedIn;
    var j := s.threads[t].pc.j;
    OwnFits(s, t);
    SameCellMove(s, t, Starter(j, Recorded), WithStarted(s.table, j, s.cells[j].startedAt));
  }

  lemma PersistFinalSafe(s: State, t: ThreadId)
    requires Inv(s) && AtTask(s, t) && s.threads[t].pc.w.Persist?
    ensures Safe(s, DoPersistFinal(s, t))
  {
    hide CountsOk, Distinct, ProgressCount, PhaseOf, ThreadOk, LinksOk, Verdict, Safe, Inv, StationIn, OwedIn;
    var pc := s.threads[t].pc;
    OwnFits(s, t);
    SameCellMove(s, t, Task(pc.j, FinalWait(pc.w.st, pc.w.code)), WithTerminal(s.table, pc.j, pc.w.st, pc.w.code, s.now));
  }

  /** A thread that holds no gate is nobody's gate holder. */
  lemma TaskHasNoGate(s: State, t: ThreadId)
    requires Inv(s) && AtJob(s, t) && !HoldsGate(s.threads[t].pc)
    ensures s.cells[s.threads[t].pc.j].gate != Some(t)
  {
    hide JobOk, CountsOk, Distinct, ThreadOk;
    assert CellOk(s, s.threads[t].pc.j);
  }

  /** Rows may vanish once they are no longer active. */
  ghost predicate Trimmed(table: Table, table': Table) {
    && (forall k :: k in table' ==> k in table && table'[k] == table[k])
    && (forall k :: k in table && ActiveRow(table[k].status) ==> k in table')
  }

  lemma RowGone(c: Cell, at: Station, owed: Owed, row: Row)
    requires JobOk(c, at, owed, Some(row)) && !ActiveRow(row.status)
    ensures JobOk(c, at, owed, None)
  {
    hide PhaseOf, Verdict, FlagsOk;
  }

  /** Time, the timeout setting and the trimming of history concern no running job. */
  lemma EnvironmentSafe(s: State, s': State)
    requires Inv(s) && Trimmed(s.table, s'.table)
    requires s' == s.(now := s'.now, idleTimeout := s'.idleTimeout, table := s'.table)
    ensures Safe(s, s')
  {
    hide CountsOk, Distinct, JobOk, ProgressCount, NeedsJobs;
    forall j | j in s'.cells ensures CellOk(s', j) {
      assert CellOk(s, j);
      assert StationIn(s', j) == StationIn(s, j) && OwedIn(s', j) == OwedIn(s, j);
      if j in s.table && j !in s'.table {
        RowGone(s.cells[j], StationIn(s, j), OwedIn(s, j), s.table[j]);
      }
    }
    forall t | t in s'.threads ensures ThreadOk(s', t) {
      assert ThreadOk(s, t);
    }
    assert CountsOk(s') by { SameTokens(s, s'); }
  }

  lemma SameTokens(s: State, s': State)
    requires CountsOk(s) && s'.cells == s.cells && s'.admitted == s.admitted
    ensures CountsOk(s')
  {
    assert Tokens(s') == Tokens(s) && Registered(s') == Registered(s);
  }

  lemma CleanupHistorySafe(s: State, t: ThreadId, kept: Table)
    requires Inv(s) && AtTask(s, t) && s.threads[t].pc.w.Cleanup? && Trimmed(s.table, kept)
    ensures Safe(s, MovePc(s, t, Task(s.threads[t].pc.j, Dropping)).(table := kept))
  {
    hide CountsOk, Distinct, JobOk, ProgressCount, PhaseOf, ThreadOk, LinksOk, StationIn, OwedIn, JobEvolves, Inv, Trimmed;
    var s1 := s.(table := kept);
    EnvironmentSafe(s, s1);
    var j := s1.threads[t].pc.j;
    OwnFits(s1, t);
    SameCellMove(s1, t, Task(j, Dropping), kept);
    var s' := MovePc(s, t, Task(j, Dropping)).(table := kept);
    SafeAcross(s, s1, s');
  }

  /** A step from a state with the same jobs is as good as a step from the state itself. */
  lemma SafeAcross(s: State, s1: State, s': State)
    requires s1.cells == s.cells && s1.threads == s.threads && Safe(s1, s')
    ensures Safe(s, s')
  {
    hide Inv, ProgressCount, Evolves;
    forall k ensures JobEvolves(s, s', k) {
      assert JobEvolves(s1, s', k);
    }
  }

  // ----- tokens change hands -----

  lemma AdmitSafe(s: State, t: ThreadId, j: JobId)
    requires Inv(s) && At(s, t) && s.threads[t].pc.Client? && j !in s.cells && j !in s.table
    ensures Safe(s, DoAdmit(s, t, j))
  {
    hide CountsOk, Distinct, ProgressCount, PhaseOf, Inv;
    var s' := DoAdmit(s, t, j);
    if s.admitted < ACTIVE_OPERATION_LIMIT {
      assert s.jobsLock != Some(t) && j !in s.queue && Distinct(s'.queue) && CountsOk(s) by { ClientFacts(s, t, j); }
      assert CountsOk(s') by { AdmitCounts(s, s', t, j); }
      assert forall k :: k in s'.queue ==> k in s'.cells by { QueueInCells(s); }
      FrameSafe(s, s', t, j);
    }
  }

  lemma ClientFacts(s: State, t: ThreadId, j: JobId)
    requires Inv(s) && At(s, t) && s.threads[t].pc.Client? && j !in s.cells
    ensures s.jobsLock != Some(t) && j !in s.queue && Distinct(s.queue) && CountsOk(s)
  {
    hide CountsOk, Distinct, ThreadOk, CellOk;
  }

  lemma QueueInCells(s: State)
    requires Inv(s)
    ensures forall k :: k in s.queue ==> k in s.cells
  {
    hide CountsOk, Distinct, ThreadOk, CellOk;
  }

  lemma AdmitCounts(s: State, s': State, t: ThreadId, j: JobId)
    requires CountsOk(s) && j !in s.cells && s'.cells == s.cells[j := NewCell(t, s.now)]
    requires s.admitted < ACTIVE_OPERATION_LIMIT && s'.admitted == s.admitted + 1
    ensures CountsOk(s')
  {
    assert Tokens(s') == Tokens(s) + {j};
    assert Registered(s') == Registered(s);
  }

  lemma SendSafe(s: State, t: ThreadId)
    requires Inv(s) && AtStarter(s, t, Sending)
    ensures Safe(s, DoSend(s, t))
  {
    hide CountsOk, Distinct, ProgressCount, PhaseOf, JobOk, Inv, NeedsJobs;
    var s', j := DoSend(s, t), s.threads[t].pc.j;
    OwnFits(s, t);
    TaskHasNoGate(s, t);
    assert j !in s.queue && CountsOk(s) && Distinct(s.queue) && s.jobsLock != Some(t) && ThreadOk(s, t) by { hide *; SendFacts(s, t); }
    assert Distinct(s'.queue) by { DistinctAppend(s.queue, j); }
    assert CountsOk(s') by { SameCounts(s, s', j); }
    assert forall k :: k in s'.queue ==> k in s'.cells by { QueueInCells(s); }
    assert JobOk(s'.cells[j], Active, OwedIn(s, j), RowIn(s, j)) by { SameJobNewStage(s.cells[j], Active, OwedIn(s, j), RowIn(s, j), Waiting); }
    assert OwedIn(s', j) == OwedIn(s, j);
    FrameSafe(s, s', t, j);
  }

  lemma SendFacts(s: State, t: ThreadId)
    requires Inv(s) && AtStarter(s, t, Sending)
    ensures s.threads[t].pc.j !in s.queue && CountsOk(s) && Distinct(s.queue) && s.jobsLock != Some(t) && ThreadOk(s, t)
  {
    hide CountsOk, Distinct, JobOk;
    assert CellOk(s, s.threads[t].pc.j) && ThreadOk(s, t);
  }

  /** Who carries the token is not part of what a job is judged by. */
  lemma SameJobNewStage(c: Cell, at: Station, owed: Owed, row: Option<Row>, stage: Stage)
    requires JobOk(c, at, owed, row)
    ensures JobOk(c.(stage := stage), at, owed, row)
  {
    hide PhaseOf;
  }

  lemma DistinctAppend<T>(q: seq<T>, x: T)
    requires Distinct(q) && x !in q
    ensures Distinct(q + [x])
  {
  }

  lemma PickupSafe(s: State, t: ThreadId)
    requires Inv(s) && At(s, t) && s.threads[t].pc.Worker? && s.queue != [] && s.queue[0] in s.cells
    ensures Safe(s, DoPickup(s, t))
  {
    hide CountsOk, Distinct, ProgressCount, PhaseOf, JobOk, Inv, NeedsJobs;
    var s', j := DoPickup(s, t), s.queue[0];
    assert CountsOk(s) && Distinct(s.queue) && s.jobsLock != Some(t) && ThreadOk(s, t) && CellOk(s, j)
      && s.cells[j].gate != Some(t) by { hide *; PickupFacts(s, t); }
    DistinctTail(s.queue);
    assert CountsOk(s') by { SameCounts(s, s', j); }
    assert forall k :: k in s'.queue ==> k in s'.cells by { QueueInCells(s); }
    assert JobOk(s'.cells[j], Active, OwedIn(s, j), RowIn(s, j)) by { SameJobNewStage(s.cells[j], Active, OwedIn(s, j), RowIn(s, j), OnWorker(t)); }
    assert OwedIn(s', j) == OwedIn(s, j);
    FrameSafe(s, s', t, j);
  }

  lemma PickupFacts(s: State, t: ThreadId)
    requires Inv(s) && At(s, t) && s.threads[t].pc.Worker? && s.queue != [] && s.queue[0] in s.cells
    ensures CountsOk(s) && Distinct(s.queue) && s.jobsLock != Some(t) && ThreadOk(s, t) && CellOk(s, s.queue[0])
    ensures s.cells[s.queue[0]].gate != Some(t)
  {
    hide CountsOk, Distinct, JobOk;
    assert CellOk(s, s.queue[0]) && ThreadOk(s, t);
  }

  lemma DistinctTail<T>(q: seq<T>)
    requires Distinct(q) && q != []
    ensures Distinct(q[1..]) && q[0] !in q[1..]
    ensures forall x :: x != q[0] ==> (x in q <==> x in q[1..])
  {
    assert q == [q[0]] + q[1..];
  }

  lemma DropTokenSafe(s: State, t: ThreadId)
    requires Inv(s) && AtTask(s, t) && s.threads[t].pc.w.Dropping?
    ensures Safe(s, DoDropToken(s, t))
  {
    hide CountsOk, Distinct, ProgressCount, PhaseOf, JobOk, Inv, NeedsJobs;
    var s', j := DoDropToken(s, t), s.threads[t].pc.j;
    OwnFits(s, t);
    TaskHasNoGate(s, t);
    assert CountsOk(s) && Distinct(s.queue) && s.jobsLock != Some(t) && ThreadOk(s, t) by { hide *; DropFacts(s, t); }
    assert CountsOk(s') by { DropCounts(s, s', j); }
    assert forall k :: k in s'.queue ==> k in s'.cells by { QueueInCells(s); }
    assert JobOk(s'.cells[j], Over, OwedIn(s, j), RowIn(s, j)) by { SameJobNewStage(s.cells[j], Over, OwedIn(s, j), RowIn(s, j), Finished); }
    assert OwedIn(s', j) == OwedIn(s, j);
    FrameSafe(s, s', t, j);
  }

  lemma DropFacts(s: State, t: ThreadId)
    requires Inv(s) && AtTask(s, t) && s.threads[t].pc.w.Dropping?
    ensures CountsOk(s) && Distinct(s.queue) && s.jobsLock != Some(t) && ThreadOk(s, t)
  {
    hide CountsOk, Distinct, JobOk;
    assert ThreadOk(s, t);
  }

  lemma DropCounts(s: State, s': State, j: JobId)
    requires CountsOk(s) && j in s.cells && !s.cells[j].stage.Finished?
    requires s'.cells == s.cells[j := s.cells[j].(stage := Finished)] && s'.admitted == s.admitted - 1
    ensures CountsOk(s')
  {
    assert Tokens(s') == Tokens(s) - {j};
    assert Registered(s') == Registered(s);
  }

  // ----- inserting into the registry -----

  lemma TerminalUnregistered(c: Cell, at: Station, owed: Owed, row: Option<Row>)
    requires JobOk(c, at, owed, row) && Terminal(c.status)
    ensures JobOk(c.(registered := false), at, owed, row)
  {
    hide PhaseOf;
  }

  /** Leaving the registry changes neither tokens nor gates. */
  lemma PruneViews(s: State, pruned: set<JobId>, j: JobId)
    requires j in s.cells
    ensures var s' := s.(cells := Unregister(s.cells, pruned));
      && StationIn(s', j) == StationIn(s, j) && OwedIn(s', j) == OwedIn(s, j)
      && (LinksOk(s, j) ==> LinksOk(s', j))
      && s'.cells[j] == if j in pruned then s.cells[j].(registered := false) else s.cells[j]
  {
    hide StationOf, OwedBy, HoldsGate;
  }

  lemma PruneCell(s: State, pruned: set<JobId>, j: JobId)
    requires Inv(s) && Prunable(s, pruned) && j in s.cells
    ensures var s' := s.(cells := Unregister(s.cells, pruned));
      CellOk(s', j) && Evolves(s.cells[j], s'.cells[j]) && OwedIn(s', j) == OwedIn(s, j)
  {
    hide CountsOk, Distinct, JobOk, NeedsJobs, Terminal, ThreadOk, LinksOk, StationIn, OwedIn;
    assert CellOk(s, j);
    PruneViews(s, pruned, j);
    if j in pruned {
      TerminalUnregistered(s.cells[j], StationIn(s, j), OwedIn(s, j), RowIn(s, j));
    }
  }

  lemma PruneSafe(s: State, pruned: set<JobId>)
    requires Inv(s) && Prunable(s, pruned)
    ensures Safe(s, s.(cells := Unregister(s.cells, pruned)))
  {
    hide CountsOk, Distinct, CellOk, NeedsJobs, Prunable, Evolves;
    var s' := s.(cells := Unregister(s.cells, pruned));
    forall j | j in s'.cells ensures CellOk(s', j) {
      PruneCell(s, pruned, j);
    }
    forall j ensures JobEvolves(s, s', j) {
      if j in s.cells { PruneCell(s, pruned, j); }
    }
    forall t | t in s'.threads ensures ThreadOk(s', t) {
      assert ThreadOk(s, t);
    }
    assert CountsOk(s') by { PruneCounts(s, s', pruned); }
  }

  lemma PruneCounts(s: State, s': State, pruned: set<JobId>)
    requires CountsOk(s) && s'.cells == Unregister(s.cells, pruned) && s'.admitted == s.admitted
    ensures CountsOk(s')
  {
    assert Tokens(s') == Tokens(s);
    SubsetSize(Registered(s'), Registered(s));
  }

  /** A registered job without a terminal status still has its token. */
  lemma RunningHasToken(s: State, j: JobId)
    requires Inv(s) && j in s.cells && !Terminal(s.cells[j].status)
    ensures !s.cells[j].stage.Finished?
  {
    hide CountsOk, Distinct, PhaseOf, Verdict, ThreadOk;
    assert CellOk(s, j);
  }

  /** Entries that are not terminal, the new one included, hold a token each. */
  lemma LiveEntries(s: State, live: set<JobId>)
    requires Inv(s) && forall k :: k in live ==> k in s.cells && !Terminal(s.cells[k].status)
    ensures live <= Tokens(s) && |live| <= ACTIVE_OPERATION_LIMIT
  {
    hide Distinct, ThreadOk, CellOk;
    forall k | k in live ensures k in Tokens(s) {
      RunningHasToken(s, k);
    }
    SubsetSize(live, Tokens(s));
  }

  /** The entries that hold a token: those of jobs without a terminal status. */
  function LiveSet(s: State, j: JobId): set<JobId> {
    set k | k in s.cells && !Terminal(s.cells[k].status) && (s.cells[k].registered || k == j)
  }

  lemma InsertRegistered(s: State, s': State, j: JobId, pruned: set<JobId>)
    requires j in s.cells && !Terminal(s.cells[j].status) && pruned <= RegisteredTerminal(s)
    requires s'.cells == Unregister(s.cells, pruned)[j := s.cells[j].(registered := true)]
    ensures Registered(s') == (RegisteredTerminal(s) - pruned) + LiveSet(s, j)
    ensures Tokens(s') == Tokens(s)
  {
    hide Terminal;
    forall k ensures k in Registered(s') <==> k in (RegisteredTerminal(s) - pruned) + LiveSet(s, j) {
      if k in s.cells && k != j { assert s'.cells[k].status == s.cells[k].status; }
    }
  }

  /** At most 128 terminal entries survive the pruning; the rest hold one of 64 tokens. */
  lemma InsertCounts(s: State, s': State, j: JobId, pruned: set<JobId>)
    requires Inv(s) && CountsOk(s) && Prunable(s, pruned) && j in s.cells && !Terminal(s.cells[j].status)
    requires s'.admitted == s.admitted
    requires s'.cells == Unregister(s.cells, pruned)[j := s.cells[j].(registered := true)]
    ensures CountsOk(s')
  {
    hide Inv, Registered, TerminalEntries, Tokens, Terminal;
    InsertRegistered(s, s', j, pruned);
    LiveEntries(s, LiveSet(s, j));
  }

  lemma InvCounts(s: State)
    requires Inv(s)
    ensures CountsOk(s)
  {
    hide CountsOk;
  }

  lemma InsertSafe(s: State, t: ThreadId, pruned: set<JobId>)
    requires Inv(s) && AtStarter(s, t, Admitted) && s.jobsLock == Some(t) && Prunable(s, pruned)
    ensures Safe(s, DoInsert(s, t, pruned))
  {
    hide CountsOk, Distinct, ProgressCount, PhaseOf, Inv, Prunable, JobOk;
    var j := s.threads[t].pc.j;
    var s1, s' := s.(cells := Unregister(s.cells, pruned)), DoInsert(s, t, pruned);
    OwnFits(s, t);
    StarterHasNoGate(s, t);
    assert s.cells[j].status == Running && !s.cells[j].registered && Blank(s.cells[j]) && s.cells[j].gate.None?
      && RowIn(s, j).None? && FlagsOk(s.cells[j]) by { hide *; ReservedFacts(s.cells[j], OwedIn(s, j), RowIn(s, j)); }
    PruneSafe(s, pruned);
    assert CountsOk(s') by { InvCounts(s); InsertCounts(s, s', j, pruned); }
    assert j !in pruned by { PrunedTerminal(s, pruned, j); }
    assert s1.cells[j] == s.cells[j];
    assert ThreadOk(s1, t) && LinksOk(s1, j) && Distinct(s1.queue) by { hide *; InsertFacts(s1, t); }
    assert JobOk(s'.cells[j], Listed, Nothing, None) by { hide *; ListedAfter(s.cells[j]); }
    assert OwedIn(s', j) == Nothing && StationIn(s', j) == Listed;
    assert forall k :: k in s'.queue ==> k in s'.cells by { QueueInCells(s); }
    FrameSafe(s1, s', t, j);
    SafeAfterPrune(s, s1, s', pruned);
  }

  lemma PrunedTerminal(s: State, pruned: set<JobId>, j: JobId)
    requires Prunable(s, pruned) && j in s.cells && !Terminal(s.cells[j].status)
    ensures j !in pruned
  {
  }

  lemma ReservedFacts(c: Cell, owed: Owed, row: Option<Row>)
    requires JobOk(c, Reserved, owed, row)
    ensures c.status == Running && !c.registered && Blank(c) && c.gate.None? && row.None? && FlagsOk(c)
  {
  }

  lemma ListedAfter(c: Cell)
    requires Blank(c) && FlagsOk(c)
    ensures JobOk(c.(registered := true), Listed, Nothing, None)
  {
  }

  lemma InsertFacts(s: State, t: ThreadId)
    requires Inv(s) && AtStarter(s, t, Admitted)
    ensures ThreadOk(s, t) && LinksOk(s, s.threads[t].pc.j) && Distinct(s.queue)
  {
    hide JobOk, CountsOk, Distinct;
    assert CellOk(s, s.threads[t].pc.j);
  }

  lemma SafeAfterPrune(s: State, s1: State, s': State, pruned: set<JobId>)
    requires s1 == s.(cells := Unregister(s.cells, pruned)) && Safe(s1, s')
    ensures Safe(s, s')
  {
    hide Inv, ProgressCount;
    forall k ensures JobEvolves(s, s', k) {
      assert JobEvolves(s1, s', k);
    }
  }
}
