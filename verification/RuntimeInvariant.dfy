/** The inductive invariant of the job runtime, one job at a time. A job is judged by its own
    cell, the station its token has reached, the emission that its gate holder still owes, and
    its row in the history. */
module RuntimeInvariant {
  import opened Basics
  import opened JobEvents
  import opened HistoryTable
  import opened RuntimeModel

  /** How far the token of a job has come. */
  datatype Station =
    | Reserved | Listed | Rowed
    | Active | Emitting
    | Judged(r: Outcome) | Suspected | Decided(st: Status, code: Option<string>)
    | Written(st: Status, code: Option<string>) | Closing(st: Status, code: Option<string>)
    | Over
    | Astray

  function StationOf(stage: Stage, owner: Pc): Station {
    match stage
    case Starting(_) => if owner.Starter? then StarterStation(owner.s) else Astray
    case Waiting => Active
    case OnWorker(_) => if owner.Task? then TaskStation(owner.w) else Astray
    case Finished => Over
  }

  function StarterStation(s: StarterPc): Station {
    match s
    case Admitted => Reserved
    case Inserted => Listed
    case Recorded => Rowed
    case Announcing => Active
    case Sending => Active
  }

  function TaskStation(w: TaskPc): Station {
    match w
    case ProgressAccepted(_) => Emitting
    case Returned(r) => Judged(r)
    case CheckUser => Suspected
    case Finish(st, code) => Decided(st, code)
    case Persist(st, code) => Written(st, code)
    case FinalWait(st, code) => Closing(st, code)
    case FinalGate(st, code) => Closing(st, code)
    case FinalInSink => Over
    case Cleanup => Over
    case Dropping => Over
    case _ => Active
  }

  /** What the holder of the gate has decided under the jobs lock and not yet emitted. */
  datatype Owed = Nothing | OwesProgress | OwesToggle(k: ToggleKind, sink: bool)

  function TaskOwes(w: TaskPc): Owed {
    if w.ProgressAccepted? then OwesProgress else Nothing
  }

  function ToggleOwes(k: ToggleKind, g: TogglePc): Owed {
    if g.Emit? then OwesToggle(k, g.sink) else Nothing
  }

  function OwedBy(pc: Pc): Owed {
    match pc
    case Task(_, w) => TaskOwes(w)
    case Toggling(_, k, g) => ToggleOwes(k, g)
    case _ => Nothing
  }

  // ----- the invariant of one job -----

  predicate FlagsOk(c: Cell) {
    && (c.timedOut <==> c.first == Some(Watchdog))
    && (c.userCancelled <==> c.first == Some(User))
    && (c.first.Some? ==> c.timedOut || c.userCancelled)
    && (c.cancelled ==> c.first.Some?)
  }

  predicate Blank(c: Cell) {
    && c.status.Running? && c.log == [] && c.gate.None? && !c.paused && c.first.None? && !c.cancelled
    && c.code.None? && c.outcome.None? && c.lastActivity.None?
  }

  /** The log agrees with the snapshot, up to the one emission that is still owed. */
  predicate Synced(status: Status, phase: Phase, owed: Owed) {
    match owed
    case Nothing => (status.Running? && phase.Flowing?) || (status.Paused? && phase.Held?)
    case OwesProgress => status.Running? && phase.Flowing?
    case OwesToggle(k, sink) =>
      sink && if k.Pause? then status.Paused? && phase.Flowing? else status.Running? && phase.Held?
  }

  predicate Live(c: Cell, owed: Owed) {
    && c.registered && c.log != [] && (c.status.Running? || c.status.Paused?)
    && (c.paused <==> c.status.Paused?)
    && c.code.None? && Synced(c.status, PhaseOf(c.log), owed)
  }

  /** The terminal status is written, its announcement is still to come. */
  predicate Unannounced(c: Cell, owed: Owed) {
    var phase := PhaseOf(c.log);
    && Terminal(c.status) && (phase.Flowing? || phase.Held?)
    && !owed.OwesProgress?
    && (owed.OwesToggle? ==> owed.sink && if owed.k.Pause? then phase.Flowing? else phase.Held?)
  }

  predicate Announced(c: Cell, owed: Owed) {
    && Terminal(c.status) && PhaseOf(c.log).Ended?
    && c.log != [] && c.log[|c.log| - 1] == Announcement(c.status, c.code)
    && owed.Nothing?
  }

  /** The status and error code that follow from what the executor returned. */
  predicate Verdict(c: Cell, st: Status, code: Option<string>) {
    && Terminal(st)
    && match c.outcome
       case None => false
       case Some(Ok) => st.Completed? && code.None?
       case Some(ErrOther(e)) => st.Failed? && code == Some(e)
       case Some(ErrCancelled) =>
         match c.first
         case None => false
         case Some(User) => st.Cancelled? && code.None?
         case Some(Watchdog) => st.Failed? && code == Some("timeout")
  }

  predicate RowOpen(row: Option<Row>) {
    row.Some? && row.value.status.RowRunning? && row.value.code.None?
  }

  /** The row is gone, or says what the snapshot says. */
  predicate RowSettled(c: Cell, row: Option<Row>) {
    row.Some? ==> row.value.status == StatusColumn(c.status) && row.value.code == c.code
  }

  predicate JobOk(c: Cell, at: Station, owed: Owed, row: Option<Row>) {
    && FlagsOk(c)
    && (c.log == [] ==> owed.Nothing?)
    && (owed.OwesProgress? <==> at.Emitting?)
    && match at
       case Reserved => !c.registered && Blank(c) && row.None?
       case Listed => c.registered && Blank(c) && row.None?
       case Rowed => c.registered && Blank(c) && RowOpen(row)
       case Active => Live(c, owed) && RowOpen(row) && c.outcome.None?
       case Emitting => Live(c, owed) && RowOpen(row) && c.outcome.None?
       case Judged(r) => Live(c, owed) && RowOpen(row) && c.outcome == Some(r) && (r.ErrCancelled? ==> c.cancelled)
       case Suspected => Live(c, owed) && RowOpen(row) && c.outcome == Some(ErrCancelled) && c.timedOut
       case Decided(st, code) => Live(c, owed) && RowOpen(row) && Verdict(c, st, code)
       case Written(st, code) =>
         Unannounced(c, owed) && RowOpen(row) && Verdict(c, st, code) && c.status == st && c.code == code
       case Closing(st, code) =>
         Unannounced(c, owed) && RowSettled(c, row) && Verdict(c, st, code) && c.status == st && c.code == code
       case Over => Announced(c, owed) && RowSettled(c, row) && Verdict(c, c.status, c.code)
       case Astray => false
  }

  /** What can happen to a job while threads act: the log grows, a terminal status stays, flags
      stay, and after the first canceller no report changes the snapshot any more. */
  predicate Evolves(c: Cell, c': Cell) {
    && c.log <= c'.log
    && (Terminal(c.status) ==> c'.status == c.status && c'.code == c.code)
    && (c.cancelled ==> c'.cancelled)
    && (c.first.Some? ==> c'.first == c.first && c'.item == c.item && c'.items == c.items && c'.bytes == c.bytes)
    && (c.outcome.Some? ==> c'.outcome == c.outcome)
    && (c.stage.Finished? ==> c'.stage.Finished?)
  }

  /** Progress events already emitted, and the one past its check. */
  function ProgressDue(c: Cell, owed: Owed): nat {
    ProgressCount(c.log) + if owed.OwesProgress? then 1 else 0
  }

  // ----- a step of a thread on its own job -----

  predicate Keeps(c: Cell, owed: Owed, row: Option<Row>, c': Cell, at': Station, owed': Owed) {
    && JobOk(c', at', owed', row)
    && Evolves(c, c')
    && c'.stage == c.stage
    && (c.first.Some? ==> ProgressDue(c', owed') <= ProgressDue(c, owed))
  }

  /** The part of a cell that pausing, resuming and reporting leave alone. */
  predicate SameFate(c: Cell, c': Cell) {
    && c'.stage == c.stage && c'.first == c.first && c'.outcome == c.outcome
    && c'.cancelled == c.cancelled && c'.timedOut == c.timedOut && c'.userCancelled == c.userCancelled
    && (Terminal(c.status) ==> c'.status == c.status && c'.code == c.code)
  }

  /** Whatever happens to status, log and emission alike leaves the job where it is, if the
      same relation between them holds again. */
  lemma SwapView(c: Cell, c': Cell, at: Station, owed: Owed, owed': Owed, row: Option<Row>)
    requires JobOk(c, at, owed, row) && c.log != [] && c'.log != [] && SameFate(c, c')
    requires owed.OwesProgress? <==> owed'.OwesProgress?
    requires Live(c, owed) ==> Live(c', owed')
    requires Unannounced(c, owed) ==> Unannounced(c', owed')
    requires Announced(c, owed) ==> Announced(c', owed')
    ensures JobOk(c', at, owed', row)
  {
    hide PhaseOf, ProgressCount, StatusColumn;
  }

  /** A job whose sink has been told something is live, unannounced or announced. */
  lemma Trichotomy(c: Cell, at: Station, owed: Owed, row: Option<Row>)
    requires JobOk(c, at, owed, row) && c.log != []
    ensures if Terminal(c.status) then Unannounced(c, owed) || Announced(c, owed) else Live(c, owed) && !at.Over?
  {
    hide PhaseOf, ProgressCount, StatusColumn, Verdict;
  }

  lemma AnnounceStart(c: Cell, owed: Owed, row: Option<Row>)
    requires JobOk(c, Rowed, owed, row)
    ensures Keeps(c, owed, row, c.(log := c.log + [EvStarted]), Active, owed)
  {
    hide ProgressCount, StatusColumn, Verdict, RowSettled;
    PhaseOfAppend(c.log, EvStarted);
    ProgressCountAppend(c.log, EvStarted);
  }

  lemma StarterSteps(s: StarterPc, c: Cell, owed: Owed, row: Option<Row>)
    requires StarterEnabled(s) && JobOk(c, StarterStation(s), owed, row)
    ensures var m := StarterStep(s, c); Keeps(c, owed, row, m.cell, StarterStation(m.s), owed)
  {
    hide JobOk, PhaseOf, ProgressCount;
    if s.Recorded? { AnnounceStart(c, owed, row); }
  }

  /** What the gate holder owes after a thread moved from `pc` to `pc'`. */
  function OwedAfter(owed: Owed, pc: Pc, pc': Pc): Owed {
    if HoldsGate(pc') then OwedBy(pc') else if HoldsGate(pc) then Nothing else owed
  }

  predicate TaskKeeps(t: ThreadId, w: TaskPc, c: Cell, now: Time, choice: Choice, owed: Owed, row: Option<Row>, j: JobId) {
    var m := TaskStep(t, w, c, now, choice);
    Keeps(c, owed, row, m.cell, TaskStation(m.w), OwedAfter(owed, Task(j, w), Task(j, m.w)))
  }

  lemma RunningSteps(t: ThreadId, w: TaskPc, c: Cell, lock: Option<ThreadId>, now: Time, choice: Choice, owed: Owed, row: Option<Row>, j: JobId)
    requires w.Picked? || w.Executing? || w.Parked?
    requires JobOk(c, TaskStation(w), owed, row) && TaskEnabled(t, w, c, lock, choice)
    requires HoldsGate(Task(j, w)) ==> owed == TaskOwes(w)
    requires c.gate.None? ==> owed.Nothing?
    ensures TaskKeeps(t, w, c, now, choice, owed, row, j)
  {
    hide PhaseOf, ProgressCount, StatusColumn, RowSettled, Verdict, Synced;
  }

  lemma ReportingSteps(t: ThreadId, w: TaskPc, c: Cell, lock: Option<ThreadId>, now: Time, choice: Choice, owed: Owed, row: Option<Row>, j: JobId)
    requires w.ProgressWait? || w.ProgressCheck? || w.ProgressInSink? || w.ProgressLeave?
    requires JobOk(c, TaskStation(w), owed, row) && TaskEnabled(t, w, c, lock, choice)
    requires HoldsGate(Task(j, w)) ==> owed == TaskOwes(w)
    requires c.gate.None? ==> owed.Nothing?
    ensures TaskKeeps(t, w, c, now, choice, owed, row, j)
  {
    hide PhaseOf, ProgressCount, StatusColumn;
  }

  lemma EmitProgressStep(t: ThreadId, w: TaskPc, c: Cell, lock: Option<ThreadId>, now: Time, choice: Choice, owed: Owed, row: Option<Row>, j: JobId)
    requires w.ProgressAccepted?
    requires JobOk(c, TaskStation(w), owed, row) && TaskEnabled(t, w, c, lock, choice)
    requires HoldsGate(Task(j, w)) ==> owed == TaskOwes(w)
    requires c.gate.None? ==> owed.Nothing?
    ensures TaskKeeps(t, w, c, now, choice, owed, row, j)
  {
    hide PhaseOf, ProgressCount, StatusColumn, RowSettled, Verdict;
    PhaseOfAppend(c.log, EvProgress(w.p));
    ProgressCountAppend(c.log, EvProgress(w.p));
  }

  lemma JudgingSteps(t: ThreadId, w: TaskPc, c: Cell, lock: Option<ThreadId>, now: Time, choice: Choice, owed: Owed, row: Option<Row>, j: JobId)
    requires w.Returned? || w.CheckUser?
    requires JobOk(c, TaskStation(w), owed, row) && TaskEnabled(t, w, c, lock, choice)
    requires HoldsGate(Task(j, w)) ==> owed == TaskOwes(w)
    requires c.gate.None? ==> owed.Nothing?
    ensures TaskKeeps(t, w, c, now, choice, owed, row, j)
  {
    hide PhaseOf, ProgressCount, StatusColumn, RowSettled, Synced;
  }

  lemma FinishStep(t: ThreadId, w: TaskPc, c: Cell, lock: Option<ThreadId>, now: Time, choice: Choice, owed: Owed, row: Option<Row>, j: JobId)
    requires w.Finish?
    requires JobOk(c, TaskStation(w), owed, row) && TaskEnabled(t, w, c, lock, choice)
    requires HoldsGate(Task(j, w)) ==> owed == TaskOwes(w)
    requires c.gate.None? ==> owed.Nothing?
    ensures TaskKeeps(t, w, c, now, choice, owed, row, j)
  {
    hide PhaseOf, ProgressCount, StatusColumn;
  }

  lemma FinalSteps(t: ThreadId, w: TaskPc, c: Cell, lock: Option<ThreadId>, now: Time, choice: Choice, owed: Owed, row: Option<Row>, j: JobId)
    requires w.FinalWait? || w.FinalInSink?
    requires JobOk(c, TaskStation(w), owed, row) && TaskEnabled(t, w, c, lock, choice)
    requires HoldsGate(Task(j, w)) ==> owed == TaskOwes(w)
    requires c.gate.None? ==> owed.Nothing?
    ensures TaskKeeps(t, w, c, now, choice, owed, row, j)
  {
    hide PhaseOf, ProgressCount, StatusColumn;
  }

  lemma FinalEmitStep(t: ThreadId, w: TaskPc, c: Cell, lock: Option<ThreadId>, now: Time, choice: Choice, owed: Owed, row: Option<Row>, j: JobId)
    requires w.FinalGate?
    requires JobOk(c, TaskStation(w), owed, row) && TaskEnabled(t, w, c, lock, choice)
    requires HoldsGate(Task(j, w)) ==> owed == TaskOwes(w)
    requires c.gate.None? ==> owed.Nothing?
    ensures TaskKeeps(t, w, c, now, choice, owed, row, j)
  {
    hide PhaseOf, ProgressCount, StatusColumn;
    PhaseOfAppend(c.log, Announcement(w.st, w.code));
    ProgressCountAppend(c.log, Announcement(w.st, w.code));
  }

  lemma TaskSteps(t: ThreadId, w: TaskPc, c: Cell, lock: Option<ThreadId>, now: Time, choice: Choice, owed: Owed, row: Option<Row>, j: JobId)
    requires JobOk(c, TaskStation(w), owed, row) && TaskEnabled(t, w, c, lock, choice)
    requires HoldsGate(Task(j, w)) ==> owed == TaskOwes(w)
    requires c.gate.None? ==> owed.Nothing?
    ensures TaskKeeps(t, w, c, now, choice, owed, row, j)
  {
    hide PhaseOf, ProgressCount, JobOk, TaskKeeps;
    if w.Picked? || w.Executing? || w.Parked? {
      RunningSteps(t, w, c, lock, now, choice, owed, row, j);
    } else if w.ProgressAccepted? {
      EmitProgressStep(t, w, c, lock, now, choice, owed, row, j);
    } else if w.Returned? || w.CheckUser? {
      JudgingSteps(t, w, c, lock, now, choice, owed, row, j);
    } else if w.Finish? {
      FinishStep(t, w, c, lock, now, choice, owed, row, j);
    } else if w.FinalWait? || w.FinalInSink? {
      FinalSteps(t, w, c, lock, now, choice, owed, row, j);
    } else if w.FinalGate? {
      FinalEmitStep(t, w, c, lock, now, choice, owed, row, j);
    } else {
      ReportingSteps(t, w, c, lock, now, choice, owed, row, j);
    }
  }

  /** The gate after a step inside `pause_job` or `resume_job`. */
  function ToggleOwesAfter(owed: Owed, k: ToggleKind, g: TogglePc, g': Option<TogglePc>): Owed {
    if g'.Some? && g'.value.Emit? then ToggleOwes(k, g'.value)
    else if g.Lookup? then owed
    else Nothing
  }

  predicate ToggleKeeps(t: ThreadId, k: ToggleKind, g: TogglePc, c: Cell, now: Time, choice: Choice, at: Station, owed: Owed, row: Option<Row>) {
    var m := ToggleStep(t, k, g, c, now, choice);
    Keeps(c, owed, row, m.cell, at, ToggleOwesAfter(owed, k, g, m.g))
  }

  /** What a toggling step has to do to a job that is live, unannounced or announced. */
  predicate ViewKept(c: Cell, c': Cell, owed: Owed, owed': Owed) {
    && c'.log != [] && SameFate(c, c') && Evolves(c, c')
    && (owed.OwesProgress? <==> owed'.OwesProgress?)
    && (Live(c, owed) ==> Live(c', owed'))
    && (Unannounced(c, owed) ==> Unannounced(c', owed'))
    && (Announced(c, owed) ==> Announced(c', owed'))
    && ProgressDue(c', owed') == ProgressDue(c, owed)
  }

  lemma ViewIsEnough(c: Cell, c': Cell, at: Station, owed: Owed, owed': Owed, row: Option<Row>)
    requires JobOk(c, at, owed, row) && c.log != [] && ViewKept(c, c', owed, owed')
    ensures Keeps(c, owed, row, c', at, owed')
  {
    hide JobOk, Live, Unannounced, Announced, ProgressDue, Evolves, Terminal;
    SwapView(c, c', at, owed, owed', row);
  }

  lemma QuietToggleStep(t: ThreadId, k: ToggleKind, g: TogglePc, c: Cell, now: Time, choice: Choice, owed: Owed)
    requires !g.Check? && !g.Emit? && c.log != []
    requires !g.Lookup? && !g.GateWait? ==> owed == ToggleOwes(k, g)
    requires g.GateWait? ==> owed.Nothing?
    ensures var m := ToggleStep(t, k, g, c, now, choice); ViewKept(c, m.cell, owed, ToggleOwesAfter(owed, k, g, m.g))
  {
    hide PhaseOf, ProgressCount, Toggled, Terminal;
  }

  lemma CheckToggleStep(t: ThreadId, k: ToggleKind, g: TogglePc, c: Cell, now: Time, choice: Choice, owed: Owed)
    requires g.Check? && c.log != [] && owed.Nothing?
    requires Terminal(c.status) || (Live(c, owed) && !c.stage.Finished?)
    ensures var m := ToggleStep(t, k, g, c, now, choice); ViewKept(c, m.cell, owed, ToggleOwesAfter(owed, k, g, m.g))
  {
    hide PhaseOf, ProgressCount;
  }

  lemma EmitToggleStep(t: ThreadId, k: ToggleKind, g: TogglePc, c: Cell, now: Time, choice: Choice, owed: Owed)
    requires g.Emit? && c.log != [] && owed == ToggleOwes(k, g)
    requires Live(c, owed) || Unannounced(c, owed) || Announced(c, owed)
    ensures var m := ToggleStep(t, k, g, c, now, choice); ViewKept(c, m.cell, owed, ToggleOwesAfter(owed, k, g, m.g))
  {
    hide PhaseOf, ProgressCount, Terminal;
    PhaseOfAppend(c.log, ToggleEvent(k));
    ProgressCountAppend(c.log, ToggleEvent(k));
  }

  lemma ToggleSteps(t: ThreadId, k: ToggleKind, g: TogglePc, c: Cell, lock: Option<ThreadId>, now: Time, choice: Choice, at: Station, owed: Owed, row: Option<Row>)
    requires JobOk(c, at, owed, row) && c.log != [] && ToggleEnabled(t, g, c, lock)
    requires !g.Lookup? && !g.GateWait? ==> owed == ToggleOwes(k, g)
    requires c.gate.None? ==> owed.Nothing?
    requires c.stage.Finished? ==> at.Over?
    ensures ToggleKeeps(t, k, g, c, now, choice, at, owed, row)
  {
    hide JobOk, Keeps, ViewKept, ToggleStep, ToggleEnabled, ToggleOwesAfter, Live, Unannounced, Announced, Terminal;
    var m := ToggleStep(t, k, g, c, now, choice);
    Trichotomy(c, at, owed, row);
    if g.Check? {
      CheckToggleStep(t, k, g, c, now, choice, owed);
    } else if g.Emit? {
      EmitToggleStep(t, k, g, c, now, choice, owed);
    } else {
      assert g.GateWait? ==> c.gate.None? by { GateWaitFree(t, g, c, lock); }
      QuietToggleStep(t, k, g, c, now, choice, owed);
    }
    ViewIsEnough(c, m.cell, at, owed, ToggleOwesAfter(owed, k, g, m.g), row);
  }

  lemma GateWaitFree(t: ThreadId, g: TogglePc, c: Cell, lock: Option<ThreadId>)
    requires ToggleEnabled(t, g, c, lock)
    ensures g.GateWait? ==> c.gate.None?
  {
  }
}
