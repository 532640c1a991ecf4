/** The job runtime as a state machine: one step per lock-protected region, sink call or
    lock-free read. Threads are program counters; the jobs lock and every job's event gate
    are explicit, so waiting for a lock is a state in which the thread has no step. */
module RuntimeModel {
  import opened Basics
  import opened JobEvents
  import opened HistoryTable

  const OPERATION_QUEUE_CAPACITY: nat := 64
  const ACTIVE_OPERATION_LIMIT: nat := 64
  const TERMINAL_JOB_RETENTION: nat := 128

  type ThreadId = nat

  /** What an executor returns. */
  datatype Outcome = Ok | ErrCancelled | ErrOther(code: string)

  datatype Canceller = User | Watchdog

  /** Who holds the admission token of a job: the starter, the queue, a worker, or nobody. */
  datatype Stage = Starting(t: ThreadId) | Waiting | OnWorker(t: ThreadId) | Finished

  /** Everything that belongs to one job: its registry entry (`registered`, the snapshot and
      `lastActivity`), the cells the entry shares with the task, and, for the statements only,
      who holds the token, who cancelled first, what the executor returned and the sink's log. */
  datatype Cell = Cell(
    registered: bool,
    startedAt: Time,
    status: Status,
    item: Option<string>,
    items: nat,
    bytes: nat,
    code: Option<string>,
    updatedAt: Time,
    lastActivity: Option<Time>,
    cancelled: bool,
    timedOut: bool,
    userCancelled: bool,
    paused: bool,
    gate: Option<ThreadId>,
    stage: Stage,
    first: Option<Canceller>,
    outcome: Option<Outcome>,
    log: seq<Event>)

  function NewCell(t: ThreadId, now: Time): Cell {
    Cell(false, now, Running, None, 0, 0, None, now, None, false, false, false, false, None,
         Starting(t), None, None, [])
  }

  datatype ToggleKind = Pause | Resume

  /** Inside `start_with_executor`. */
  datatype StarterPc = Admitted | Inserted | Recorded | Announcing | Sending

  /** Inside the task that a worker runs. */
  datatype TaskPc =
    | Picked | Executing | Parked
    | ProgressWait(p: Report) | ProgressCheck(p: Report) | ProgressAccepted(p: Report)
    | ProgressInSink | ProgressLeave
    | Returned(r: Outcome) | CheckUser
    | Finish(st: Status, code: Option<string>) | Persist(st: Status, code: Option<string>)
    | FinalWait(st: Status, code: Option<string>) | FinalGate(st: Status, code: Option<string>)
    | FinalInSink | Cleanup | Dropping

  /** Inside `pause_job` or `resume_job`. */
  datatype TogglePc = Lookup | GateWait | Check | Emit(sink: bool) | EmitInSink | Leave

  datatype WatchPc =
    | Resting
    | Armed(timeout: Time)
    | Scan(timeout: Time, todo: set<JobId>)
    | Flagged(timeout: Time, todo: set<JobId>, k: JobId)

  datatype Pc =
    | Client
    | Starter(j: JobId, s: StarterPc)
    | Worker
    | Task(j: JobId, w: TaskPc)
    | Toggling(j: JobId, k: ToggleKind, g: TogglePc)
    | Watching(d: WatchPc)

  /** A call of `cancel`, made by an idle client or from inside a sink. */
  datatype CancelCall = NoCall | CancelWait(k: JobId) | CancelFlagged(k: JobId)

  datatype Thread = Thread(pc: Pc, call: CancelCall)

  datatype State = State(
    now: Time,
    idleTimeout: Time,
    jobsLock: Option<ThreadId>,
    admitted: int,
    cells: map<JobId, Cell>,
    queue: seq<JobId>,
    threads: map<ThreadId, Thread>,
    table: Table)

  // ----- classification of program counters -----

  /** The thread works for a job, in whatever role. */
  predicate HasJob(pc: Pc) {
    pc.Starter? || pc.Task? || pc.Toggling?
  }

  /** The thread holds the event gate of its job. */
  predicate HoldsGate(pc: Pc) {
    match pc
    case Task(_, w) =>
      w.ProgressCheck? || w.ProgressAccepted? || w.ProgressInSink? || w.ProgressLeave? || w.FinalGate? || w.FinalInSink?
    case Toggling(_, _, g) => g.Check? || g.Emit? || g.EmitInSink? || g.Leave?
    case _ => false
  }

  /** The thread waits for the event gate of its job. */
  predicate WantsGate(pc: Pc) {
    match pc
    case Task(_, w) => w.ProgressWait? || w.FinalWait?
    case Toggling(_, _, g) => g.GateWait?
    case _ => false
  }

  /** The thread waits for the jobs lock or works under it. */
  predicate NeedsJobs(th: Thread) {
    if th.call != NoCall then true else
    match th.pc
    case Starter(_, s) => s.Admitted?
    case Task(_, w) => w.Picked? || w.ProgressCheck? || w.Finish?
    case Toggling(_, _, g) => g.Lookup? || g.Check?
    case Watching(d) => !d.Resting?
    case _ => false
  }

  /** A sink is being called: the callback may call `cancel` before it returns. */
  predicate InSink(pc: Pc) {
    match pc
    case Starter(_, s) => s.Announcing?
    case Task(_, w) => w.ProgressInSink? || w.FinalInSink?
    case Toggling(_, _, g) => g.EmitInSink?
    case _ => false
  }

  predicate IdlePc(pc: Pc) {
    pc.Client? || pc.Worker? || pc == Watching(Resting)
  }

  // ----- what one thread does to its own job -----

  /** The choices an executor makes. */
  datatype Choice = NoChoice | ReportProgress(p: Report) | WaitWhilePaused | Return(r: Outcome) | KeepSink(alive: bool)

  /** `update_snapshot_progress` accepts the report. */
  predicate AcceptsProgress(c: Cell) {
    c.registered && c.status.Running? && !c.timedOut && !c.userCancelled
  }

  function WithProgress(c: Cell, p: Report, now: Time): Cell {
    c.(item := p.item, items := p.items, bytes := p.bytes, updatedAt := p.at, lastActivity := Some(now))
  }

  function WithStatus(c: Cell, st: Status, code: Option<string>, now: Time): Cell {
    if c.registered then c.(status := st, code := code, updatedAt := now) else c
  }

  /** The status a pause or a resumption leaves behind. */
  function ToggleTarget(k: ToggleKind): Status {
    if k.Pause? then Paused else Running
  }

  /** The status in which it does something. */
  function ToggleSource(k: ToggleKind): Status {
    if k.Pause? then Running else Paused
  }

  function Toggled(c: Cell, k: ToggleKind, now: Time): Cell {
    if k.Pause? then c.(paused := true, status := Paused, updatedAt := now)
    else c.(paused := false, status := Running, updatedAt := now, lastActivity := Some(now))
  }

  function ToggleEvent(k: ToggleKind): Event {
    if k.Pause? then EvPaused else EvResumed
  }

  /** The watchdog's test of one entry. */
  predicate Stalled(c: Cell, now: Time, timeout: Time) {
    && c.status.Running? && !c.timedOut && !c.userCancelled
    && c.lastActivity.Some? && now >= c.lastActivity.value + timeout
  }

  function FirstOf(f: Option<Canceller>, who: Canceller): Option<Canceller> {
    if f.None? then Some(who) else f
  }

  function UserFlagged(c: Cell): Cell {
    c.(userCancelled := c.userCancelled || !c.timedOut, first := FirstOf(c.first, User))
  }

  function WatchdogFlagged(c: Cell): Cell {
    c.(timedOut := true, first := FirstOf(c.first, Watchdog))
  }

  datatype StarterMove = StarterMove(s: StarterPc, cell: Cell)

  predicate StarterEnabled(s: StarterPc) {
    s.Recorded? || s.Announcing?
  }

  function StarterStep(s: StarterPc, c: Cell): StarterMove {
    if s.Recorded? then StarterMove(Announcing, c.(log := c.log + [EvStarted])) else StarterMove(Sending, c)
  }

  datatype TaskMove = TaskMove(w: TaskPc, cell: Cell)

  predicate TaskEnabled(t: ThreadId, w: TaskPc, c: Cell, lock: Option<ThreadId>, choice: Choice) {
    match w
    case Picked => lock == Some(t)
    case Executing =>
      choice.ReportProgress? || choice.WaitWhilePaused?
      || (choice.Return? && (choice.r.ErrCancelled? ==> c.cancelled))
    case Parked => !c.paused || c.cancelled
    case ProgressWait(_) => c.gate.None?
    case ProgressCheck(_) => lock == Some(t)
    case Finish(_, _) => lock == Some(t)
    case FinalWait(_, _) => c.gate.None?
    case Persist(_, _) => false
    case Cleanup => false
    case Dropping => false
    case _ => true
  }

  function TaskStep(t: ThreadId, w: TaskPc, c: Cell, now: Time, choice: Choice): TaskMove {
    match w
    case Picked => TaskMove(Executing, if c.registered then c.(lastActivity := Some(now), updatedAt := now) else c)
    case Executing =>
      (match choice
       case ReportProgress(p) => TaskMove(ProgressWait(p), c)
       case Return(r) => TaskMove(Returned(r), c.(outcome := Some(r)))
       case _ => TaskMove(Parked, c))
    case Parked => TaskMove(Executing, c)
    case ProgressWait(p) => TaskMove(ProgressCheck(p), c.(gate := Some(t)))
    case ProgressCheck(p) =>
      if AcceptsProgress(c) then TaskMove(ProgressAccepted(p), WithProgress(c, p, now))
      else TaskMove(ProgressLeave, c)
    case ProgressAccepted(p) => TaskMove(ProgressInSink, c.(log := c.log + [EvProgress(p)]))
    case ProgressInSink => TaskMove(Executing, c.(gate := None))
    case ProgressLeave => TaskMove(Executing, c.(gate := None))
    case Returned(r) =>
      (match r
       case Ok => TaskMove(Finish(Completed, None), c)
       case ErrCancelled => if c.timedOut then TaskMove(CheckUser, c) else TaskMove(Finish(Cancelled, None), c)
       case ErrOther(code) => TaskMove(Finish(Failed, Some(code)), c))
    case CheckUser =>
      if !c.userCancelled then TaskMove(Finish(Failed, Some("timeout")), c)
      else TaskMove(Finish(Cancelled, None), c)
    case Finish(st, code) => TaskMove(Persist(st, code), WithStatus(c, st, code, now))
    case FinalWait(st, code) => TaskMove(FinalGate(st, code), c.(gate := Some(t)))
    case FinalGate(st, code) => TaskMove(FinalInSink, c.(log := c.log + [Announcement(st, code)]))
    case FinalInSink => TaskMove(Cleanup, c.(gate := None))
    case _ => TaskMove(w, c)
  }

  /** `None` for the counter: the call returns to its client. */
  datatype ToggleMove = ToggleMove(g: Option<TogglePc>, cell: Cell)

  predicate ToggleEnabled(t: ThreadId, g: TogglePc, c: Cell, lock: Option<ThreadId>) {
    match g
    case Lookup => lock == Some(t)
    case GateWait => c.gate.None?
    case Check => lock == Some(t)
    case _ => true
  }

  function ToggleStep(t: ThreadId, k: ToggleKind, g: TogglePc, c: Cell, now: Time, choice: Choice): ToggleMove {
    match g
    case Lookup => ToggleMove(if c.registered then Some(GateWait) else None, c)
    case GateWait => ToggleMove(Some(Check), c.(gate := Some(t)))
    case Check =>
      // not found, already there, or not allowed from here: nothing happens
      if !c.registered || c.status != ToggleSource(k) then ToggleMove(Some(Leave), c)
      // the weak sink reference upgrades if the task, or anyone else, still holds the sink
      else ToggleMove(Some(Emit(!c.stage.Finished? || choice == KeepSink(true))), Toggled(c, k, now))
    case Emit(sink) =>
      if sink then ToggleMove(Some(EmitInSink), c.(log := c.log + [ToggleEvent(k)])) else ToggleMove(Some(Leave), c)
    case EmitInSink => ToggleMove(None, c.(gate := None))
    case Leave => ToggleMove(None, c.(gate := None))
  }

  datatype Local = Local(pc: Pc, cell: Cell)

  /** A step of the thread at `pc` that touches nothing but its own job's cell is possible now. */
  predicate OwnEnabled(t: ThreadId, pc: Pc, c: Cell, lock: Option<ThreadId>, choice: Choice) {
    match pc
    case Starter(_, s) => StarterEnabled(s)
    case Task(_, w) => TaskEnabled(t, w, c, lock, choice)
    case Toggling(_, _, g) => ToggleEnabled(t, g, c, lock)
    case _ => false
  }

  function OwnStep(t: ThreadId, pc: Pc, c: Cell, now: Time, choice: Choice): Local {
    match pc
    case Starter(j, s) => var m := StarterStep(s, c); Local(Starter(j, m.s), m.cell)
    case Task(j, w) => var m := TaskStep(t, w, c, now, choice); Local(Task(j, m.w), m.cell)
    case Toggling(j, k, g) =>
      var m := ToggleStep(t, k, g, c, now, choice);
      Local(if m.g.Some? then Toggling(j, k, m.g.value) else Client, m.cell)
    case _ => Local(pc, c)
  }

  // ----- the machine -----

  datatype Action =
    | Tick(d: Time)
    | SetIdleTimeout(ms: Time)
    | AcquireJobs(t: ThreadId)
    | Own(t: ThreadId, choice: Choice)
    | Admit(t: ThreadId, j: JobId)
    | Insert(t: ThreadId, pruned: set<JobId>)
    | RecordStart(t: ThreadId)
    | Send(t: ThreadId)
    | Pickup(t: ThreadId)
    | PersistFinal(t: ThreadId)
    | CleanupHistory(t: ThreadId, kept: Table)
    | DropToken(t: ThreadId)
    | CallToggle(t: ThreadId, k: ToggleKind, j: JobId)
    | CallCancel(t: ThreadId, j: JobId)
    | CancelFlag(t: ThreadId)
    | CancelToken(t: ThreadId)
    | WatchdogLoad(t: ThreadId)
    | WatchdogStart(t: ThreadId)
    | WatchdogTest(t: ThreadId, j: JobId)
    | WatchdogToken(t: ThreadId)
    | WatchdogDone(t: ThreadId)
    | ClearHistory
    | TrimHistory(kept: Table)

  function Registered(s: State): set<JobId> {
    set j | j in s.cells && s.cells[j].registered
  }

  function TerminalEntries(cells: map<JobId, Cell>): set<JobId> {
    set j | j in cells && cells[j].registered && Terminal(cells[j].status)
  }

  function RegisteredTerminal(s: State): set<JobId> {
    TerminalEntries(s.cells)
  }

  /** The admission tokens in existence, by the job they were acquired for. */
  function Tokens(s: State): set<JobId> {
    set j | j in s.cells && !s.cells[j].stage.Finished?
  }

  /** A client can name the job: its sink has been told, or the start call has returned. */
  predicate Known(s: State, j: JobId) {
    j in s.cells && s.cells[j].log != []
  }

  /** `prune_terminal_jobs` may remove exactly these: nothing while at most 128 are terminal,
      otherwise all but 128, the removed ones no newer than the kept ones. */
  ghost predicate PrunableEntries(cells: map<JobId, Cell>, pruned: set<JobId>) {
    var terminal := TerminalEntries(cells);
    && pruned <= terminal
    && (|terminal| <= TERMINAL_JOB_RETENTION ==> pruned == {})
    && (|terminal| > TERMINAL_JOB_RETENTION ==> |terminal - pruned| == TERMINAL_JOB_RETENTION)
    && (forall p, k :: p in pruned && k in terminal && k !in pruned
         ==> cells[p].updatedAt <= cells[k].updatedAt)
  }

  ghost predicate Prunable(s: State, pruned: set<JobId>) {
    PrunableEntries(s.cells, pruned)
  }

  predicate At(s: State, t: ThreadId) {
    t in s.threads && s.threads[t].call.NoCall?
  }

  /** Thread t is in the state named by its program counter, works for a known job, and nothing
      else is in its way. */
  predicate AtJob(s: State, t: ThreadId) {
    At(s, t) && HasJob(s.threads[t].pc) && s.threads[t].pc.j in s.cells
  }

  predicate AtStarter(s: State, t: ThreadId, at: StarterPc) {
    AtJob(s, t) && s.threads[t].pc.Starter? && s.threads[t].pc.s == at
  }

  predicate AtTask(s: State, t: ThreadId) {
    AtJob(s, t) && s.threads[t].pc.Task?
  }

  predicate AtWatch(s: State, t: ThreadId) {
    At(s, t) && s.threads[t].pc.Watching?
  }

  predicate CanOwn(s: State, t: ThreadId, choice: Choice) {
    AtJob(s, t) && var pc := s.threads[t].pc;
    OwnEnabled(t, pc, s.cells[pc.j], s.jobsLock, choice)
  }

  ghost predicate Enabled(s: State, a: Action) {
    match a
    case Tick(_) => true
    case SetIdleTimeout(_) => true
    case AcquireJobs(t) => t in s.threads && NeedsJobs(s.threads[t]) && s.jobsLock.None?
    case Own(t, choice) => CanOwn(s, t, choice)
    case Admit(t, j) => At(s, t) && s.threads[t].pc.Client? && j !in s.cells && j !in s.table
    case Insert(t, pruned) => AtStarter(s, t, Admitted) && s.jobsLock == Some(t) && Prunable(s, pruned)
    case RecordStart(t) => AtStarter(s, t, Inserted)
    case Send(t) => AtStarter(s, t, Sending) && |s.queue| < OPERATION_QUEUE_CAPACITY
    case Pickup(t) => At(s, t) && s.threads[t].pc.Worker? && s.queue != [] && s.queue[0] in s.cells
    case PersistFinal(t) => AtTask(s, t) && s.threads[t].pc.w.Persist?
    case CleanupHistory(t, kept) =>
      AtTask(s, t) && s.threads[t].pc.w.Cleanup? && Retained(s.table, HISTORY_RETENTION_LIMIT, kept)
    case DropToken(t) => AtTask(s, t) && s.threads[t].pc.w.Dropping?
    case CallToggle(t, _, j) => At(s, t) && s.threads[t].pc.Client? && Known(s, j)
    case CallCancel(t, j) =>
      At(s, t) && (s.threads[t].pc.Client? || InSink(s.threads[t].pc)) && Known(s, j)
    case CancelFlag(t) =>
      t in s.threads && s.threads[t].call.CancelWait? && s.jobsLock == Some(t) && s.threads[t].call.k in s.cells
    case CancelToken(t) =>
      t in s.threads && s.threads[t].call.CancelFlagged? && s.jobsLock == Some(t) && s.threads[t].call.k in s.cells
    case WatchdogLoad(t) => At(s, t) && s.threads[t].pc == Watching(Resting) && s.idleTimeout > 0
    case WatchdogStart(t) => AtWatch(s, t) && s.threads[t].pc.d.Armed? && s.jobsLock == Some(t)
    case WatchdogTest(t, j) =>
      AtWatch(s, t) && s.threads[t].pc.d.Scan? && s.jobsLock == Some(t) && j in s.threads[t].pc.d.todo && j in s.cells
    case WatchdogToken(t) =>
      AtWatch(s, t) && s.threads[t].pc.d.Flagged? && s.jobsLock == Some(t) && s.threads[t].pc.d.k in s.cells
    case WatchdogDone(t) =>
      AtWatch(s, t) && s.threads[t].pc.d.Scan? && s.jobsLock == Some(t) && s.threads[t].pc.d.todo == {}
    case ClearHistory => true
    case TrimHistory(kept) => Retained(s.table, HISTORY_RETENTION_LIMIT, kept)
  }

  // ----- what each action does -----

  function MovePc(s: State, t: ThreadId, pc: Pc): State
    requires t in s.threads
  {
    s.(threads := s.threads[t := s.threads[t].(pc := pc)])
  }

  function MoveCall(s: State, t: ThreadId, call: CancelCall): State
    requires t in s.threads
  {
    s.(threads := s.threads[t := s.threads[t].(call := call)])
  }

  function WithCell(s: State, j: JobId, c: Cell): State {
    s.(cells := s.cells[j := c])
  }

  function Unlock(s: State, t: ThreadId): State {
    if s.jobsLock == Some(t) then s.(jobsLock := None) else s
  }

  function DoOwn(s: State, t: ThreadId, choice: Choice): State
    requires AtJob(s, t)
  {
    var pc := s.threads[t].pc;
    var j := pc.j;
    var l := OwnStep(t, pc, s.cells[j], s.now, choice);
    Unlock(WithCell(MovePc(s, t, l.pc), j, l.cell), t)
  }

  function DoAdmit(s: State, t: ThreadId, j: JobId): State
    requires t in s.threads
  {
    if s.admitted < ACTIVE_OPERATION_LIMIT then
      WithCell(MovePc(s, t, Starter(j, Admitted)), j, NewCell(t, s.now)).(admitted := s.admitted + 1)
    else s
  }

  function Unregister(cells: map<JobId, Cell>, pruned: set<JobId>): map<JobId, Cell> {
    map j | j in cells :: if j in pruned then cells[j].(registered := false) else cells[j]
  }

  function DoInsert(s: State, t: ThreadId, pruned: set<JobId>): State
    requires AtJob(s, t)
  {
    var j := s.threads[t].pc.j;
    var kept := Unregister(s.cells, pruned);
    MovePc(s, t, Starter(j, Inserted)).(cells := kept[j := s.cells[j].(registered := true)], jobsLock := None)
  }

  function DoRecordStart(s: State, t: ThreadId): State
    requires AtJob(s, t)
  {
    var j := s.threads[t].pc.j;
    MovePc(s, t, Starter(j, Recorded)).(table := WithStarted(s.table, j, s.cells[j].startedAt))
  }

  function DoSend(s: State, t: ThreadId): State
    requires AtJob(s, t)
  {
    var j := s.threads[t].pc.j;
    WithCell(MovePc(s, t, Client), j, s.cells[j].(stage := Waiting)).(queue := s.queue + [j])
  }

  function DoPickup(s: State, t: ThreadId): State
    requires t in s.threads && s.queue != [] && s.queue[0] in s.cells
  {
    var j := s.queue[0];
    WithCell(MovePc(s, t, Task(j, Picked)), j, s.cells[j].(stage := OnWorker(t))).(queue := s.queue[1..])
  }

  function DoPersistFinal(s: State, t: ThreadId): State
    requires AtTask(s, t) && s.threads[t].pc.w.Persist?
  {
    var pc := s.threads[t].pc;
    MovePc(s, t, Task(pc.j, FinalWait(pc.w.st, pc.w.code)))
    .(table := WithTerminal(s.table, pc.j, pc.w.st, pc.w.code, s.now))
  }

  function DoDropToken(s: State, t: ThreadId): State
    requires AtJob(s, t)
  {
    var j := s.threads[t].pc.j;
    WithCell(MovePc(s, t, Worker), j, s.cells[j].(stage := Finished))
    .(admitted := s.admitted - 1)
  }

  function DoCancelFlag(s: State, t: ThreadId): State
    requires t in s.threads && s.threads[t].call.CancelWait? && s.threads[t].call.k in s.cells
  {
    var j := s.threads[t].call.k;
    if s.cells[j].registered then WithCell(MoveCall(s, t, CancelFlagged(j)), j, UserFlagged(s.cells[j]))
    else MoveCall(s, t, NoCall).(jobsLock := None)
  }

  function DoCancelToken(s: State, t: ThreadId): State
    requires t in s.threads && s.threads[t].call.CancelFlagged? && s.threads[t].call.k in s.cells
  {
    var j := s.threads[t].call.k;
    WithCell(MoveCall(s, t, NoCall), j, s.cells[j].(cancelled := true)).(jobsLock := None)
  }

  function DoWatchdogTest(s: State, t: ThreadId, j: JobId): State
    requires AtWatch(s, t) && s.threads[t].pc.d.Scan? && j in s.cells
  {
    var d := s.threads[t].pc.d;
    if Stalled(s.cells[j], s.now, d.timeout) then
      WithCell(MovePc(s, t, Watching(Flagged(d.timeout, d.todo - {j}, j))), j, WatchdogFlagged(s.cells[j]))
    else MovePc(s, t, Watching(Scan(d.timeout, d.todo - {j})))
  }

  function DoWatchdogToken(s: State, t: ThreadId): State
    requires AtWatch(s, t) && s.threads[t].pc.d.Flagged? && s.threads[t].pc.d.k in s.cells
  {
    var d := s.threads[t].pc.d;
    WithCell(MovePc(s, t, Watching(Scan(d.timeout, d.todo))), d.k, s.cells[d.k].(cancelled := true))
  }

  function Apply(s: State, a: Action): State
    requires Enabled(s, a)
  {
    match a
    case Tick(d) => s.(now := s.now + d)
    case SetIdleTimeout(ms) => s.(idleTimeout := ms)
    case AcquireJobs(t) => s.(jobsLock := Some(t))
    case Own(t, choice) => DoOwn(s, t, choice)
    case Admit(t, j) => DoAdmit(s, t, j)
    case Insert(t, pruned) => DoInsert(s, t, pruned)
    case RecordStart(t) => DoRecordStart(s, t)
    case Send(t) => DoSend(s, t)
    case Pickup(t) => DoPickup(s, t)
    case PersistFinal(t) => DoPersistFinal(s, t)
    case CleanupHistory(t, kept) => MovePc(s, t, Task(s.threads[t].pc.j, Dropping)).(table := kept)
    case DropToken(t) => DoDropToken(s, t)
    case CallToggle(t, k, j) => MovePc(s, t, Toggling(j, k, Lookup))
    case CallCancel(t, j) => MoveCall(s, t, CancelWait(j))
    case CancelFlag(t) => DoCancelFlag(s, t)
    case CancelToken(t) => DoCancelToken(s, t)
    case WatchdogLoad(t) => MovePc(s, t, Watching(Armed(s.idleTimeout)))
    case WatchdogStart(t) => MovePc(s, t, Watching(Scan(s.threads[t].pc.d.timeout, Registered(s))))
    case WatchdogTest(t, j) => DoWatchdogTest(s, t, j)
    case WatchdogToken(t) => DoWatchdogToken(s, t)
    case WatchdogDone(t) => MovePc(s, t, Watching(Resting)).(jobsLock := None)
    case ClearHistory => s.(table := WithoutTerminal(s.table))
    case TrimHistory(kept) => s.(table := kept)
  }

  predicate Initial(s: State) {
    && s.jobsLock.None? && s.admitted == 0 && s.cells == map[] && s.queue == []
    && forall t :: t in s.threads ==> IdlePc(s.threads[t].pc) && s.threads[t].call.NoCall?
  }

  /** A finite run: every state follows from the one before by an enabled action. */
  datatype Run = Run(states: seq<State>, actions: seq<Action>)

  ghost predicate ValidRun(r: Run) {
    && |r.states| == |r.actions| + 1
    && Initial(r.states[0])
    && forall i :: 0 <= i < |r.actions| ==> StepAt(r, i)
  }

  ghost predicate StepAt(r: Run, i: nat)
    requires |r.states| == |r.actions| + 1 && i < |r.actions|
  {
    Enabled(r.states[i], r.actions[i]) && r.states[i + 1] == Apply(r.states[i], r.actions[i])
  }
}
