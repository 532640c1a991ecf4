/** The registry as the code keeps it, and what the actions of the state machine do to it. A
    region of the code refines a sequence of actions if, from any state with that registry in which
    a thread is about to execute the region, the actions are enabled one after the other and lead
    to the registry that the region leaves behind. */
module RuntimeRegions {
  import opened Basics
  import opened JobEvents
  import opened HistoryTable
  import opened RuntimeModel
  import opened RuntimeSafety
  import opened RuntimeTheorems
  import opened RuntimeSteps

  function RegistryOf(s: State): map<JobId, Cell> {
    map j | j in s.cells && s.cells[j].registered :: s.cells[j]
  }

  /** The actions are enabled one after the other and lead to this registry. */
  ghost predicate Reaches(s: State, actions: seq<Action>, jobs: map<JobId, Cell>) {
    After(s, actions).Some? && RegistryOf(After(s, actions).value) == jobs
  }

  ghost predicate ReachesCount(s: State, actions: seq<Action>, admitted: int) {
    After(s, actions).Some? && After(s, actions).value.admitted == admitted
  }

  ghost predicate ReachesTable(s: State, actions: seq<Action>, table: Table) {
    After(s, actions).Some? && After(s, actions).value.table == table
  }

  /** Thread t is about to execute the region at pc, with the jobs lock. */
  predicate Here(s: State, t: ThreadId, pc: Pc, now: Time) {
    && t in s.threads && s.threads[t] == Thread(pc, NoCall) && HasJob(pc) && pc.j in s.cells
    && s.jobsLock == Some(t) && s.now == now
  }

  // ----- regions of one thread's own job -----

  /** A step of a thread under the lock changes the registry in its own entry only, and only if the
      entry is still registered. */
  lemma OwnRegion(s: State, t: ThreadId, pc: Pc, now: Time)
    requires Here(s, t, pc, now) && OwnEnabled(t, pc, s.cells[pc.j], Some(t), NoChoice)
    requires OwnStep(t, pc, s.cells[pc.j], now, NoChoice).cell.registered == s.cells[pc.j].registered
    ensures Reaches(s, [Own(t, NoChoice)],
      if pc.j in RegistryOf(s) then RegistryOf(s)[pc.j := OwnStep(t, pc, RegistryOf(s)[pc.j], now, NoChoice).cell] else RegistryOf(s))
  {
    hide OwnStep, OwnEnabled;
    AfterOne(s, Own(t, NoChoice));
  }

  /** The first region of a task. */
  lemma BeginRegion(s: State, t: ThreadId, j: JobId, now: Time)
    requires Here(s, t, Task(j, Picked), now)
    ensures Reaches(s, [Own(t, NoChoice)],
      if j in RegistryOf(s) then RegistryOf(s)[j := TaskStep(t, Picked, RegistryOf(s)[j], now, NoChoice).cell] else RegistryOf(s))
  {
    hide Reaches;
    OwnRegion(s, t, Task(j, Picked), now);
  }

  /** `update_snapshot_progress`: an accepted report, or nothing. */
  lemma ReportRegion(s: State, t: ThreadId, j: JobId, p: Report, now: Time)
    requires Here(s, t, Task(j, ProgressCheck(p)), now)
    ensures Reaches(s, [Own(t, NoChoice)],
      if j in RegistryOf(s) && AcceptsProgress(RegistryOf(s)[j]) then RegistryOf(s)[j := WithProgress(RegistryOf(s)[j], p, now)] else RegistryOf(s))
  {
    hide Reaches;
    OwnRegion(s, t, Task(j, ProgressCheck(p)), now);
    if j in RegistryOf(s) { assert RegistryOf(s)[j := RegistryOf(s)[j]] == RegistryOf(s); }
  }

  /** `update_snapshot_status` with the verdict of the task. */
  lemma FinishRegion(s: State, t: ThreadId, j: JobId, st: Status, code: Option<string>, now: Time)
    requires Here(s, t, Task(j, Finish(st, code)), now)
    ensures Reaches(s, [Own(t, NoChoice)],
      if j in RegistryOf(s) then RegistryOf(s)[j := WithStatus(RegistryOf(s)[j], st, code, now)] else RegistryOf(s))
  {
    hide Reaches;
    OwnRegion(s, t, Task(j, Finish(st, code)), now);
  }

  /** The region of `pause_job` and `resume_job`. */
  lemma ToggleRegion(s: State, t: ThreadId, j: JobId, k: ToggleKind, now: Time)
    requires Here(s, t, Toggling(j, k, Check), now)
    ensures Reaches(s, [Own(t, NoChoice)],
      if j in RegistryOf(s) then RegistryOf(s)[j := ToggleStep(t, k, Check, RegistryOf(s)[j], now, NoChoice).cell] else RegistryOf(s))
  {
    hide Reaches;
    OwnRegion(s, t, Toggling(j, k, Check), now);
  }

  // ----- starting -----

  /** Acquiring a token does not touch the registry; it counts, or is refused. */
  lemma AdmitRegion(s: State, t: ThreadId, j: JobId)
    requires Enabled(s, Admit(t, j))
    ensures Reaches(s, [Admit(t, j)], RegistryOf(s))
    ensures ReachesCount(s, [Admit(t, j)], if s.admitted < ACTIVE_OPERATION_LIMIT then s.admitted + 1 else s.admitted)
  {
    AfterOne(s, Admit(t, j));
    assert RegistryOf(Apply(s, Admit(t, j))) == RegistryOf(s);
  }

  /** Dropping it changes nothing that the registry keeps, only who holds the token. */
  lemma DropRegion(s: State, t: ThreadId)
    requires Enabled(s, DropToken(t)) && Inv(s)
    ensures var j := s.threads[t].pc.j;
      Reaches(s, [DropToken(t)], if j in RegistryOf(s) then RegistryOf(s)[j := RegistryOf(s)[j].(stage := Finished)] else RegistryOf(s))
    ensures s.admitted > 0 && ReachesCount(s, [DropToken(t)], s.admitted - 1)
  {
    hide CellOk, Distinct;
    AfterOne(s, DropToken(t));
    var j := s.threads[t].pc.j;
    assert ThreadOk(s, t);
    assert j in Tokens(s);
    SubsetSize({j}, Tokens(s));
  }

  lemma SameTerminal(s: State)
    ensures TerminalEntries(RegistryOf(s)) == TerminalEntries(s.cells)
  {
  }

  lemma SamePrunable(s: State, pruned: set<JobId>)
    ensures PrunableEntries(RegistryOf(s), pruned) <==> Prunable(s, pruned)
  {
    SameTerminal(s);
  }

  /** The starter of job j, with its entry not yet inserted. */
  predicate Inserting(s: State, t: ThreadId, j: JobId, entry: Cell) {
    AtStarter(s, t, Admitted) && s.jobsLock == Some(t) && s.threads[t].pc.j == j && s.cells[j] == entry && !entry.registered
  }

  /** Pruning and inserting. */
  lemma InsertRegion(s: State, t: ThreadId, j: JobId, entry: Cell, pruned: set<JobId>)
    requires Inserting(s, t, j, entry) && PrunableEntries(RegistryOf(s), pruned)
    ensures Reaches(s, [Insert(t, pruned)], (RegistryOf(s) - pruned)[j := entry.(registered := true)])
  {
    SamePrunable(s, pruned);
    hide Prunable, PrunableEntries;
    AfterOne(s, Insert(t, pruned));
    var s' := Apply(s, Insert(t, pruned));
    assert RegistryOf(s') == (RegistryOf(s) - pruned)[j := entry.(registered := true)];
  }

  // ----- cancelling -----

  predicate Cancelling(s: State, t: ThreadId, j: JobId) {
    t in s.threads && s.threads[t].call == CancelWait(j) && s.jobsLock == Some(t) && j in s.cells
  }

  lemma CancelFound(s: State, t: ThreadId, j: JobId)
    requires Cancelling(s, t, j) && s.cells[j].registered
    ensures Reaches(s, [CancelFlag(t), CancelToken(t)], RegistryOf(s)[j := UserFlagged(s.cells[j]).(cancelled := true)])
  {
    hide UserFlagged;
    UserFlagKeepsEntry(s.cells[j]);
    var s1 := DoCancelFlag(s, t);
    assert Enabled(s, CancelFlag(t)) && Apply(s, CancelFlag(t)) == s1;
    assert Enabled(s1, CancelToken(t));
    var s2 := DoCancelToken(s1, t);
    assert Apply(s1, CancelToken(t)) == s2;
    assert s2.cells == s.cells[j := UserFlagged(s.cells[j]).(cancelled := true)];
    hide Enabled, Apply;
    AfterOne(s1, CancelToken(t));
    AfterFirst(s, CancelFlag(t), [CancelToken(t)]);
    assert [CancelFlag(t)] + [CancelToken(t)] == [CancelFlag(t), CancelToken(t)];
  }

  /** The region of `cancel`: the flag and the token for a registered job, else nothing. */
  lemma CancelRegion(s: State, t: ThreadId, j: JobId)
    requires Cancelling(s, t, j)
    ensures j in RegistryOf(s) ==>
      Reaches(s, [CancelFlag(t), CancelToken(t)], RegistryOf(s)[j := UserFlagged(RegistryOf(s)[j]).(cancelled := true)])
    ensures j !in RegistryOf(s) ==> Reaches(s, [CancelFlag(t)], RegistryOf(s))
  {
    hide UserFlagged;
    if j in RegistryOf(s) {
      CancelFound(s, t, j);
    } else {
      AfterOne(s, CancelFlag(t));
      assert RegistryOf(Apply(s, CancelFlag(t))) == RegistryOf(s);
    }
  }

  lemma UserFlagKeepsEntry(c: Cell)
    ensures UserFlagged(c).registered == c.registered
  {
  }

  // ----- the watchdog's pass -----

  /** An entry after the watchdog has looked at it. */
  function Watched(c: Cell, now: Time, timeout: Time): Cell {
    if Stalled(c, now, timeout) then WatchdogFlagged(c).(cancelled := true) else c
  }

  /** One entry looked at, `wait` after the one before. */
  datatype Look = Look(j: JobId, wait: Time)

  /** The registry and the clock after the looks. */
  function Passed(jobs: map<JobId, Cell>, now: Time, timeout: Time, looks: seq<Look>): (map<JobId, Cell>, Time)
    decreases |looks|
  {
    if looks == [] then (jobs, now)
    else
      var l := looks[0];
      var moment := now + l.wait;
      Passed(if l.j in jobs then jobs[l.j := Watched(jobs[l.j], moment, timeout)] else jobs, moment, timeout, looks[1..])
  }

  /** The actions of one look: time passes, the entry is tested, and if it is stalled its token is
      set as well. */
  function LookActions(t: ThreadId, l: Look, fires: bool): seq<Action> {
    [Tick(l.wait)] + ([WatchdogTest(t, l.j)] + if fires then [WatchdogToken(t)] else [])
  }

  function PassActions(t: ThreadId, jobs: map<JobId, Cell>, now: Time, timeout: Time, looks: seq<Look>): seq<Action>
    decreases |looks|
  {
    if looks == [] then [WatchdogDone(t)]
    else
      var l := looks[0];
      var moment := now + l.wait;
      if l.j !in jobs then [] else
      LookActions(t, l, Stalled(jobs[l.j], moment, timeout))
      + PassActions(t, jobs[l.j := Watched(jobs[l.j], moment, timeout)], moment, timeout, looks[1..])
  }

  /** Each entry of `todo` is looked at once. */
  predicate Covers(looks: seq<Look>, todo: set<JobId>)
    decreases |looks|
  {
    if looks == [] then todo == {} else looks[0].j in todo && Covers(looks[1..], todo - {looks[0].j})
  }

  predicate ScanningAt(s: State, t: ThreadId, timeout: Time, todo: set<JobId>) {
    && t in s.threads && s.threads[t] == Thread(Watching(Scan(timeout, todo)), NoCall) && s.jobsLock == Some(t)
    && todo <= s.cells.Keys && forall j :: j in todo ==> s.cells[j].registered
  }

  /** One look of the watchdog. */
  lemma LookRegion(s: State, t: ThreadId, timeout: Time, todo: set<JobId>, l: Look) returns (s': State)
    requires ScanningAt(s, t, timeout, todo) && l.j in todo
    ensures After(s, LookActions(t, l, Stalled(s.cells[l.j], s.now + l.wait, timeout))) == Some(s')
    ensures ScanningAt(s', t, timeout, todo - {l.j}) && s'.now == s.now + l.wait
    ensures RegistryOf(s') == RegistryOf(s)[l.j := Watched(s.cells[l.j], s'.now, timeout)]
  {
    var j, c := l.j, s.cells[l.j];
    var s1 := s.(now := s.now + l.wait);
    assert Enabled(s, Tick(l.wait)) && Apply(s, Tick(l.wait)) == s1;
    assert Enabled(s1, WatchdogTest(t, j));
    var s2 := DoWatchdogTest(s1, t, j);
    assert Apply(s1, WatchdogTest(t, j)) == s2;
    hide Stalled;
    if Stalled(c, s1.now, timeout) {
      s' := LookFires(s1, t, timeout, todo, j);
    } else {
      s' := s2;
      AfterOne(s1, WatchdogTest(t, j));
      assert [WatchdogTest(t, j)] + [] == [WatchdogTest(t, j)];
      assert RegistryOf(s)[j := c] == RegistryOf(s);
    }
    AfterFirst(s, Tick(l.wait), [WatchdogTest(t, j)] + if Stalled(c, s1.now, timeout) then [WatchdogToken(t)] else []);
  }

  lemma LookFires(s: State, t: ThreadId, timeout: Time, todo: set<JobId>, j: JobId) returns (s': State)
    requires ScanningAt(s, t, timeout, todo) && j in todo && Stalled(s.cells[j], s.now, timeout)
    ensures After(s, [WatchdogTest(t, j)] + [WatchdogToken(t)]) == Some(s')
    ensures ScanningAt(s', t, timeout, todo - {j}) && s'.now == s.now
    ensures RegistryOf(s') == RegistryOf(s)[j := Watched(s.cells[j], s.now, timeout)]
  {
    var s2 := DoWatchdogTest(s, t, j);
    assert Enabled(s, WatchdogTest(t, j)) && Apply(s, WatchdogTest(t, j)) == s2;
    assert Enabled(s2, WatchdogToken(t));
    s' := DoWatchdogToken(s2, t);
    assert Apply(s2, WatchdogToken(t)) == s';
    assert s'.cells == s.cells[j := Watched(s.cells[j], s.now, timeout)];
    hide Enabled, Apply;
    AfterOne(s2, WatchdogToken(t));
    AfterFirst(s, WatchdogTest(t, j), [WatchdogToken(t)]);
  }

  lemma {:induction false} LooksRegion(s: State, t: ThreadId, timeout: Time, todo: set<JobId>, looks: seq<Look>)
    requires ScanningAt(s, t, timeout, todo) && Covers(looks, todo)
    ensures Reaches(s, PassActions(t, RegistryOf(s), s.now, timeout, looks), Passed(RegistryOf(s), s.now, timeout, looks).0)
    decreases |looks|
  {
    hide Enabled, Apply, Stalled, Watched, After, LookActions;
    if looks == [] {
      DoneRegion(s, t, timeout);
    } else {
      var l := looks[0];
      var s' := LookRegion(s, t, timeout, todo, l);
      LooksRegion(s', t, timeout, todo - {l.j}, looks[1..]);
      AfterAppend(s, LookActions(t, l, Stalled(s.cells[l.j], s.now + l.wait, timeout)), PassActions(t, RegistryOf(s'), s'.now, timeout, looks[1..]));
    }
  }

  lemma DoneRegion(s: State, t: ThreadId, timeout: Time)
    requires ScanningAt(s, t, timeout, {})
    ensures Reaches(s, [WatchdogDone(t)], RegistryOf(s))
  {
    AfterOne(s, WatchdogDone(t));
    assert RegistryOf(Apply(s, WatchdogDone(t))) == RegistryOf(s);
  }

  predicate ArmedAt(s: State, t: ThreadId, timeout: Time, now: Time) {
    && t in s.threads && s.threads[t] == Thread(Watching(Armed(timeout)), NoCall)
    && s.jobsLock == Some(t) && s.now == now
  }

  /** A whole pass over the registry. */
  lemma PassRegion(s: State, t: ThreadId, timeout: Time, now: Time, looks: seq<Look>)
    requires ArmedAt(s, t, timeout, now) && Covers(looks, RegistryOf(s).Keys)
    ensures Reaches(s, [WatchdogStart(t)] + PassActions(t, RegistryOf(s), now, timeout, looks), Passed(RegistryOf(s), now, timeout, looks).0)
  {
    assert Enabled(s, WatchdogStart(t));
    var s1 := Apply(s, WatchdogStart(t));
    assert Registered(s) == RegistryOf(s).Keys;
    assert s1.cells == s.cells && RegistryOf(s1) == RegistryOf(s);
    assert ScanningAt(s1, t, timeout, RegistryOf(s).Keys);
    hide Enabled, Apply;
    LooksRegion(s1, t, timeout, RegistryOf(s).Keys, looks);
    AfterFirst(s, WatchdogStart(t), PassActions(t, RegistryOf(s), now, timeout, looks));
  }

  /** What a pass comes to: every entry was judged once, at a time between the beginning and the
      end of the pass, and nothing else changed. */
  lemma {:induction false} PassMeaning(jobs: map<JobId, Cell>, now: Time, timeout: Time, looks: seq<Look>, todo: set<JobId>, j: JobId)
    requires Covers(looks, todo) && todo <= jobs.Keys && j in jobs
    ensures var (after, end) := Passed(jobs, now, timeout, looks);
      && after.Keys == jobs.Keys && now <= end
      && (j !in todo ==> after[j] == jobs[j])
      && (j in todo ==> exists at :: now <= at <= end && after[j] == Watched(jobs[j], at, timeout))
    decreases |looks|
  {
    hide Watched;
    if looks != [] {
      var l := looks[0];
      var moment := now + l.wait;
      PassMeaning(jobs[l.j := Watched(jobs[l.j], moment, timeout)], moment, timeout, looks[1..], todo - {l.j}, j);
    }
  }
}
