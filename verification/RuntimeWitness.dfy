/** A run in which the watchdog times out a job that no worker has touched. */
module RuntimeWitness {
  import opened Basics
  import opened JobEvents
  import opened HistoryTable
  import opened RuntimeModel
  import opened RuntimeTheorems
  import opened RuntimeSteps
  import opened RuntimeWatchdog

  const Job := JobId("a")

  /** Thread 0 is a client, thread 1 the watchdog; there is no worker. */
  function Idle(): State {
    State(0, 0, None, 0, map[], [], map[0 := Thread(Client, NoCall), 1 := Thread(Watching(Resting), NoCall)], map[])
  }

  /** The same with one job admitted and its row written. */
  function Base(): State {
    Idle().(admitted := 1, table := WithStarted(map[], Job, 0))
  }

  function Fresh(): Cell {
    NewCell(0, 0)
  }

  function Told(): Cell {
    Fresh().(registered := true, log := [EvStarted])
  }

  /** The job as it waits in the queue. */
  function Queued(): Cell {
    Told().(stage := Waiting)
  }

  function StartActions(): seq<Action> {
    [Admit(0, Job)] + ([AcquireJobs(0)] + ([Insert(0, {})] + ([RecordStart(0)] + ([Own(0, NoChoice)] + ([Own(0, NoChoice)] + [Send(0)])))))
  }

  lemma EmptyPrune(s: State)
    requires forall j :: j in s.cells ==> !s.cells[j].registered
    ensures Prunable(s, {})
  {
    assert TerminalEntries(s.cells) == {};
  }

  lemma AdmitStep()
    ensures var s1 := Placed(Idle().(admitted := 1), 0, Job, Starter(Job, Admitted), Fresh(), None);
      Enabled(Idle(), Admit(0, Job)) && Apply(Idle(), Admit(0, Job)) == s1
  {
  }

  lemma InsertStep()
    ensures var s2 := Placed(Idle().(admitted := 1), 0, Job, Starter(Job, Admitted), Fresh(), Some(0));
      var s3 := Placed(Idle().(admitted := 1), 0, Job, Starter(Job, Inserted), Fresh().(registered := true), None);
      Enabled(s2, Insert(0, {})) && Apply(s2, Insert(0, {})) == s3
  {
    var s2 := Placed(Idle().(admitted := 1), 0, Job, Starter(Job, Admitted), Fresh(), Some(0));
    hide Prunable;
    EmptyPrune(s2);
    var s3 := Placed(Idle().(admitted := 1), 0, Job, Starter(Job, Inserted), Fresh().(registered := true), None);
    assert Apply(s2, Insert(0, {})).cells == s3.cells;
    assert Apply(s2, Insert(0, {})).threads == s3.threads;
  }

  lemma RecordStep()
    ensures var s3 := Placed(Idle().(admitted := 1), 0, Job, Starter(Job, Inserted), Fresh().(registered := true), None);
      var s4 := Placed(Base(), 0, Job, Starter(Job, Recorded), Fresh().(registered := true), None);
      Enabled(s3, RecordStart(0)) && Apply(s3, RecordStart(0)) == s4
  {
    var s3 := Placed(Idle().(admitted := 1), 0, Job, Starter(Job, Inserted), Fresh().(registered := true), None);
    var s4 := Placed(Base(), 0, Job, Starter(Job, Recorded), Fresh().(registered := true), None);
    assert Apply(s3, RecordStart(0)).threads == s4.threads;
  }

  lemma SendStep()
    ensures var s6 := Placed(Base(), 0, Job, Starter(Job, Sending), Told(), None);
      var s7 := Placed(Base().(queue := [Job]), 0, Job, Client, Queued(), None);
      Enabled(s6, Send(0)) && Apply(s6, Send(0)) == s7
  {
    var s6 := Placed(Base(), 0, Job, Starter(Job, Sending), Told(), None);
    var s7 := Placed(Base().(queue := [Job]), 0, Job, Client, Queued(), None);
    assert Apply(s6, Send(0)).threads == s7.threads && Apply(s6, Send(0)).cells == s7.cells;
  }

  /** The start, from call to return: the job is in the queue. */
  lemma StartRound()
    ensures After(Idle(), StartActions()) == Some(Placed(Base().(queue := [Job]), 0, Job, Client, Queued(), None))
  {
    hide Enabled, Apply, After, Placed, Idle, Base;
    var admitted, c := Idle().(admitted := 1), Fresh().(registered := true);
    AdmitStep();
    AcquireStep(admitted, 0, Job, Starter(Job, Admitted), Fresh());
    InsertStep();
    RecordStep();
    OwnStepPlaced(Base(), 0, Job, Starter(Job, Recorded), c, None);
    assert [] + [EvStarted] == [EvStarted];
    OwnStepPlaced(Base(), 0, Job, Starter(Job, Announcing), Told(), None);
    SendStep();
    var o := Own(0, NoChoice);
    AfterOne(Placed(Base(), 0, Job, Starter(Job, Sending), Told(), None), Send(0));
    AfterFirst(Placed(Base(), 0, Job, Starter(Job, Announcing), Told(), None), o, [Send(0)]);
    AfterFirst(Placed(Base(), 0, Job, Starter(Job, Recorded), c, None), o, [o] + [Send(0)]);
    AfterFirst(Placed(admitted, 0, Job, Starter(Job, Inserted), c, None), RecordStart(0), [o] + ([o] + [Send(0)]));
    AfterFirst(Placed(admitted, 0, Job, Starter(Job, Admitted), Fresh(), Some(0)), Insert(0, {}), [RecordStart(0)] + ([o] + ([o] + [Send(0)])));
    AfterFirst(Placed(admitted, 0, Job, Starter(Job, Admitted), Fresh(), None), AcquireJobs(0), [Insert(0, {})] + ([RecordStart(0)] + ([o] + ([o] + [Send(0)]))));
    AfterFirst(Idle(), Admit(0, Job), [AcquireJobs(0)] + ([Insert(0, {})] + ([RecordStart(0)] + ([o] + ([o] + [Send(0)])))));
  }

  // ----- the watchdog -----

  function WatchActions(): seq<Action> {
    [SetIdleTimeout(5)] + ([Tick(5)] + [WatchdogLoad(1)]) + ([AcquireJobs(1)] + [WatchdogStart(1)])
  }

  /** The watchdog with the jobs lock, in front of the entry. */
  predicate Scanning(s: State, c: Cell) {
    && s.now == 5 && s.jobsLock == Some(1) && s.cells == map[Job := c]
    && 1 in s.threads && s.threads[1] == Thread(Watching(Scan(5, {Job})), NoCall)
  }

  /** The watchdog at `d`, at time 5. */
  function Watcher(s: State, d: WatchPc, lock: Option<ThreadId>): State {
    s.(now := 5, idleTimeout := 5, threads := s.threads[1 := Thread(Watching(d), NoCall)], jobsLock := lock)
  }

  lemma ArmSteps(s: State)
    requires s.now == 0 && s.jobsLock.None? && 1 in s.threads && s.threads[1] == Thread(Watching(Resting), NoCall)
    ensures After(s, [SetIdleTimeout(5)] + ([Tick(5)] + [WatchdogLoad(1)])) == Some(Watcher(s, Armed(5), None))
  {
    var s1 := s.(idleTimeout := 5);
    var s2 := s1.(now := 5);
    assert Enabled(s, SetIdleTimeout(5)) && Apply(s, SetIdleTimeout(5)) == s1;
    assert Enabled(s1, Tick(5)) && Apply(s1, Tick(5)) == s2;
    assert Enabled(s2, WatchdogLoad(1)) && Apply(s2, WatchdogLoad(1)) == Watcher(s, Armed(5), None);
    hide Enabled, Apply, After;
    AfterOne(s2, WatchdogLoad(1));
    AfterFirst(s1, Tick(5), [WatchdogLoad(1)]);
    AfterFirst(s, SetIdleTimeout(5), [Tick(5)] + [WatchdogLoad(1)]);
  }

  lemma ScanSteps(s: State, c: Cell)
    requires s.cells == map[Job := c] && c.registered
    ensures After(Watcher(s, Armed(5), None), [AcquireJobs(1)] + [WatchdogStart(1)]) == Some(Watcher(s, Scan(5, {Job}), Some(1)))
  {
    var s3, s4, s5 := Watcher(s, Armed(5), None), Watcher(s, Armed(5), Some(1)), Watcher(s, Scan(5, {Job}), Some(1));
    assert Enabled(s3, AcquireJobs(1)) && Apply(s3, AcquireJobs(1)) == s4;
    assert Registered(s4) == {Job};
    assert s4.threads[1 := Thread(Watching(Scan(5, {Job})), NoCall)] == s5.threads;
    assert Enabled(s4, WatchdogStart(1)) && Apply(s4, WatchdogStart(1)) == s5;
    hide Enabled, Apply, After;
    AfterOne(s4, WatchdogStart(1));
    AfterFirst(s3, AcquireJobs(1), [WatchdogStart(1)]);
  }

  lemma WatchRound(s: State, c: Cell)
    requires s.now == 0 && s.jobsLock.None? && s.cells == map[Job := c] && c.registered
    requires 1 in s.threads && s.threads[1] == Thread(Watching(Resting), NoCall)
    ensures After(s, WatchActions()).Some? && Scanning(After(s, WatchActions()).value, c)
  {
    hide Enabled, Apply, After;
    ArmSteps(s);
    ScanSteps(s, c);
    AfterAppend(s, [SetIdleTimeout(5)] + ([Tick(5)] + [WatchdogLoad(1)]), [AcquireJobs(1)] + [WatchdogStart(1)]);
  }

  /** A job that waits in the queue, was paused and resumed, and has never been picked up is
      timed out: the resumption counts as activity. */
  lemma QueuedJobTimesOut() returns (r: Run, n: nat)
    ensures ValidRun(r) && n < |r.actions| && WatchdogFires(r, n, Job)
    ensures Job in r.states[n].cells && r.states[n].cells[Job].stage == Waiting
  {
    hide Enabled, Apply, After, ValidRun;
    var s1 := Placed(Base().(queue := [Job]), 0, Job, Client, Queued(), None);
    var held := Toggled(Queued(), Pause, 0).(log := Queued().log + [ToggleEvent(Pause)]);
    var s2 := Placed(Base().(queue := [Job]), 0, Job, Client, held, None);
    var c := Toggled(held, Resume, 0).(log := held.log + [ToggleEvent(Resume)]);
    var s3 := Placed(Base().(queue := [Job]), 0, Job, Client, c, None);
    var a, b, d := StartActions(), ToggleActions(0, Pause, Job), ToggleActions(0, Resume, Job);
    StartRound();
    ToggleRound(Base().(queue := [Job]), 0, Job, Pause, Queued());
    ToggleRound(Base().(queue := [Job]), 0, Job, Resume, held);
    WatchRound(s3, c);
    AfterAppend(Idle(), a, b);
    AfterAppend(Idle(), a + b, d);
    AfterAppend(Idle(), a + b + d, WatchActions());
    var s4 := After(s3, WatchActions()).value;
    TestFires(s4, c);
    AfterOne(s4, WatchdogTest(1, Job));
    var all := a + b + d + WatchActions();
    AfterAppend(Idle(), all, [WatchdogTest(1, Job)]);
    IdleInitial();
    r := RunOf(Idle(), all + [WatchdogTest(1, Job)]);
    n := |all|;
    StateAt(r, all, WatchdogTest(1, Job), s4);
    FiresAt(r, n, c);
  }

  lemma IdleInitial()
    ensures Initial(Idle())
  {
  }

  lemma TestFires(s: State, c: Cell)
    requires Scanning(s, c)
    ensures Enabled(s, WatchdogTest(1, Job))
  {
  }

  /** The state in which the last action of a run is taken. */
  lemma StateAt(r: Run, front: seq<Action>, a: Action, s: State)
    requires ValidRun(r) && r.actions == front + [a] && After(r.states[0], front) == Some(s)
    ensures r.states[|front|] == s && r.actions[|front|] == a
  {
    hide Enabled, Apply;
    StateFrom(r, front, |front|);
    assert front[..|front|] == front;
  }

  lemma {:induction false} StateFrom(r: Run, front: seq<Action>, n: nat)
    requires ValidRun(r) && n <= |front| <= |r.actions| && r.actions[..|front|] == front
    ensures After(r.states[0], front[..n]) == Some(r.states[n])
  {
    hide Enabled, Apply, Initial;
    if n > 0 {
      StateFrom(r, front, n - 1);
      assert StepAt(r, n - 1);
      assert front[..n] == front[..n - 1] + [front[n - 1]] && r.actions[n - 1] == front[n - 1];
      AfterOne(r.states[n - 1], front[n - 1]);
      AfterAppend(r.states[0], front[..n - 1], [front[n - 1]]);
    }
  }

  lemma FiresAt(r: Run, n: nat, c: Cell)
    requires ValidRun(r) && n < |r.actions| && r.actions[n] == WatchdogTest(1, Job) && Scanning(r.states[n], c)
    requires c.status.Running? && !c.timedOut && !c.userCancelled && c.lastActivity == Some(0)
    ensures WatchdogFires(r, n, Job)
  {
    assert StepAt(r, n);
  }
}
