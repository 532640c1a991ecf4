/** Admission tokens are conserved, and bound the queue and the registry. */
module RuntimeAdmission {
  import opened Basics
  import opened JobEvents
  import opened HistoryTable
  import opened RuntimeModel
  import opened RuntimeInvariant
  import opened RuntimeSafety
  import opened RuntimeTheorems

  /** Threads inside `start_with_executor`, each with the token it acquired. */
  function Starters(s: State): set<ThreadId> {
    set t | t in s.threads && s.threads[t].pc.Starter?
  }

  /** Threads running a task, the token inside it. */
  function Workers(s: State): set<ThreadId> {
    set t | t in s.threads && s.threads[t].pc.Task?
  }

  function StarterJobs(s: State): set<JobId> {
    set j | j in s.cells && s.cells[j].stage.Starting?
  }

  function WorkerJobs(s: State): set<JobId> {
    set j | j in s.cells && s.cells[j].stage.OnWorker?
  }

  function WaitingJobs(s: State): set<JobId> {
    set j | j in s.cells && s.cells[j].stage.Waiting?
  }

  lemma StarterCount(s: State)
    requires Inv(s)
    ensures |StarterJobs(s)| == |Starters(s)|
  {
    hide JobOk, CountsOk, Distinct, WatchOk;
    forall t | t in Starters(s) ensures ThreadOk(s, t) {}
    forall j | j in StarterJobs(s) ensures CellOk(s, j) {}
    InjectionSize(Starters(s), StarterJobs(s), map t | t in Starters(s) :: s.threads[t].pc.j);
    InjectionSize(StarterJobs(s), Starters(s), map j | j in StarterJobs(s) :: s.cells[j].stage.t);
  }

  lemma WorkerCount(s: State)
    requires Inv(s)
    ensures |WorkerJobs(s)| == |Workers(s)|
  {
    hide JobOk, CountsOk, Distinct, WatchOk;
    forall t | t in Workers(s) ensures ThreadOk(s, t) {}
    forall j | j in WorkerJobs(s) ensures CellOk(s, j) {}
    InjectionSize(Workers(s), WorkerJobs(s), map t | t in Workers(s) :: s.threads[t].pc.j);
    InjectionSize(WorkerJobs(s), Workers(s), map j | j in WorkerJobs(s) :: s.cells[j].stage.t);
  }

  lemma WaitingCount(s: State)
    requires Inv(s)
    ensures |WaitingJobs(s)| == |s.queue|
  {
    hide JobOk, CountsOk, ThreadOk;
    forall j | j in s.cells ensures j in WaitingJobs(s) <==> j in s.queue {
      assert CellOk(s, j);
    }
    assert WaitingJobs(s) == set x | x in s.queue;
    ElementsOfDistinct(s.queue);
  }

  /** The counter is the number of tokens held by starters, the queue and the workers. */
  lemma TokensConserved(s: State)
    requires Inv(s)
    ensures s.admitted == |Starters(s)| + |s.queue| + |Workers(s)|
  {
    hide Inv, CountsOk;
    StarterCount(s);
    WaitingCount(s);
    WorkerCount(s);
    assert CountsOk(s) by { InvCounts(s); }
    TokenPartition(s);
  }

  lemma TokenPartition(s: State)
    requires CountsOk(s)
    ensures s.admitted == |StarterJobs(s)| + |WaitingJobs(s)| + |WorkerJobs(s)|
  {
    assert Tokens(s) == StarterJobs(s) + WaitingJobs(s) + WorkerJobs(s);
  }

  /** Admission is conserved in every reachable state: the counter equals the tokens held and
      never exceeds 64; so a starter that is about to send always finds room in the queue; every
      registered job without a terminal status holds a token; and the registry never has more
      than 128 + 64 entries. */
  lemma AdmissionConserved(r: Run, n: nat)
    requires ValidRun(r) && n < |r.states|
    ensures var s := r.states[n];
      && s.admitted == |Starters(s)| + |s.queue| + |Workers(s)|
      && 0 <= s.admitted <= ACTIVE_OPERATION_LIMIT
      && |Registered(s)| <= TERMINAL_JOB_RETENTION + ACTIVE_OPERATION_LIMIT
      && (forall t :: t in s.threads && AtStarter(s, t, Sending) ==> Enabled(s, Send(t)))
      && (forall j :: j in Registered(s) && !Terminal(s.cells[j].status) ==> j in Tokens(s))
  {
    hide Inv, ValidRun, Terminal, Starters;
    var s := r.states[n];
    RunKeepsInv(r, n);
    TokensConserved(s);
    assert CountsOk(s) by { InvCounts(s); }
    forall j | j in Registered(s) && !Terminal(s.cells[j].status) ensures j in Tokens(s) {
      RunningHasToken(s, j);
    }
    forall t | t in s.threads && AtStarter(s, t, Sending) ensures Enabled(s, Send(t)) {
      SenderIsStarter(s, t);
    }
  }

  lemma SenderIsStarter(s: State, t: ThreadId)
    requires t in s.threads && AtStarter(s, t, Sending)
    ensures |Starters(s)| >= 1
  {
    SubsetSize({t}, Starters(s));
  }

  /** A start is refused exactly when 64 tokens are out. */
  lemma AdmitRefused(r: Run, n: nat, t: ThreadId, j: JobId)
    requires ValidRun(r) && n < |r.states| && Enabled(r.states[n], Admit(t, j))
    ensures var s := r.states[n];
      (Apply(s, Admit(t, j)) == s <==> |Starters(s)| + |s.queue| + |Workers(s)| == ACTIVE_OPERATION_LIMIT)
  {
    hide ValidRun, Inv, Starters, Workers;
    AdmissionConserved(r, n);
  }
}
