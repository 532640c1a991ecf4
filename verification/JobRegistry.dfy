/** The lock-protected regions of the job runtime, as they update the registry in place. For every
    state of the machine with this registry, in which a thread is about to execute the region, the
    machine's actions lead to the registry that the method leaves behind. */
module JobRegistry {
  import opened Basics
  import opened JobEvents
  import opened RuntimeModel
  import opened RuntimeSafety
  import opened RuntimeSteps
  import opened RuntimeRegions
  import opened TimeOrder

  datatype Error =
    | NotFound(id: JobId)
    | InvalidTransition(id: JobId, status: Status)
    | ResourceLimit(limit: nat)

  class OperationRuntime {
    /** The registry: every entry is registered. */
    var jobs: map<JobId, Cell>
    var admittedJobs: nat

    predicate Valid()
      reads this
    {
      forall j :: j in jobs ==> jobs[j].registered
    }

    constructor ()
      ensures Valid() && jobs == map[] && admittedJobs == 0
    {
      jobs := map[];
      admittedJobs := 0;
    }

    /** `JobAdmission::acquire`. */
    method Acquire() returns (r: Result<(), Error>)
      modifies this`admittedJobs
      ensures if old(admittedJobs) < ACTIVE_OPERATION_LIMIT
        then r == Success(()) && admittedJobs == old(admittedJobs) + 1
        else r == Failure(ResourceLimit(ACTIVE_OPERATION_LIMIT)) && admittedJobs == old(admittedJobs)
      ensures forall s: State, t, j :: AdmittingAt(s, t, j, old(admittedJobs)) ==> ReachesCount(s, [Admit(t, j)], admittedJobs)
    {
      forall s: State, t, j | AdmittingAt(s, t, j, admittedJobs)
        ensures ReachesCount(s, [Admit(t, j)], if admittedJobs < ACTIVE_OPERATION_LIMIT then admittedJobs + 1 else admittedJobs)
      {
        AdmitRegion(s, t, j);
      }
      if admittedJobs < ACTIVE_OPERATION_LIMIT {
        admittedJobs := admittedJobs + 1;
        r := Success(());
      } else {
        r := Failure(ResourceLimit(ACTIVE_OPERATION_LIMIT));
      }
    }

    /** `drop` of a `JobAdmission`: subtract one, wrapping around as the machine does. */
    method Release()
      modifies this`admittedJobs
      ensures admittedJobs == if old(admittedJobs) == 0 then USIZE_MAX else old(admittedJobs) - 1
      ensures forall s: State, t :: DroppingAt(s, t, old(admittedJobs)) ==> ReachesCount(s, [DropToken(t)], admittedJobs)
    {
      forall s: State, t | DroppingAt(s, t, admittedJobs) ensures admittedJobs > 0 && ReachesCount(s, [DropToken(t)], admittedJobs - 1) {
        DropRegion(s, t);
      }
      admittedJobs := if admittedJobs == 0 then USIZE_MAX else admittedJobs - 1;
    }

    /** The terminal entries with the time of their last update, in no particular order. */
    method CollectTerminal() returns (q: seq<Stamp>)
      requires Valid()
      ensures DistinctIds(q) && Ids(q) == TerminalEntries(jobs)
      ensures forall k :: 0 <= k < |q| ==> q[k].id in jobs && q[k].at == jobs[q[k].id].updatedAt
    {
      q := [];
      var todo := jobs.Keys;
      while todo != {}
        invariant todo <= jobs.Keys
        invariant DistinctIds(q) && Ids(q) == TerminalEntries(jobs) - todo
        invariant forall k :: 0 <= k < |q| ==> q[k].id in jobs && q[k].at == jobs[q[k].id].updatedAt
        decreases todo
      {
        var j :| j in todo;
        ghost var before := q;
        if Terminal(jobs[j].status) {
          forall k | 0 <= k < |q| ensures q[k].id != j { assert q[k].id in Ids(q); }
          q := q + [Stamp(j, jobs[j].updatedAt)];
          AppendIds(before, Stamp(j, jobs[j].updatedAt));
        }
        todo := todo - {j};
      }
    }

    /** `prune_terminal_jobs`: sort by the last update and remove from the front. */
    method PruneTerminalJobs() returns (ghost pruned: set<JobId>)
      requires Valid()
      modifies this`jobs
      ensures Valid()
      ensures PrunableEntries(old(jobs), pruned) && jobs == old(jobs) - pruned
    {
      var terminal := CollectTerminal();
      IdCount(terminal);
      assert jobs - {} == jobs;
      if |terminal| <= TERMINAL_JOB_RETENTION {
        pruned := {};
        return;
      }
      var sorted := SortByTime(terminal);
      SortedIds(terminal, sorted, map j | j in jobs :: jobs[j].updatedAt);
      var cut := |sorted| - TERMINAL_JOB_RETENTION;
      CutByAge(sorted, cut, map j | j in jobs :: jobs[j].updatedAt);
      RemoveFront(sorted, cut);
      pruned := Ids(sorted[..cut]);
    }

    /** Remove the entries of the first `cut` stamps. */
    method RemoveFront(sorted: seq<Stamp>, cut: nat)
      requires Valid() && cut <= |sorted|
      modifies this`jobs
      ensures Valid() && jobs == old(jobs) - Ids(sorted[..cut])
    {
      assert Ids(sorted[..0]) == {};
      assert jobs == jobs - {};
      for i := 0 to cut
        invariant jobs == old(jobs) - Ids(sorted[..i])
      {
        jobs := jobs - {sorted[i].id};
        assert sorted[..i + 1] == sorted[..i] + [sorted[i]];
        AppendIds(sorted[..i], sorted[i]);
      }
    }

    /** The region of `start_with_executor`: prune, then insert the entry made before. */
    method InsertJob(j: JobId, entry: Cell) returns (ghost pruned: set<JobId>)
      requires Valid() && j !in jobs
      modifies this`jobs
      ensures Valid()
      ensures PrunableEntries(old(jobs), pruned)
      ensures jobs == (old(jobs) - pruned)[j := entry.(registered := true)]
      ensures forall s: State, t :: Inserting(s, t, j, entry) && RegistryOf(s) == old(jobs) ==> Reaches(s, [Insert(t, pruned)], jobs)
    {
      pruned := PruneTerminalJobs();
      jobs := jobs[j := entry.(registered := true)];
      forall s: State, t | Inserting(s, t, j, entry) && RegistryOf(s) == old(jobs) ensures Reaches(s, [Insert(t, pruned)], jobs) {
        InsertRegion(s, t, j, entry, pruned);
      }
    }

    /** The first region of the task. */
    method BeginTask(j: JobId, t: ThreadId, now: Time)
      requires Valid()
      modifies this`jobs
      ensures Valid()
      ensures jobs == if j in old(jobs) then old(jobs)[j := TaskStep(t, Picked, old(jobs)[j], now, NoChoice).cell] else old(jobs)
      ensures j in old(jobs) ==>
        && jobs == old(jobs)[j := jobs[j]]
        && jobs[j].lastActivity == Some(now) && jobs[j].updatedAt == now
        && jobs[j].(lastActivity := old(jobs)[j].lastActivity, updatedAt := old(jobs)[j].updatedAt) == old(jobs)[j]
      ensures forall s: State :: Here(s, t, Task(j, Picked), now) && RegistryOf(s) == old(jobs) ==> Reaches(s, [Own(t, NoChoice)], jobs)
    {
      if j in jobs {
        jobs := jobs[j := jobs[j].(lastActivity := Some(now), updatedAt := now)];
      }
      forall s: State | Here(s, t, Task(j, Picked), now) && RegistryOf(s) == old(jobs) ensures Reaches(s, [Own(t, NoChoice)], jobs) {
        BeginRegion(s, t, j, now);
      }
    }

    /** `update_snapshot_progress`. */
    method UpdateSnapshotProgress(j: JobId, p: Report, now: Time) returns (accepted: bool)
      requires Valid()
      modifies this`jobs
      ensures Valid()
      ensures accepted <==> j in old(jobs) && AcceptsProgress(old(jobs)[j])
      ensures jobs == if accepted then old(jobs)[j := WithProgress(old(jobs)[j], p, now)] else old(jobs)
      ensures accepted <==>
        j in old(jobs) && old(jobs)[j].status == Running && !old(jobs)[j].timedOut && !old(jobs)[j].userCancelled
      ensures accepted ==>
        && jobs == old(jobs)[j := jobs[j]]
        && jobs[j].item == p.item && jobs[j].items == p.items && jobs[j].bytes == p.bytes
        && jobs[j].updatedAt == p.at && jobs[j].lastActivity == Some(now)
        && SameOtherwise(old(jobs)[j], jobs[j])
      ensures !accepted ==> jobs == old(jobs)
      ensures forall s: State, t ::
        Here(s, t, Task(j, ProgressCheck(p)), now) && RegistryOf(s) == old(jobs) ==> Reaches(s, [Own(t, NoChoice)], jobs)
    {
      forall s: State, t | Here(s, t, Task(j, ProgressCheck(p)), now) && RegistryOf(s) == jobs
        ensures Reaches(s, [Own(t, NoChoice)], if j in jobs && AcceptsProgress(jobs[j]) then jobs[j := WithProgress(jobs[j], p, now)] else jobs)
      {
        ReportRegion(s, t, j, p, now);
      }
      if j in jobs {
        var state := jobs[j];
        if state.status != Running || state.timedOut || state.userCancelled {
          return false;
        }
        state := state.(item := p.item);
        state := state.(items := p.items, bytes := p.bytes);
        state := state.(updatedAt := p.at, lastActivity := Some(now));
        jobs := jobs[j := state];
        return true;
      }
      return false;
    }

    /** `update_snapshot_status`. */
    method UpdateSnapshotStatus(j: JobId, st: Status, code: Option<string>, now: Time)
      requires Valid()
      modifies this`jobs
      ensures Valid()
      ensures jobs == if j in old(jobs) then old(jobs)[j := WithStatus(old(jobs)[j], st, code, now)] else old(jobs)
      ensures j in old(jobs) ==>
        && jobs == old(jobs)[j := jobs[j]]
        && jobs[j].status == st && jobs[j].code == code && jobs[j].updatedAt == now
        && jobs[j].(status := old(jobs)[j].status, code := old(jobs)[j].code, updatedAt := old(jobs)[j].updatedAt) == old(jobs)[j]
      ensures forall s: State, t ::
        Here(s, t, Task(j, Finish(st, code)), now) && RegistryOf(s) == old(jobs) ==> Reaches(s, [Own(t, NoChoice)], jobs)
    {
      if j in jobs {
        jobs := jobs[j := jobs[j].(status := st, code := code, updatedAt := now)];
      }
      forall s: State, t | Here(s, t, Task(j, Finish(st, code)), now) && RegistryOf(s) == old(jobs) ensures Reaches(s, [Own(t, NoChoice)], jobs) {
        FinishRegion(s, t, j, st, code, now);
      }
    }

    /** `cancel`: flag first, token second. */
    method Cancel(j: JobId) returns (r: Result<Cell, Error>)
      requires Valid()
      modifies this`jobs
      ensures Valid()
      ensures j !in old(jobs) ==> r == Failure(NotFound(j)) && jobs == old(jobs)
      ensures j in old(jobs) ==>
        && jobs == old(jobs)[j := UserFlagged(old(jobs)[j]).(cancelled := true)]
        && r == Success(jobs[j])
      ensures j in old(jobs) ==>
        && jobs[j].cancelled && jobs[j].timedOut == old(jobs)[j].timedOut
        && (jobs[j].userCancelled <==> old(jobs)[j].userCancelled || !old(jobs)[j].timedOut)
        && jobs[j].status == old(jobs)[j].status
      ensures forall s: State, t :: Cancelling(s, t, j) && RegistryOf(s) == old(jobs) ==>
        Reaches(s, if j in old(jobs) then [CancelFlag(t), CancelToken(t)] else [CancelFlag(t)], jobs)
    {
      forall s: State, t | Cancelling(s, t, j) && RegistryOf(s) == jobs
        ensures Reaches(s, if j in jobs then [CancelFlag(t), CancelToken(t)] else [CancelFlag(t)],
          if j in jobs then jobs[j := UserFlagged(jobs[j]).(cancelled := true)] else jobs)
      {
        CancelRegion(s, t, j);
      }
      if j !in jobs {
        return Failure(NotFound(j));
      }
      var state := jobs[j];
      if !state.timedOut {
        state := state.(userCancelled := true);
      }
      state := state.(cancelled := true);
      jobs := jobs[j := state.(first := FirstOf(state.first, User))];
      return Success(jobs[j]);
    }

    /** The region of `pause_job` and `resume_job`, with the event to emit, if any. */
    method ToggleJob(j: JobId, k: ToggleKind, t: ThreadId, now: Time) returns (r: Result<(Cell, Option<Event>), Error>)
      requires Valid()
      modifies this`jobs
      ensures Valid()
      ensures j !in old(jobs) ==> r == Failure(NotFound(j)) && jobs == old(jobs)
      ensures j in old(jobs) ==>
        var c := old(jobs)[j];
        var m := ToggleStep(t, k, Check, c, now, NoChoice);
        && jobs == old(jobs)[j := m.cell]
        && (c.status == ToggleTarget(k) ==> r == Success((c, None)))
        && (c.status == ToggleSource(k) ==> r == Success((m.cell, Some(ToggleEvent(k)))))
        && (c.status != ToggleTarget(k) && c.status != ToggleSource(k) ==> r == Failure(InvalidTransition(j, c.status)))
      ensures j in old(jobs) && k.Pause? ==>
        var c, c' := old(jobs)[j], jobs[j];
        if c.status == Running then c'.status == Paused && c'.paused && c'.updatedAt == now && c'.lastActivity == c.lastActivity && r == Success((c', Some(EvPaused)))
        else jobs == old(jobs) && r == (if c.status == Paused then Success((c, None)) else Failure(InvalidTransition(j, c.status)))
      ensures j in old(jobs) && k.Resume? ==>
        var c, c' := old(jobs)[j], jobs[j];
        if c.status == Paused then c'.status == Running && !c'.paused && c'.updatedAt == now && c'.lastActivity == Some(now) && r == Success((c', Some(EvResumed)))
        else jobs == old(jobs) && r == (if c.status == Running then Success((c, None)) else Failure(InvalidTransition(j, c.status)))
      ensures forall s: State :: Here(s, t, Toggling(j, k, Check), now) && RegistryOf(s) == old(jobs) ==> Reaches(s, [Own(t, NoChoice)], jobs)
    {
      forall s: State | Here(s, t, Toggling(j, k, Check), now) && RegistryOf(s) == jobs
        ensures Reaches(s, [Own(t, NoChoice)], if j in jobs then jobs[j := ToggleStep(t, k, Check, jobs[j], now, NoChoice).cell] else jobs)
      {
        ToggleRegion(s, t, j, k, now);
      }
      if j !in jobs {
        return Failure(NotFound(j));
      }
      var state := jobs[j];
      if state.status == ToggleTarget(k) {
        return Success((state, None));
      }
      if state.status != ToggleSource(k) {
        return Failure(InvalidTransition(j, state.status));
      }
      if k.Pause? {
        state := state.(paused := true);
        state := state.(status := Paused, updatedAt := now);
      } else {
        state := state.(paused := false);
        state := state.(status := Running, updatedAt := now);
        state := state.(lastActivity := Some(now));
      }
      jobs := jobs[j := state];
      return Success((state, Some(ToggleEvent(k))));
    }

    /** One pass of the watchdog over the entries, in any order, under the jobs lock. `waits` is
        the time that passes before each entry is looked at. */
    method WatchdogPass(timeout: Time, now: Time, waits: seq<Time>) returns (ghost looks: seq<Look>)
      requires Valid() && |waits| >= |jobs|
      modifies this`jobs
      ensures Valid()
      ensures Covers(looks, old(jobs).Keys) && jobs == Passed(old(jobs), now, timeout, looks).0
      ensures jobs.Keys == old(jobs).Keys
      ensures forall j :: j in jobs ==>
        var c := old(jobs)[j];
        var overdue := c.status == Running && !c.timedOut && !c.userCancelled && c.lastActivity.Some? && c.lastActivity.value + timeout <= now;
        overdue ==> jobs[j].timedOut && jobs[j].cancelled
      ensures forall j :: j in jobs ==>
        var c := old(jobs)[j];
        var spared := c.status != Running || c.timedOut || c.userCancelled || c.lastActivity.None? || c.lastActivity.value + timeout > now + Total(waits);
        spared ==> jobs[j] == c
      ensures forall j :: j in jobs ==>
        jobs[j] == old(jobs)[j] || jobs[j] == old(jobs)[j].(timedOut := true, cancelled := true, first := jobs[j].first)
      ensures forall s: State, t :: ArmedAt(s, t, timeout, now) && RegistryOf(s) == old(jobs) ==>
        Reaches(s, [WatchdogStart(t)] + PassActions(t, old(jobs), now, timeout, looks), jobs)
    {
      hide Reaches, Stalled, Watched;
      var todo, clock, n := jobs.Keys, now, 0;
      looks := [];
      while todo != {}
        invariant Valid() && todo <= jobs.Keys == old(jobs).Keys
        invariant n + |todo| <= |waits|
        invariant CoversBut(looks, old(jobs).Keys, todo)
        invariant Passed(old(jobs), now, timeout, looks) == (jobs, clock)
        invariant n <= |waits| && clock == now + Total(waits[..n])
        decreases todo
      {
        var j :| j in todo;
        TotalStep(waits, n);
        clock := clock + waits[n];
        var state := LookAt(jobs[j], clock, timeout);
        jobs := jobs[j := state];
        PassedAppend(old(jobs), now, timeout, looks, Look(j, waits[n]));
        CoversAppend(looks, old(jobs).Keys, todo, Look(j, waits[n]));
        looks := looks + [Look(j, waits[n])];
        todo := todo - {j};
        n := n + 1;
      }
      CoversAll(looks, old(jobs).Keys);
      TotalPart(waits, n);
      forall j | j in jobs ensures Judged(old(jobs)[j], jobs[j], timeout, now, now + Total(waits)) {
        PassJudges(old(jobs), now, timeout, looks, j);
        JudgedLater(old(jobs)[j], jobs[j], timeout, now, clock, now + Total(waits));
      }
      forall s: State, t | ArmedAt(s, t, timeout, now) && RegistryOf(s) == old(jobs)
        ensures Reaches(s, [WatchdogStart(t)] + PassActions(t, old(jobs), now, timeout, looks), jobs)
      {
        PassRegion(s, t, timeout, now, looks);
      }
    }
  }

  const USIZE_MAX: nat := 0xFFFF_FFFF_FFFF_FFFF

  ghost predicate AdmittingAt(s: State, t: ThreadId, j: JobId, count: int) {
    Enabled(s, Admit(t, j)) && s.admitted == count
  }

  ghost predicate DroppingAt(s: State, t: ThreadId, count: int) {
    Enabled(s, DropToken(t)) && Inv(s) && s.admitted == count
  }

  /** All fields but those that a report sets. */
  predicate SameOtherwise(c: Cell, c': Cell) {
    c'.(item := c.item, items := c.items, bytes := c.bytes, updatedAt := c.updatedAt, lastActivity := c.lastActivity) == c
  }

  function Total(waits: seq<Time>): nat {
    if waits == [] then 0 else Total(waits[..|waits| - 1]) + waits[|waits| - 1]
  }

  lemma TotalStep(waits: seq<Time>, n: nat)
    requires n < |waits|
    ensures Total(waits[..n + 1]) == Total(waits[..n]) + waits[n]
  {
    assert waits[..n + 1][..n] == waits[..n];
  }

  lemma {:induction false} TotalPart(waits: seq<Time>, n: nat)
    requires n <= |waits|
    ensures Total(waits[..n]) <= Total(waits)
    decreases |waits| - n
  {
    if n < |waits| {
      TotalStep(waits, n);
      TotalPart(waits, n + 1);
    } else {
      assert waits[..n] == waits;
    }
  }

  /** An entry that is overdue when the pass begins is stopped; one that is not overdue when it
      ends, or not to be watched, is left alone. */
  predicate Judged(c: Cell, c': Cell, timeout: Time, begin: Time, end: Time) {
    var watched := c.status == Running && !c.timedOut && !c.userCancelled && c.lastActivity.Some?;
    && (watched && c.lastActivity.value + timeout <= begin ==> c'.timedOut && c'.cancelled)
    && (!watched || c.lastActivity.value + timeout > end ==> c' == c)
    && (c' == c || c' == c.(timedOut := true, cancelled := true, first := c'.first))
  }

  lemma PassJudges(jobs: map<JobId, Cell>, now: Time, timeout: Time, looks: seq<Look>, j: JobId)
    requires Covers(looks, jobs.Keys) && j in jobs
    ensures var (after, end) := Passed(jobs, now, timeout, looks);
      j in after && Judged(jobs[j], after[j], timeout, now, end)
  {
    PassMeaning(jobs, now, timeout, looks, jobs.Keys, j);
  }

  lemma JudgedLater(c: Cell, c': Cell, timeout: Time, begin: Time, end: Time, later: Time)
    requires Judged(c, c', timeout, begin, end) && end <= later
    ensures Judged(c, c', timeout, begin, later)
  {
  }

  /** What the pass does with one entry. */
  method LookAt(entry: Cell, now: Time, timeout: Time) returns (state: Cell)
    ensures state == Watched(entry, now, timeout) && state.registered == entry.registered
  {
    state := entry;
    if state.status != Running || state.timedOut || state.userCancelled {
      return;
    }
    if state.lastActivity.None? {
      return;
    }
    if now >= state.lastActivity.value + timeout {
      state := state.(timedOut := true, first := FirstOf(state.first, Watchdog));
      state := state.(cancelled := true);
    }
  }

  lemma {:induction false} PassedAppend(jobs: map<JobId, Cell>, now: Time, timeout: Time, looks: seq<Look>, l: Look)
    ensures var (after, end) := Passed(jobs, now, timeout, looks);
      Passed(jobs, now, timeout, looks + [l]) ==
        (if l.j in after then after[l.j := Watched(after[l.j], end + l.wait, timeout)] else after, end + l.wait)
    decreases |looks|
  {
    hide Watched;
    if looks == [] {
      assert [] + [l] == [l] && [l][1..] == [];
    } else {
      var first := looks[0];
      var moment := now + first.wait;
      assert (looks + [l])[1..] == looks[1..] + [l];
      PassedAppend(if first.j in jobs then jobs[first.j := Watched(jobs[first.j], moment, timeout)] else jobs, moment, timeout, looks[1..], l);
    }
  }

  /** Each entry has been looked at once, but for those in `todo`. */
  predicate CoversBut(looks: seq<Look>, all: set<JobId>, todo: set<JobId>)
    decreases |looks|
  {
    if looks == [] then todo == all else looks[0].j in all && looks[0].j !in todo && CoversBut(looks[1..], all - {looks[0].j}, todo)
  }

  lemma {:induction false} CoversAppend(looks: seq<Look>, all: set<JobId>, todo: set<JobId>, l: Look)
    requires CoversBut(looks, all, todo) && l.j in todo && todo <= all
    ensures CoversBut(looks + [l], all, todo - {l.j})
    decreases |looks|
  {
    if looks == [] {
      assert [] + [l] == [l] && [l][1..] == [];
    } else {
      assert (looks + [l])[1..] == looks[1..] + [l];
      CoversAppend(looks[1..], all - {looks[0].j}, todo, l);
    }
  }

  lemma {:induction false} CoversAll(looks: seq<Look>, all: set<JobId>)
    requires CoversBut(looks, all, {})
    ensures Covers(looks, all)
    decreases |looks|
  {
    if looks != [] { CoversAll(looks[1..], all - {looks[0].j}); }
  }
}
