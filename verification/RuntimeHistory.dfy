/** The persisted history agrees with the runtime. */
module RuntimeHistory {
  import opened Basics
  import opened JobEvents
  import opened HistoryTable
  import opened RuntimeModel
  import opened RuntimeInvariant
  import opened RuntimeSafety
  import opened RuntimeCancelSafety
  import opened RuntimeTheorems

  /** The worker of job j has written the terminal status and is about to write the row. */
  predicate Persisting(s: State, j: JobId) {
    j in s.cells && StationIn(s, j).Written?
  }

  /** As soon as a job's sink has been told anything, its row is "running" until the one moment
      at which the worker writes it; from then on it is the snapshot's final status and error
      code, or it has been deleted. */
  lemma HistoryAgrees(r: Run, n: nat, j: JobId)
    requires ValidRun(r) && n < |r.states| && j in r.states[n].cells
    ensures var s := r.states[n]; var c := s.cells[j]; var row := RowIn(s, j);
      && (c.log != [] && !Terminal(c.status) ==> row.Some? && row.value.status == RowRunning && row.value.code.None?)
      && (Persisting(s, j) ==> Terminal(c.status) && row.Some? && row.value.status == RowRunning)
      && (Terminal(c.status) && !Persisting(s, j) && row.Some? ==>
           row.value.status == StatusColumn(c.status) && row.value.code == c.code)
      && (row.Some? && !ActiveRow(row.value.status) ==> Terminal(c.status))
  {
    hide PhaseOf, Verdict, ValidRun, StationIn, OwedIn, LinksOk;
    JobInRun(r, n, j);
  }

  /** A row is active exactly while its job has no terminal status, or has one that the worker is
      still about to write. */
  lemma ActiveExactly(r: Run, n: nat, j: JobId)
    requires ValidRun(r) && n < |r.states| && j in r.states[n].cells && j in r.states[n].table
    ensures var s := r.states[n];
      ActiveRow(s.table[j].status) <==> !Terminal(s.cells[j].status) || Persisting(s, j)
  {
    hide ValidRun, Persisting;
    HistoryAgrees(r, n, j);
  }

  /** If the program ends in whatever state and starts again, recovery leaves every row of the run
      as "interrupted" or as the final status, and interrupted exactly if the final status had not
      been written yet. */
  lemma CrashRecovery(r: Run, n: nat, j: JobId, now: Time)
    requires ValidRun(r) && n < |r.states| && j in r.states[n].cells && j in r.states[n].table
    ensures var s := r.states[n]; var c := s.cells[j]; var after := WithInterrupted(s.table, now);
      && j in after
      && (after[j].status == RowInterrupted <==> !Terminal(c.status) || Persisting(s, j))
      && (Terminal(c.status) && !Persisting(s, j) ==> after[j] == s.table[j] && after[j].status == StatusColumn(c.status) && after[j].code == c.code)
  {
    hide ValidRun, Persisting;
    HistoryAgrees(r, n, j);
    ActiveExactly(r, n, j);
  }

  /** Clearing the history deletes exactly the rows that are settled: a job that is still to be
      written keeps its row, so its final status is not lost. */
  lemma ClearKeepsUnsettled(r: Run, n: nat, j: JobId)
    requires ValidRun(r) && n < |r.states| && j in r.states[n].cells && j in r.states[n].table
    ensures var s := r.states[n];
      j in Apply(s, ClearHistory).table <==> !Terminal(s.cells[j].status) || Persisting(s, j)
  {
    hide ValidRun, Persisting;
    ActiveExactly(r, n, j);
  }

  /** A row that is no longer active is only ever deleted, never written again. */
  lemma SettledRowStep(s: State, a: Action, j: JobId)
    requires Inv(s) && Enabled(s, a) && j in s.table && !ActiveRow(s.table[j].status)
    ensures j in Apply(s, a).table ==> Apply(s, a).table[j] == s.table[j]
  {
    hide Inv, OwnStep, OwnEnabled, Stalled, UserFlagged, WatchdogFlagged, HoldsGate, InSink, NeedsJobs, Prunable;
    if a.RecordStart? {
      RecordingRowAbsent(s, a.t);
    } else if a.PersistFinal? {
      PersistingRowActive(s, a.t);
    }
  }

  lemma RecordingRowAbsent(s: State, t: ThreadId)
    requires Inv(s) && AtStarter(s, t, Inserted)
    ensures s.threads[t].pc.j !in s.table
  {
    hide PhaseOf, Verdict;
    OwnFits(s, t);
  }

  lemma PersistingRowActive(s: State, t: ThreadId)
    requires Inv(s) && AtTask(s, t) && s.threads[t].pc.w.Persist?
    ensures var j := s.threads[t].pc.j; j in s.table && ActiveRow(s.table[j].status)
  {
    hide PhaseOf, Verdict;
    OwnFits(s, t);
  }

  lemma DeletedRowStep(s: State, a: Action, j: JobId)
    requires Inv(s) && Enabled(s, a) && j in s.cells && j !in s.table && s.cells[j].log != []
    ensures j !in Apply(s, a).table
  {
    hide Inv, OwnStep, OwnEnabled, Stalled, UserFlagged, WatchdogFlagged, HoldsGate, InSink, NeedsJobs, Prunable;
    if a.RecordStart? {
      RecordingUnannounced(s, a.t);
    }
  }

  lemma RecordingUnannounced(s: State, t: ThreadId)
    requires Inv(s) && AtStarter(s, t, Inserted)
    ensures s.cells[s.threads[t].pc.j].log == []
  {
    hide PhaseOf, Verdict;
    OwnFits(s, t);
  }

  /** One terminal write: once a job's row is settled it keeps its value until it is deleted,
      and a deleted row does not come back. */
  lemma {:induction false} SettledRowStays(r: Run, i: nat, k: nat, j: JobId)
    requires ValidRun(r) && i <= k < |r.states| && j in r.states[i].cells && j in r.states[i].table
    requires !ActiveRow(r.states[i].table[j].status)
    ensures j in r.states[k].table ==> r.states[k].table[j] == r.states[i].table[j]
    ensures forall m :: i <= m <= k && j !in r.states[m].table ==> j !in r.states[k].table
  {
    hide Inv, Enabled, Apply, Initial, JobEvolves;
    if i < k {
      SettledRowStays(r, i, k - 1, j);
      RunKeepsInv(r, k - 1);
      assert StepAt(r, k - 1);
      if j in r.states[k - 1].table {
        SettledRowStep(r.states[k - 1], r.actions[k - 1], j);
      } else {
        SettledWasAnnounced(r, i, k - 1, j);
        DeletedRowStep(r.states[k - 1], r.actions[k - 1], j);
      }
    }
  }

  lemma SettledWasAnnounced(r: Run, i: nat, k: nat, j: JobId)
    requires ValidRun(r) && i <= k < |r.states| && j in r.states[i].cells && j in r.states[i].table
    requires !ActiveRow(r.states[i].table[j].status)
    ensures j in r.states[k].cells && r.states[k].cells[j].log != []
  {
    hide ValidRun, PhaseOf, Verdict, StationIn, OwedIn, LinksOk, ProgressCount;
    JobInRun(r, i, j);
    assert r.states[i].cells[j].log != [] by { SettledHasLog(r.states[i].cells[j], StationIn(r.states[i], j), OwedIn(r.states[i], j), r.states[i].table[j]); }
    RunEvolves(r, i, k, j);
  }

  lemma SettledHasLog(c: Cell, at: Station, owed: Owed, row: Row)
    requires JobOk(c, at, owed, Some(row)) && !ActiveRow(row.status)
    ensures c.log != []
  {
  }
}
