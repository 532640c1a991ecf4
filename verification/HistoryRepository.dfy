/** The operation history as its repository updates it, one method per statement. For every state of
    the job runtime with this table, in which the statement is due, the machine's action leads to
    the table that the method leaves behind. */
module HistoryRepository {
  import opened Basics
  import opened JobEvents
  import opened HistoryTable
  import opened RuntimeModel
  import opened RuntimeSteps
  import opened RuntimeRegions
  import opened TimeOrder

  class OperationHistoryRepository {
    var rows: Table

    constructor ()
      ensures rows == map[]
    {
      rows := map[];
    }

    /** At start-up: whatever was active was interrupted; nothing stays active, no other row
        changes, and the number of updated rows is returned. */
    method MarkInterruptedJobs(now: Time) returns (updated: nat)
      modifies this
      ensures rows == WithInterrupted(old(rows), now)
      ensures updated == |set id | id in old(rows) && ActiveRow(old(rows)[id].status)|
      ensures rows.Keys == old(rows).Keys
      ensures forall id :: id in rows ==>
        var row := old(rows)[id];
        if row.status == RowQueued || row.status == RowRunning || row.status == RowCancelling
        then rows[id] == Row(RowInterrupted, row.startedAt, Some(now), Some("interrupted")) else rows[id] == row
    {
      var todo := set id | id in rows && ActiveRow(rows[id].status);
      ghost var active := todo;
      updated := 0;
      while todo != {}
        invariant todo <= active && updated + |todo| == |active|
        invariant rows.Keys == old(rows).Keys
        invariant active == set id | id in old(rows) && ActiveRow(old(rows)[id].status)
        invariant forall id :: id in rows ==>
          rows[id] == (if id in active && id !in todo then WithInterrupted(old(rows), now)[id] else old(rows)[id])
        decreases todo
      {
        var id :| id in todo;
        rows := rows[id := Row(RowInterrupted, rows[id].startedAt, Some(now), Some("interrupted"))];
        todo := todo - {id};
        updated := updated + 1;
      }
    }

    method InsertStarted(id: JobId, startedAt: Time)
      modifies this
      ensures rows == WithStarted(old(rows), id, startedAt)
      ensures rows == old(rows)[id := rows[id]]
      ensures rows[id].status == RowRunning && rows[id].startedAt == startedAt && rows[id].completedAt == None && rows[id].code == None
      ensures forall s: State, t :: Recording(s, t, id, startedAt) && s.table == old(rows) ==> ReachesTable(s, [RecordStart(t)], rows)
    {
      rows := rows[id := Row(RowRunning, startedAt, None, None)];
      forall s: State, t | Recording(s, t, id, startedAt) && s.table == old(rows) ensures ReachesTable(s, [RecordStart(t)], rows) {
        AfterOne(s, RecordStart(t));
      }
    }

    method UpdateTerminal(id: JobId, status: Status, code: Option<string>, now: Time)
      modifies this
      ensures rows == WithTerminal(old(rows), id, status, code, now)
      ensures id !in old(rows) ==> rows == old(rows)
      ensures id in old(rows) ==>
        && rows == old(rows)[id := rows[id]]
        && rows[id].startedAt == old(rows)[id].startedAt && rows[id].completedAt == Some(now) && rows[id].code == code
        && (status == Completed ==> rows[id].status == RowCompleted)
        && (status == Failed ==> rows[id].status == RowFailed)
        && (status == Cancelled ==> rows[id].status == RowCancelled)
      ensures forall s: State, t :: Closing(s, t, id, status, code, now) && s.table == old(rows) ==> ReachesTable(s, [PersistFinal(t)], rows)
    {
      if id in rows {
        rows := rows[id := Row(StatusColumn(status), rows[id].startedAt, Some(now), code)];
      }
      forall s: State, t | Closing(s, t, id, status, code, now) && s.table == old(rows) ensures ReachesTable(s, [PersistFinal(t)], rows) {
        AfterOne(s, PersistFinal(t));
      }
    }

    method CollectTerminalRows() returns (q: seq<Stamp>)
      ensures DistinctIds(q) && Ids(q) == TerminalIds(rows)
      ensures forall k :: 0 <= k < |q| ==> q[k].id in rows && q[k].at == rows[q[k].id].startedAt
    {
      q := [];
      var todo := rows.Keys;
      while todo != {}
        invariant todo <= rows.Keys
        invariant DistinctIds(q) && Ids(q) == TerminalIds(rows) - todo
        invariant forall k :: 0 <= k < |q| ==> q[k].id in rows && q[k].at == rows[q[k].id].startedAt
        decreases todo
      {
        var id :| id in todo;
        if !ActiveRow(rows[id].status) {
          forall k | 0 <= k < |q| ensures q[k].id != id { assert q[k].id in Ids(q); }
          AppendIds(q, Stamp(id, rows[id].startedAt));
          q := q + [Stamp(id, rows[id].startedAt)];
        }
        todo := todo - {id};
      }
    }

    /** The deletion itself. */
    method DeleteOldest(quota: nat) returns (deleted: nat)
      requires quota > 0
      modifies this
      ensures Retained(old(rows), quota, rows)
      ensures deleted == |TerminalIds(old(rows))| - |TerminalIds(rows)|
    {
      var terminal := CollectTerminalRows();
      IdCount(terminal);
      if |terminal| <= quota {
        return 0;
      }
      var sorted := SortByTime(terminal);
      ghost var time := map id | id in rows :: rows[id].startedAt;
      SortedIds(terminal, sorted, time);
      deleted := |sorted| - quota;
      CutByAge(sorted, deleted, time);
      var oldest := Ids(sorted[..deleted]);
      rows := map id | id in rows && id !in oldest :: rows[id];
      assert TerminalIds(rows) == TerminalIds(old(rows)) - oldest;
    }

    /** Keeps every active row and exactly the newest terminal ones. */
    method CleanupTerminalHistory(retainCount: nat) returns (deleted: nat)
      modifies this
      ensures Retained(old(rows), retainCount, rows)
      ensures deleted == |TerminalIds(old(rows))| - |TerminalIds(rows)|
      ensures retainCount == HISTORY_RETENTION_LIMIT ==> TrimSteps(old(rows), rows)
    {
      hide TrimSteps;
      deleted := DeleteOldest(if retainCount == 0 then 1 else retainCount);
      assert Retained(old(rows), retainCount, rows);
      hide Retained, TerminalIds;
      RetainedIsStep(old(rows), retainCount, rows);
    }

    method ClearTerminalHistory() returns (deleted: nat)
      modifies this
      ensures rows == WithoutTerminal(old(rows))
      ensures deleted == |TerminalIds(old(rows))|
      ensures forall id :: id in rows <==>
        id in old(rows) && (old(rows)[id].status == RowQueued || old(rows)[id].status == RowRunning || old(rows)[id].status == RowCancelling)
      ensures forall id :: id in rows ==> rows[id] == old(rows)[id]
      ensures forall s: State :: s.table == old(rows) ==> ReachesTable(s, [ClearHistory], rows)
    {
      deleted := |TerminalIds(rows)|;
      rows := map id | id in rows && ActiveRow(rows[id].status) :: rows[id];
      forall s: State | s.table == old(rows) ensures ReachesTable(s, [ClearHistory], rows) {
        AfterOne(s, ClearHistory);
      }
    }
  }

  /** The starter of the job is about to write its row. */
  predicate Recording(s: State, t: ThreadId, id: JobId, startedAt: Time) {
    AtStarter(s, t, Inserted) && s.threads[t].pc.j == id && s.cells[id].startedAt == startedAt
  }

  /** The worker of the job is about to write its final row. */
  predicate Closing(s: State, t: ThreadId, id: JobId, status: Status, code: Option<string>, now: Time) {
    AtTask(s, t) && s.threads[t].pc == Task(id, Persist(status, code)) && s.now == now
  }

  predicate CleaningUp(s: State, t: ThreadId) {
    AtTask(s, t) && s.threads[t].pc.w.Cleanup?
  }

  /** The trimming is one that a worker, or the request of a client, may do. */
  ghost predicate TrimSteps(table: Table, kept: Table) {
    && (forall s: State :: s.table == table ==> ReachesTable(s, [TrimHistory(kept)], kept))
    && (forall s: State, t :: CleaningUp(s, t) && s.table == table ==> ReachesTable(s, [CleanupHistory(t, kept)], kept))
  }

  lemma TrimIsStep(s: State, kept: Table)
    requires Retained(s.table, HISTORY_RETENTION_LIMIT, kept)
    ensures ReachesTable(s, [TrimHistory(kept)], kept)
  {
    hide Retained;
    AfterOne(s, TrimHistory(kept));
  }

  lemma CleanupIsStep(s: State, t: ThreadId, kept: Table)
    requires CleaningUp(s, t) && Retained(s.table, HISTORY_RETENTION_LIMIT, kept)
    ensures ReachesTable(s, [CleanupHistory(t, kept)], kept)
  {
    hide Retained;
    AfterOne(s, CleanupHistory(t, kept));
  }

  lemma RetainedIsStep(table: Table, limit: nat, kept: Table)
    requires Retained(table, limit, kept)
    ensures limit == HISTORY_RETENTION_LIMIT ==> TrimSteps(table, kept)
  {
    hide Retained, ReachesTable, CleaningUp;
    if limit == HISTORY_RETENTION_LIMIT {
      forall s: State | s.table == table ensures ReachesTable(s, [TrimHistory(kept)], kept) {
        TrimIsStep(s, kept);
      }
      forall s: State, t | CleaningUp(s, t) && s.table == table ensures ReachesTable(s, [CleanupHistory(t, kept)], kept) {
        CleanupIsStep(s, t, kept);
      }
    }
  }

  /** After start-up recovery no row is active, and exactly the rows that were active changed. */
  lemma InterruptedProperty(table: Table, now: Time)
    ensures var after := WithInterrupted(table, now);
      && after.Keys == table.Keys
      && (forall id :: id in after ==> !ActiveRow(after[id].status))
      && (forall id :: id in table ==> (after[id] == table[id] <==> !ActiveRow(table[id].status)))
  {
    var after := WithInterrupted(table, now);
    forall id | id in after ensures !ActiveRow(after[id].status) && (after[id] == table[id] <==> !ActiveRow(table[id].status)) {
      if ActiveRow(table[id].status) { assert after[id].status.RowInterrupted?; }
    }
  }

  /** Keeping is decided by age alone: a terminal row survives unless as many newer-or-equal
      terminal rows as the quota allows survive instead. */
  lemma RetainedMeaning(table: Table, limit: nat, kept: Table, id: JobId)
    requires Retained(table, limit, kept) && id in TerminalIds(table)
    ensures id !in kept ==>
      && |TerminalIds(kept)| == (if limit == 0 then 1 else limit)
      && forall k :: k in TerminalIds(kept) ==> table[id].startedAt <= table[k].startedAt
    ensures |TerminalIds(table)| <= limit ==> id in kept
  {
    if id !in kept {
      var terminal, rest := TerminalIds(table), TerminalIds(kept);
      assert rest <= terminal - {id};
      SubsetSize(rest, terminal - {id});
    }
  }
}
