/** The persisted operation history: one row per job, and what each statement does to the table. */
module HistoryTable {
  import opened Basics
  import opened JobEvents

  const HISTORY_RETENTION_LIMIT: nat := 500

  /** The status column. `RowCancelling` and `RowQueued` are active but never written today. */
  datatype RowStatus =
    | RowQueued | RowRunning | RowCancelling
    | RowPaused | RowCancelled | RowCompleted | RowFailed | RowInterrupted

  datatype Row = Row(status: RowStatus, startedAt: Time, completedAt: Option<Time>, code: Option<string>)

  type Table = map<JobId, Row>

  predicate ActiveRow(status: RowStatus) {
    status.RowQueued? || status.RowRunning? || status.RowCancelling?
  }

  function StatusColumn(status: Status): RowStatus {
    match status
    case Queued => RowQueued
    case Running => RowRunning
    case Paused => RowPaused
    case Cancelled => RowCancelled
    case Completed => RowCompleted
    case Failed => RowFailed
  }

  function WithStarted(table: Table, id: JobId, now: Time): Table {
    table[id := Row(RowRunning, now, None, None)]
  }

  function WithTerminal(table: Table, id: JobId, status: Status, code: Option<string>, now: Time): Table {
    if id in table then table[id := Row(StatusColumn(status), table[id].startedAt, Some(now), code)] else table
  }

  function WithInterrupted(table: Table, now: Time): Table {
    map id | id in table ::
      if ActiveRow(table[id].status) then Row(RowInterrupted, table[id].startedAt, Some(now), Some("interrupted"))
      else table[id]
  }

  function WithoutTerminal(table: Table): Table {
    map id | id in table && ActiveRow(table[id].status) :: table[id]
  }

  function TerminalIds(table: Table): set<JobId> {
    set id | id in table && !ActiveRow(table[id].status)
  }

  /** The rows `kept` survive: every active row, and the `limit` newest of the others
      (at least one), rows that started at the same moment being interchangeable. */
  ghost predicate Retained(table: Table, limit: nat, kept: Table) {
    var terminal := TerminalIds(table);
    var quota := if limit == 0 then 1 else limit;
    && kept.Keys <= table.Keys
    && (forall id :: id in kept ==> kept[id] == table[id])
    && (forall id :: id in table && ActiveRow(table[id].status) ==> id in kept)
    && |TerminalIds(kept)| == (if |terminal| < quota then |terminal| else quota)
    && (forall k, d :: k in TerminalIds(kept) && d in terminal && d !in kept
         ==> table[d].startedAt <= table[k].startedAt)
  }
}
