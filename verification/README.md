# FileOctopus cores, verified in Dafny

This project models the parts of FileOctopus whose correctness does not show in any single
function, and proves what the program promises about them. All modules are checked together by
`dafny verify dfyconfig.toml`.

**The job runtime** (`JobEvents`, `HistoryTable`, `RuntimeModel`, `RuntimeInvariant`,
`RuntimeSafety`, `RuntimeCancelSafety`, `RuntimeTheorems`, `RuntimeReports`, `RuntimeWatchdog`, `RuntimeAdmission`,
`RuntimeProgress`, `RuntimeHistory`, `RuntimeSteps`, `RuntimeRegions`, `RuntimeWitness`, `NestedToggles`,
`JobRegistry`, `HistoryRepository`, `TimeOrder`). Clients start,
cancel, pause and resume jobs while a pool of workers runs them, a watchdog times them out and a
table records them. `RuntimeModel` is a state machine with one step for every lock-protected
region, every call of a sink and every read without a lock; the jobs lock and each job's event gate
are part of the state, so waiting for a lock is a state in which a thread has no step. The
terminal status (written under the jobs lock), the terminal row and the terminal event (emitted
under the gate) are separate steps. One invariant, stated job by job, is shown to be kept by all
actions of all threads; the theorems about every run follow from it. The loops and updates inside
the lock-protected regions and the SQL statements are methods of two classes. Each is proved to refine
the state machine: from every state of the machine with the method's registry (or table), in which a
thread is about to execute the region, the machine's actions are enabled one after the other and lead
to what the method leaves behind.

The runtime is modelled under these assumptions. Job ids are fresh. A client names a job only
after Started was announced or the start call returned (`recent_history` would show a running
job's id a moment earlier). Sinks return; while called they may call `cancel`, but not pause or
resume. What happens when they do is the subject of `NestedToggles`, a machine of threads and gates: a
deadlock can be reached exactly if some chain of sinks, each pausing the next one's job, leads from a
job back to itself. An executor runs on
the one thread of its task, reports progress for its own job only, does not panic, and returns
`Cancelled` only if its token is set. The worker pool is alive, no lock is poisoned, SQL
statements succeed, and the clock does not go back.

**The text comparison** (`Texts`, `DiffScript`, `Segments`, `ScriptLines`, `TextDiff`, `HunkPatch`,
`DiffPatch`, `TextCompare`). The table, the backtrack and the hunk builder are loops with
invariants; the meaning is a theory of common subsequences, edit scripts, and a strict patch tool
that applies the hunks. Two things are not what one would expect, and both are proved with their
exact conditions: the counts of a hunk run on from hunk to hunk (compare.rs never resets them), so
they are right for the first hunk only; and two texts that differ only in line endings are
reported as not identical, without any hunk.

**The git panel** (`GitHunks`, `GitPatch`, `GitChanges`, `GitNameStatus`, `GitWorktrees`). The hunk builder shares
`Segments`, `ScriptLines` and `HunkPatch` with the text comparison. A hunk that begins with an
inserted line claims to start at line 1 of the old text (`unwrap_or(1)`); it is proved when that is
true, that the true start can be computed from the rest, and, as a condition on the change list, exactly
when a strict patch tool rebuilds the new text from the hunks as they are. The parsers are proved to read back what git prints, with the exact condition on
rename records, and two of git's unmerged letter pairs are shown to be missed.

**The walks** (`Cancellation`, `FolderWalk`, `SearchEvents`, `SearchMeaning`, `Search`, `FilePattern`, `RemotePaths`,
`CopyPlan`, `CopyPlanMeaning`). The folder size walk over a directory graph with cycles and aliases,
the two limited searches, and the three copy plans with an account of where they differ. What they
return is said of the graph or tree alone: numbers of places in the reachable directories, and the places
of matches and warnings in depth-first order. A cancellation token is modelled by the number of polls that still find it unset.

**The preferences** (`PreferenceValues`, `Preferences`). The cache and the table agree after every call,
so that opening the table again gives the cache. The one exception is the machine's default
diagnostics path, which need not be acceptable to its own check. Floating-point values are those of an
arbitrary format, infinities and the value that is not a number included; printing and parsing are
required to invert each other on the values of the format only, and a format that meets the
requirements is given.

Paths and lines below are those of the FileOctopus repository.

## Model

| member | source | states |
|---|---|---|
| JobEvents.PhaseMeaning | crates/jobs/src/lib.rs:60-168 | the phase automaton accepts exactly the event streams that are well-shaped by a statement about positions: Started first and only first, nothing after a terminal event, pauses and resumptions alternating, no progress inside a pause |
| RuntimeTheorems.EventStream | crates/app-core/src/runtime.rs:318-455 | in every state of every run each job's stream is well-shaped, and a finished task's stream ends with the one event that announces its status and error code, although status and event are written under different locks |
| RuntimeTheorems.SnapshotMatchesStream | crates/app-core/src/runtime.rs:515-610 | while no emission is owed, a job that is not terminal shows Paused exactly if its stream has an open pause, and exactly then its executor is held |
| RuntimeTheorems.TerminalIsAbsorbing | crates/app-core/src/runtime.rs:815-830 | from any state of a run to any later one, a terminal status and its code stay, streams only grow, and a finished stream does not grow |
| RuntimeCancelSafety.ActionSafe | crates/app-core/src/runtime.rs:243-610 | every enabled action of every thread keeps the invariant of the runtime, and lets every job evolve lawfully |
| RuntimeTheorems.RunKeepsInv | crates/app-core/src/runtime.rs:243-789 | the invariant holds in every state of every run from an idle runtime with any history table |
| RuntimeTheorems.FirstMeaning | crates/app-core/src/runtime.rs:482-501 | the recorded first canceller is the one who acts at the first position of the run at which anybody cancels or times out the job |
| RuntimeTheorems.FirstCancellerWins | crates/app-core/src/runtime.rs:377-422 | the two flags exclude each other, the token is set only with one of them, and an executor that returned Cancelled ends as Failed with code timeout exactly if the watchdog came first, else as Cancelled |
| RuntimeTheorems.FrozenAfterCancel | crates/app-core/src/runtime.rs:337-348 | after the first canceller item and counters of the snapshot never change, and at most one more progress event comes out, the one past its check |
| RuntimeReports.SnapshotShowsLastReport | crates/app-core/src/runtime.rs:337-348 | whenever no progress is owed, item, item count and bytes of a job's snapshot are those of the last progress event in its stream, or none and zero if there is none |
| RuntimeReports.EveryReportWasMade | crates/app-core/src/runtime.rs:337-348 | every progress event of a stream carries a report that the job's executor made in some earlier action of the run |
| RuntimeReports.VerdictOfOutcome | crates/app-core/src/runtime.rs:359-449 | a job ends as its executor returned: Completed without code, Failed with the error's code, or, stopped, Cancelled or Failed with code timeout |
| RuntimeReports.OutcomeWasReturned | crates/app-core/src/runtime.rs:350-358 | the outcome on record is what the executor returned in some action of the run |
| RuntimeReports.TerminalTime | crates/app-core/src/runtime.rs:815-830 | the time that pruning goes by is, for a terminal job, the moment in the run at which it ended |
| RuntimeWatchdog.LastActivityMeaning | crates/app-core/src/runtime.rs:327-332 | the recorded time is that of the last pickup, resumption or accepted report in the run, and is absent if there was none |
| RuntimeWatchdog.ActivityBegan | crates/app-core/src/runtime.rs:325-332 | a recorded activity time goes back to a pickup by a worker or a resumption: reports come only after one of them |
| RuntimeWatchdog.WatchdogSound | crates/app-core/src/runtime.rs:761-788 | a job is timed out only while Running and not held, with a timeout that is not zero, after it was picked up or resumed at least once, and when all its activity lies a full timeout back |
| RuntimeWatchdog.WatchdogExactly | crates/app-core/src/runtime.rs:770-787 | a test of the watchdog times a job out if and only if the job is running, nobody has stopped it in the run so far, it has been active, and all its activity lies a full timeout back |
| RuntimeWitness.QueuedJobTimesOut | crates/app-core/src/runtime.rs:594 | a run in which a job that no worker has picked up, paused and resumed in the queue, is timed out |
| RuntimeWatchdog.ParkedExecutor | crates/jobs/src/lib.rs:223-233 | a paused executor holds neither the jobs lock nor a gate, and goes on exactly when the job is no longer paused or is cancelled |
| RuntimeAdmission.TokensConserved | crates/app-core/src/runtime.rs:678-696 | the counter is the number of starters, queued tasks and busy workers together |
| RuntimeAdmission.AdmissionConserved | crates/app-core/src/runtime.rs:25-29 | in every reachable state the counter is at most 64, sending to the queue never blocks, every registered job that is not terminal holds a token, and the registry has at most 128 + 64 entries |
| RuntimeAdmission.AdmitRefused | crates/app-core/src/runtime.rs:678-690 | a start is refused exactly when 64 tokens are held |
| RuntimeProgress.GateWaiterHoldsNothing | crates/app-core/src/runtime.rs:337-348 | a thread that waits for a gate holds neither a gate nor the jobs lock |
| RuntimeProgress.NoDeadlock | crates/app-core/src/runtime.rs:515-622 | with sinks that call at most `cancel`, a thread blocked on either kind of lock can take it, or its holder can step, or that holder waits for the jobs lock whose holder can step |
| NestedToggles.DeadlockIff | crates/app-core/src/runtime.rs:515-610 | with sinks that pause or resume other jobs, a deadlock on the gates can be reached if and only if a chain of such sinks leads from some job back to itself |
| NestedToggles.DeadlockStays | crates/app-core/src/runtime.rs:516-521 | such a deadlock is for ever, whatever the other threads do |
| NestedToggles.SomebodyMoves | crates/app-core/src/runtime.rs:516-521 | without one, whenever a thread waits for a gate some thread can take its gate or leave one |
| RuntimeHistory.HistoryAgrees | crates/app-core/src/runtime.rs:303-449 | a job's row is "running" until the worker writes it, and from then on equals the snapshot's final status and code until it is deleted |
| RuntimeHistory.SettledRowStays | crates/app-core/src/history.rs:138-172 | a settled row is never written again and a deleted one does not come back |
| RuntimeHistory.ActiveExactly | crates/app-core/src/history.rs:112-172 | in every state of every run a job's row is active exactly while the job has no terminal status, or one that its worker is still about to write |
| RuntimeHistory.CrashRecovery | crates/app-core/src/history.rs:93-104 | if the program ends in any state of any run, recovery leaves each row as the job's final status and code, or as interrupted, and interrupted exactly if the final status had not been written |
| RuntimeHistory.ClearKeepsUnsettled | crates/app-core/src/history.rs:218-226 | clearing the history during a run keeps the row of a job exactly if its final status is still to be written |
| RuntimeRegions.AdmitRegion | crates/app-core/src/runtime.rs:678-690 | acquiring a token leaves the registry alone and counts one more, or is refused at the limit |
| RuntimeRegions.DropRegion | crates/app-core/src/runtime.rs:692-696 | in a state that the invariant allows, dropping a token never wraps the counter around, and only the holder of the token changes |
| RuntimeRegions.InsertRegion | crates/app-core/src/runtime.rs:297-302 | pruning the registry and inserting the entry made before is one action of the machine, for every choice the pruning may make |
| RuntimeRegions.ReportRegion | crates/app-core/src/runtime.rs:791-813 | the region that receives a report changes the registry as the machine's step does, pruned entries included |
| RuntimeRegions.FinishRegion | crates/app-core/src/runtime.rs:815-830 | so does the region that writes a task's verdict |
| RuntimeRegions.CancelRegion | crates/app-core/src/runtime.rs:482-501 | `cancel` is the machine's flag action followed by its token action for a registered job, and nothing for another |
| RuntimeRegions.PassRegion | crates/app-core/src/runtime.rs:764-787 | a pass of the watchdog over all entries, in any order and with any time passing between them, is a sequence of enabled actions: one test for each entry, and the token where it fires |
| RuntimeRegions.PassMeaning | crates/app-core/src/runtime.rs:764-787 | a pass judges every entry exactly once, at a moment between its beginning and its end, and changes nothing else |
| JobRegistry.OperationRuntime.PruneTerminalJobs | crates/app-core/src/runtime.rs:698-717 | removes nothing up to 128 terminal entries, else all but 128, none of them newer than a kept one |
| JobRegistry.OperationRuntime.InsertJob | crates/app-core/src/runtime.rs:297-302 | prunes the old registry and then adds the new entry; refines the machine's insertion from every state with that registry |
| JobRegistry.OperationRuntime.BeginTask | crates/app-core/src/runtime.rs:325-332 | the entry gets its activity and update times, field by field, and refines the machine's first step of a task from every state with that registry, whether or not the entry is still there |
| JobRegistry.OperationRuntime.UpdateSnapshotProgress | crates/app-core/src/runtime.rs:791-813 | a report is accepted exactly for a registered, running job that nobody stopped; then item, item count and bytes are those of the report and both times the present one, and nothing else changes; a refused report changes nothing; refines the machine's check of the report |
| JobRegistry.OperationRuntime.Cancel | crates/app-core/src/runtime.rs:482-501 | sets the user's flag unless timed out, then the token; an unknown job is an error and changes nothing; refines the machine's two cancel actions in a row |
| JobRegistry.OperationRuntime.ToggleJob | crates/app-core/src/runtime.rs:515-610 | pause and resume: success, success without change, or an error according to the status; refines the machine's check under the gate |
| JobRegistry.OperationRuntime.WatchdogPass | crates/app-core/src/runtime.rs:764-787 | an entry that is running, not stopped and was last active a full timeout before the pass begins is timed out and cancelled; one that was active later than a full timeout before the pass can end is unchanged; no entry changes in any other way, or without being due; refines the machine's sequence of tests and token settings |
| TimeOrder.CutByAge | crates/app-core/src/runtime.rs:712-716 | cutting the front of a list sorted by time removes entries none of which is newer than a kept one |
| HistoryRepository.OperationHistoryRepository.MarkInterruptedJobs | crates/app-core/src/history.rs:93-104 | every active row becomes interrupted, all others stay, and the number of changed rows is returned |
| HistoryRepository.InterruptedProperty | crates/app-core/src/history.rs:93-104 | afterwards no row is active, and exactly the rows that were active differ |
| HistoryRepository.OperationHistoryRepository.CleanupTerminalHistory | crates/app-core/src/history.rs:202-216 | keeps all active rows and exactly the newest terminal rows up to the limit (at least one), and returns how many went; refines the machine's clean-up by a worker and by a client |
| HistoryRepository.RetainedMeaning | crates/app-core/src/history.rs:202-216 | a deleted row is no newer than any kept terminal row, and nothing is deleted within the limit |
| DiffScript.CommonDiagonal | crates/fs-core/src/compare.rs:148-149 | the recurrence for equal last lines, about all common subsequences of two prefixes |
| DiffScript.CommonMax | crates/fs-core/src/compare.rs:150-152 | the recurrence for different last lines |
| TextDiff.BuildTable | crates/fs-core/src/compare.rs:143-154 | entry (i, j) of the table is the greatest length of a common subsequence of the two prefixes |
| TextDiff.Backtrack | crates/fs-core/src/compare.rs:156-175 | the walk back ends, its reversed script consumes both texts exactly, keeps as many lines as a longest common subsequence has, and costs no more than any other script |
| DiffScript.ReplayIsRight | crates/fs-core/src/compare.rs:161-175 | replaying any valid script turns the left text into the right one |
| Segments.SegmentationUnique | crates/fs-core/src/compare.rs:191-252 | a script can be cut into hunks in only one way that meets the requirement on runs of common lines |
| TextDiff.BuildHunks | crates/fs-core/src/compare.rs:177-265 | the loop cuts the script in that way; each hunk holds the lines and starts of its segment, and counts that include all earlier hunks |
| TextDiff.ComputeDiffHunks | crates/fs-core/src/compare.rs:138-266 | the whole function: a cheapest script, cut into hunks |
| HunkPatch.PatchRebuildsRight | crates/fs-core/src/compare.rs:204-210 | a strict patch tool that is given the left text and the hunks finds them in order, disjoint and matching, and rebuilds the right text |
| HunkPatch.ReversePatchRebuildsLeft | crates/fs-core/src/compare.rs:204-210 | with sides exchanged the same hunks rebuild the left text from the right one |
| HunkPatch.LinesAreNumbered | crates/fs-core/src/compare.rs:195-246 | every shown line carries its true 1-based numbers, and the texts hold its content there |
| HunkPatch.ChangeInOneHunk | crates/fs-core/src/compare.rs:219-250 | every change of the script is shown by exactly one line of exactly one hunk |
| HunkPatch.HunkShape | crates/fs-core/src/compare.rs:188-215 | a hunk starts with a change, shows at most two common lines together before its end, and ends with exactly three if another hunk follows (run length 3; also used with 4) |
| DiffPatch.NoHunksIffEqual | crates/fs-core/src/compare.rs:138-141 | there are no hunks exactly if the line lists are equal |
| DiffPatch.ShownIsCost | crates/fs-core/src/compare.rs:219-250 | the hunks together show as many added and removed lines as the script has |
| DiffPatch.CountsAreRunningTotals | crates/fs-core/src/compare.rs:184-213 | a hunk's own size, on either side, is the difference between its count and that of the hunk before |
| DiffPatch.CountsRightOnlyForFirst | crates/fs-core/src/compare.rs:184-213 | a reported count is the size of its hunk if and only if the hunk is the first |
| Texts.SameLines | crates/fs-core/src/compare.rs:87-88 | two texts have the same lines exactly if they agree after normalising line endings |
| TextCompare.CompareTextFiles | crates/fs-core/src/compare.rs:76-99 | of the result alone: the hunks patch either way, no edit script changes fewer lines, all line numbers are true, every hunk has the required shape and running counts, and there are no hunks exactly if the texts agree up to line endings, also when they are not identical |
| GitHunks.CutChanges | crates/git-intel/src/lib.rs:1179-1240 | for any valid change list the loop cuts it where four common lines stand in a row, each hunk holding its segment's lines, the starts read from its first line and its own counts; trimming always empties the buffer |
| GitPatch.ComputeDiffHunks | crates/git-intel/src/lib.rs:1171-1251 | of the result alone: with missing starts recovered the hunks patch either way and all line numbers are true; shape, counts and starts of each hunk; exactly when the hunks patch as they are; no hunks exactly if nothing changed |
| GitHunks.BufferCloses | crates/git-intel/src/lib.rs:1202-1218 | counting back in the buffer closes a hunk exactly at the fourth common line after the last change |
| GitHunks.CountsMatch | crates/git-intel/src/lib.rs:1253-1269 | the counts of a built hunk are the numbers of its old and of its new lines |
| GitHunks.GitHunkShape | crates/git-intel/src/lib.rs:1202-1240 | a hunk starts with a change, at most three common lines stand before a later change, and all but the last end with exactly four |
| GitHunks.GitChangeInOneHunk | crates/git-intel/src/lib.rs:1221-1240 | each changed line is shown by exactly one line of exactly one hunk |
| GitHunks.StartsTrue | crates/git-intel/src/lib.rs:1235-1236 | a start is true if and only if the first line has a number on that side or the other start is 1 |
| GitHunks.RecoveredIsPatch | crates/git-intel/src/lib.rs:1235-1250 | with each missing start computed from the other start and the sizes before it, the hunks are a correct patch in both directions |
| Segments.StartsAre | crates/git-intel/src/lib.rs:1221-1238 | a hunk starts exactly at a change before which everything, or a whole run of four lines, is common |
| GitPatch.PatchIff | crates/git-intel/src/lib.rs:1235-1250 | as they are, the hunks rebuild the new text if and only if no hunk will start with an insertion, except at the very beginning of the change list, or only the first does and its lines happen to fit at line 1 with the same result |
| GitHunks.LaterInsertionRefused | crates/git-intel/src/lib.rs:1235-1236 | a later hunk that starts with an insertion makes a strict patch tool refuse the hunks |
| GitHunks.FirstInsertionMisplaced | crates/git-intel/src/lib.rs:1235-1236 | a concrete change list whose only hunk is put in the wrong place |
| GitChanges.ConflictsFound | crates/git-intel/src/lib.rs:1271-1287 | of git's unmerged letter pairs exactly DD and AA are not reported as conflicts |
| GitChanges.ParsePorcelain | crates/git-intel/src/lib.rs:921-971 | the loop reads the records as the recursive description of one record at a time does, and fails if a path has no address |
| GitChanges.PorcelainRoundTrip | crates/git-intel/src/lib.rs:941-952 | printing any list of records and reading the fields gives the records back, in order, if and only if original paths are where the first column says (the last record may lack one) |
| GitChanges.PorcelainReadsBack | crates/git-intel/src/lib.rs:921-971 | from the bytes between NULs to the list of files: path, original path, both addresses and the meaning of the two letters of each record come back if and only if original paths are where the first column says; the list fails if and only if a path has no address |
| GitChanges.ShortFieldPassed | crates/git-intel/src/lib.rs:932-940 | a field too short for a record is passed over, and the records on both sides of it are read by themselves |
| GitNameStatus.ParseNameStatus | crates/git-intel/src/lib.rs:973-1023 | the loop reads the tokens as described and sorts by path; a record cut off at the end is dropped |
| GitNameStatus.SortKeeps | crates/git-intel/src/lib.rs:1021 | sorting by path yields a sorted, stable permutation |
| GitNameStatus.NameStatusRoundTrip | crates/git-intel/src/lib.rs:984-1019 | before sorting, the records come back if and only if exactly those with letter R or C have an original path |
| GitNameStatus.NameStatusReadsBack | crates/git-intel/src/lib.rs:973-1023 | printed and read, any list of such records comes back as the files with their paths, addresses and the status of their letter, sorted by path, as a stable permutation; a record cut off at the end is dropped; the list fails if and only if a path has no address |
| GitWorktrees.Parser.Flush | crates/git-intel/src/lib.rs:1104-1127 | a finished worktree takes all pending fields and leaves none behind; without a path nothing changes |
| GitWorktrees.ParseWorktrees | crates/git-intel/src/lib.rs:1092-1161 | the loop over the tokens computes what the description of one token at a time computes |
| GitWorktrees.BlocksReadBack | crates/git-intel/src/lib.rs:1129-1158 | each worktree is made of the lines of its own block, whatever the other blocks say |
| GitWorktrees.WorktreesReadBack | crates/git-intel/src/lib.rs:1092-1161 | any list of worktrees printed by git, on a branch, on another reference or detached, with or without a lock or a reason to prune, is read back in order, each with its own fields; a path without an address fails the list |
| GitWorktrees.StrayLinesLeak | crates/git-intel/src/lib.rs:1108-1110 | a line in front of the first path is taken for that path |
| FolderWalk.FolderWalker.VisitFolder | crates/fs-core/src/metadata.rs:296-370 | visiting ends for every finite graph, expands no directory twice, leaves every visited directory but those still open completely visited, reaches only what is reachable, and adds exactly what the newly expanded directories hold |
| FolderWalk.CalculateFolderSize | crates/fs-core/src/metadata.rs:253-294 | without cancellation the expanded directories are exactly the reachable ones, each once; the numbers of files, directories and items, the total size and the warnings returned are those of the set of places in the reachable directories; the callback comes once for each file and directory, right after it is counted; other paths are counted by themselves |
| FolderWalk.TotalsAreAmounts | crates/fs-core/src/metadata.rs:326-367 | sums over the reachable directories in any order are these numbers of the graph alone: how many places (directory, index) hold a file, a directory, or anything but a broken entry or symbolic link, the sum of the sizes over the set of places of files, and how many places and unreadable directories give each error |
| FolderWalk.OrderIrrelevant | crates/fs-core/src/metadata.rs:326-367 | the sums do not depend on the order in which directories are met |
| FolderWalk.ErrorsSomewhere | crates/fs-core/src/metadata.rs:318-347 | a warning is given exactly if it is the error of some expanded directory or of an entry of it |
| SearchEvents.CutMeaning | crates/fs-core/src/search.rs:82-84 | cutting a search at n matches leaves a first part with the first n matches and the warnings before the last of them |
| SearchEvents.CutAppend | crates/fs-core/src/search.rs:100-102 | of two searches in a row the second is made only if the first did not reach the limit |
| SearchMeaning.FolderMember | crates/fs-core/src/search.rs:70-152 | an event stands in the walk at a place if and only if the tree has there an item with both addresses whose lower-case name contains the text, or a broken entry, or an unreadable folder; for contents, a line of a chosen file in which the finder finds something, or a chosen file that cannot be opened |
| SearchMeaning.FolderAscending | crates/fs-core/src/search.rs:86-148 | the events of a walk stand at strictly ascending places, depth first, a folder's own match before what is in it |
| SearchMeaning.ToldByWalk | crates/fs-core/src/search.rs:82-102 | for any first part of a walk with at most n matches, ending with the n-th: the k-th match belongs to the k-th place that qualifies, with address, parent's address, name, and a size exactly for files (for contents: number, text and span of the line); the same for warnings; what is left out comes after everything told |
| Search.SearchFolder | crates/fs-core/src/search.rs:70-152 | adds to the result what the limit leaves of the unlimited search below the folder, or, cancelled, a first part of it; the limit is never exceeded |
| Search.RecursiveSearch | crates/fs-core/src/search.rs:35-68 | matches and warnings are, of the tree alone, those of the first places in depth-first order that qualify, up to max(limit, 1) matches, and all of them if there are fewer; with one callback per match in order; empty query, missing folder and cancellation as the code has them |
| Search.FirstOfMeaning | crates/fs-core/src/search.rs:82-84 | cutting the events means: the first n matches, warnings that begin as those of the unlimited search, and all of them if it has fewer than n matches |
| Search.SearchFileContent | crates/fs-core/src/content_search.rs:238-333 | the lines of one file: at most one match a line, cut at the limit, or a first part when cancelled |
| Search.ContentSearch | crates/fs-core/src/content_search.rs:67-125 | the same for contents, line by line in the files chosen by size and name; a search that succeeds although it was cancelled leaves out only what comes after everything it tells |
| FilePattern.MatchesFilePattern | crates/fs-core/src/content_search.rs:127-143 | true exactly without a pattern or if some trimmed piece matches |
| FilePattern.PiecesMeaning | crates/fs-core/src/content_search.rs:131 | the pieces are the comma-free texts that give the pattern with commas between them |
| FilePattern.PieceIsGlobIff | crates/fs-core/src/content_search.rs:132-140 | a piece is read as a shell would read it, for every name, if and only if it has at most one star and that at one of its ends |
| FilePattern.AcceptedByGlob | crates/fs-core/src/content_search.rs:132-140 | what a piece accepts a shell would accept as well, for every piece |
| RemotePaths.BasenameUndoesJoin | crates/fs-core/src/vfs_io.rs:627-642 | the last name of a joined path is the joined name, for every base |
| RemotePaths.JoinAllInjective | crates/fs-core/src/vfs_io.rs:627-633 | different lists of names below a base lead to different paths |
| CopyPlan.CollectProvider | crates/fs-core/src/vfs_io.rs:500-583 | succeeds exactly for proper paths and a listable tree, with the plan of directories and regular files re-rooted at the destination |
| CopyPlan.CollectToLocal | crates/fs-core/src/vfs_io.rs:809-891 | the same from a provider to the local file system, special nodes included, for every tree; with proper names the destinations are the source re-rooted |
| CopyPlan.LocalItemsJoined | crates/fs-core/src/vfs_io.rs:841-857 | taking each destination name from the end of the path just joined comes to joining the names, if they are proper |
| CopyPlan.CollectToRemote | crates/fs-core/src/vfs_io.rs:706-806 | the same from the local file system to a provider, with regular files only below the top |
| CopyPlanMeaning.PlanIsExact | crates/fs-core/src/vfs_io.rs:518-583 | each plan holds the top and below it exactly the nodes of its kinds (all but special ones, all, or regular files), each once, with its size, whether it is a directory, and source and destination followed by the same names; destinations are different, and nothing comes before a directory it lies in |
| CopyPlanMeaning.ParentPlannedIff | crates/fs-core/src/vfs_io.rs:762-806 | a plan creates the directory a node lies in, except that a plan to a provider does so exactly for nodes directly in the top |
| CopyPlanMeaning.SamePlanIff | crates/fs-core/src/vfs_io.rs:635-642 | copying within a provider and to the local file system plan the same items if and only if there is nothing special below the top and the source path has a last name |
| PreferenceValues.ParsePrinted | crates/config/src/lib.rs:680-686 | a printed number is read back |
| PreferenceValues.ReadsNumber | crates/config/src/lib.rs:826-848 | a text is read as n if and only if n is below 2^32 and the text is the decimal of n, with leading zeros and a plus sign or without |
| PreferenceValues.ParseSays | crates/config/src/lib.rs:826-1366 | for every kind of value, a text is accepted with a value if and only if it says that value: for a range the number of the range nearest to the one written, itself if it is in the range, infinities going to the ends and zero staying zero where it is allowed; for choices, switches and texts the value as described; a text that says nothing is rejected |
| PreferenceValues.ArgLinesTwice | crates/config/src/lib.rs:1236-1249 | normalising terminal arguments a second time changes nothing |
| PreferenceValues.ArgLinesNotLonger | crates/config/src/lib.rs:1236-1249 | normalising never makes them longer in bytes |
| PreferenceValues.NormalisedStays | crates/config/src/lib.rs:1034-1366 | a normaliser accepts its own result and maps it to itself, floating-point values and their special cases included, except, and exactly then, when a blank export path is replaced by a machine default that is not acceptable |
| PreferenceValues.SampleMeetsAll | crates/config/src/lib.rs:690-714 | there are a floating-point format, a printer, a parser and a default path that meet all requirements of these results |
| Preferences.OurCatalogueOk | crates/config/src/lib.rs:126-194 | every default of every preference is a value that its own print gives back |
| Preferences.ReadAll | crates/config/src/lib.rs:631-645 | the result does not depend on the order of the rows |
| Preferences.WrittenReads | crates/config/src/lib.rs:647-670 | a table reads as what was just written to it if and only if every value is one that its print gives back |
| Preferences.PreferencesRepository.Set | crates/config/src/lib.rs:239-244 | a value is accepted if and only if it says something to its key, or the key is unknown; then the key has what the text says, no other key and no foreign row changes, and the rows print the cache; a rejected value changes nothing; cache and table agree afterwards exactly under the stated condition |
| Preferences.PreferencesRepository.Open | crates/config/src/lib.rs:205-226 | a stored table opens exactly if all its rows are accepted, and each key has what its row says, or its default without a row; a new table opens exactly if the default export path is readable |
| Preferences.AnySequence | crates/config/src/lib.rs:205-244 | after any sequence of calls on a new table, opening it again succeeds and gives exactly the cached values |

## Left out

- The planned-operation registry with its limit and expiry, `write_text_file_atomic`'s executor and the planning and execution of file operations: parameters or easy members.
- The worker pool's receiver lock and `recv` are one step that picks up the head of the queue; the shutdown of workers and watchdog and the path for a dead worker pool are not modelled.
- The condition variable inside `PauseToken`: a held executor is a thread without a step until the token is resumed or cancelled.
- RuntimeWatchdog.WatchdogSound: the 100 ms and quarter-timeout polling intervals are not modelled, so nothing is said about how soon a stalled job is timed out.
- RuntimeProgress.NoDeadlock: says that somebody can step, not that a particular thread is scheduled. Sinks that pause or resume jobs are covered by NestedToggles, which leaves out the jobs lock and everything but the gates.
- The history table is a map and timestamps are numbers; rows keep status, times and code, not the descriptive columns. Errors of SQL statements are assumed away.
- Events carry their kind, the report and the error code, and snapshots what the runtime changes; messages, totals and kinds of operation are left out.
- TextDiff.BuildTable: lines are texts and lengths are unbounded; memory for the table is not modelled.
- `similar`'s algorithm: GitHunks takes any valid change list instead; that its list is shortest is not claimed.
- Texts and file names are sequences of characters: lossy UTF-8 decoding of git output and names, and lengths in bytes of porcelain records, are not modelled; sizes of preference texts are in UTF-8 bytes.
- White space is that of ASCII and lower case maps ASCII letters; the searches take query and names already in lower case.
- Reading the file system is a fixed graph or tree; concurrent changes and 64-bit overflow of the summed sizes are not modelled. The progress callback's path argument is left out.
- Search.ContentSearch: the regular expression or the text search in a line is an arbitrary function from a line to the first match.
- CopyPlan.CollectToLocal: local paths are joined as on Unix; the same holds for the source side of plans to a provider. Addresses are paths, so failures to build one are not modelled.
- CopyPlan.CollectProvider: a listed entry's address is its directory's path joined with its name, and looking at an entry gives what the listing said.
- The copy plan within the local file system, cross-scheme dispatch, byte comparison, EXIF data, `parse_history` and `parse_branches`: easy members.
- Preferences: the floating-point format and its printer and parser are abstract, and the sign of zero and of the value that is not a number is not kept; JSON validity and the path rules are opaque predicates; schema migration of older tables and concurrent `set` calls are not modelled; the four fields without a row never change and are left out.
