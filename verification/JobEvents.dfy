/** The statuses of a job and the shape of the event stream that a job's sink receives. */
module JobEvents {
  import opened Basics

  type Time = nat

  datatype JobId = JobId(value: string)

  datatype Status = Queued | Running | Paused | Cancelled | Completed | Failed

  predicate Terminal(status: Status) {
    status.Cancelled? || status.Completed? || status.Failed?
  }

  /** What one progress report carries: item, counters and the reporter's clock. */
  datatype Report = Report(item: Option<string>, items: nat, bytes: nat, at: Time)

  datatype Event =
    | EvStarted
    | EvProgress(report: Report)
    | EvPaused
    | EvResumed
    | EvCompleted
    | EvFailed(code: string)
    | EvCancelled

  predicate TerminalEvent(e: Event) {
    e.EvCompleted? || e.EvFailed? || e.EvCancelled?
  }

  /** The event that announces a terminal status. */
  function Announcement(status: Status, code: Option<string>): Event {
    match status
    case Cancelled => EvCancelled
    case Completed => EvCompleted
    case _ => EvFailed(if code.Some? then code.value else "")
  }

  /** An observer of one job's events is in one of these phases. */
  datatype Phase = Silent | Flowing | Held | Ended | Malformed

  function Advance(p: Phase, e: Event): Phase {
    match e
    case EvStarted => if p.Silent? then Flowing else Malformed
    case EvProgress(_) => if p.Flowing? then Flowing else Malformed
    case EvPaused => if p.Flowing? then Held else Malformed
    case EvResumed => if p.Held? then Flowing else Malformed
    case _ => if p.Flowing? || p.Held? then Ended else Malformed
  }

  function PhaseOf(log: seq<Event>): Phase {
    if log == [] then Silent else Advance(PhaseOf(log[..|log| - 1]), log[|log| - 1])
  }

  lemma PhaseOfAppend(log: seq<Event>, e: Event)
    ensures PhaseOf(log + [e]) == Advance(PhaseOf(log), e)
  {
    assert (log + [e])[..|log|] == log;
  }

  function ProgressCount(log: seq<Event>): nat {
    if log == [] then 0
    else ProgressCount(log[..|log| - 1]) + if log[|log| - 1].EvProgress? then 1 else 0
  }

  lemma ProgressCountAppend(log: seq<Event>, e: Event)
    ensures ProgressCount(log + [e]) == ProgressCount(log) + if e.EvProgress? then 1 else 0
  {
    assert (log + [e])[..|log|] == log;
  }

  // ----- the same stream shape, said without the automaton -----

  /** Some `EvResumed` lies strictly between positions i and j. */
  ghost predicate ResumedBetween(log: seq<Event>, i: int, j: int)
    requires 0 <= i <= j <= |log|
  {
    exists k :: i < k < j && log[k].EvResumed?
  }

  ghost predicate PausedBetween(log: seq<Event>, i: int, j: int)
    requires -1 <= i <= j <= |log|
  {
    exists k :: i < k < j && log[k].EvPaused?
  }

  /** Started first and only first; nothing after a terminal event; pauses and resumptions
      alternate, a pause first; no progress from a pause to the next resumption. */
  ghost predicate WellShaped(log: seq<Event>) {
    && (forall i :: 0 <= i < |log| ==> (log[i].EvStarted? <==> i == 0))
    && (forall i :: 0 <= i < |log| - 1 ==> !TerminalEvent(log[i]))
    && (forall i, j :: 0 <= i < j < |log| && log[i].EvPaused? && (log[j].EvPaused? || log[j].EvProgress?)
         ==> ResumedBetween(log, i, j))
    && (forall j :: 0 <= j < |log| && log[j].EvResumed? ==> PausedBetween(log, -1, j))
    && (forall i, j :: 0 <= i < j < |log| && log[i].EvResumed? && log[j].EvResumed? ==> PausedBetween(log, i, j))
  }

  /** Position i holds the last pause, and no resumption follows it. */
  ghost predicate OpenPause(log: seq<Event>, i: int)
    requires 0 <= i < |log|
  {
    log[i].EvPaused? && forall k :: i < k < |log| ==> !log[k].EvResumed?
  }

  ghost predicate HasOpenPause(log: seq<Event>) {
    exists i :: 0 <= i < |log| && OpenPause(log, i)
  }

  /** Shape facts about positions of a prefix are facts about the whole log. */
  lemma BetweenInPrefix(log: seq<Event>, e: Event, i: int, j: int)
    requires -1 <= i <= j <= |log|
    ensures PausedBetween(log + [e], i, j) == PausedBetween(log, i, j)
    ensures 0 <= i ==> ResumedBetween(log + [e], i, j) == ResumedBetween(log, i, j)
  {
    var more := log + [e];
    assert forall k :: 0 <= k < |log| ==> more[k] == log[k];
    if PausedBetween(more, i, j) {
      var k :| i < k < j && more[k].EvPaused?;
      assert log[k].EvPaused?;
    }
    if PausedBetween(log, i, j) {
      var k :| i < k < j && log[k].EvPaused?;
      assert more[k].EvPaused?;
    }
    if 0 <= i && ResumedBetween(more, i, j) {
      var k :| i < k < j && more[k].EvResumed?;
      assert log[k].EvResumed?;
    }
    if 0 <= i && ResumedBetween(log, i, j) {
      var k :| i < k < j && log[k].EvResumed?;
      assert more[k].EvResumed?;
    }
  }

  /** What one more event has to satisfy for the shape to survive it. */
  ghost predicate FitsAfter(log: seq<Event>, e: Event) {
    var n := |log|;
    && (e.EvStarted? <==> n == 0)
    && (n > 0 ==> !TerminalEvent(log[n - 1]))
    && (e.EvPaused? || e.EvProgress? ==> !HasOpenPause(log))
    && (e.EvResumed? ==> HasOpenPause(log))
  }

  lemma ShapePrefix(log: seq<Event>, e: Event)
    requires WellShaped(log + [e])
    ensures WellShaped(log)
  {
    var more := log + [e];
    assert forall k :: 0 <= k < |log| ==> more[k] == log[k];
    forall i, j | 0 <= i < j < |log| && log[i].EvPaused? && (log[j].EvPaused? || log[j].EvProgress?)
      ensures ResumedBetween(log, i, j)
    {
      assert more[i].EvPaused? && (more[j].EvPaused? || more[j].EvProgress?);
      BetweenInPrefix(log, e, i, j);
    }
    forall j | 0 <= j < |log| && log[j].EvResumed? ensures PausedBetween(log, -1, j) {
      assert more[j].EvResumed?;
      BetweenInPrefix(log, e, -1, j);
    }
    forall i, j | 0 <= i < j < |log| && log[i].EvResumed? && log[j].EvResumed?
      ensures PausedBetween(log, i, j)
    {
      assert more[i].EvResumed? && more[j].EvResumed?;
      BetweenInPrefix(log, e, i, j);
    }
  }

  /** With no pause open, every pause is followed by a resumption. */
  lemma ClosedPauses(log: seq<Event>, i: int)
    requires !HasOpenPause(log) && 0 <= i < |log| && log[i].EvPaused?
    ensures ResumedBetween(log, i, |log|)
  {
    assert !OpenPause(log, i);
  }

  /** If a resumption could follow, then the last of the earlier pauses is still open. */
  lemma LastPauseOpen(log: seq<Event>, from: int)
    requires -1 <= from <= |log| && PausedBetween(log, from, |log|)
    requires forall k :: from < k < |log| && log[k].EvResumed? ==> PausedBetween(log, k, |log|)
    ensures HasOpenPause(log)
    decreases |log| - from
  {
    var k :| from < k < |log| && log[k].EvPaused?;
    if !OpenPause(log, k) {
      var m :| k < m < |log| && log[m].EvResumed?;
      LastPauseOpen(log, m);
    }
  }

  lemma ShapeStep(log: seq<Event>, e: Event)
    requires WellShaped(log)
    ensures WellShaped(log + [e]) <==> FitsAfter(log, e)
  {
    var more, n := log + [e], |log|;
    assert forall k :: 0 <= k < n ==> more[k] == log[k];
    assert more[n] == e;
    if FitsAfter(log, e) { ShapeGrows(log, e); }
    if WellShaped(more) {
      assert more[n].EvStarted? <==> n == 0;
      if n > 0 { assert !TerminalEvent(more[n - 1]); }
      if (e.EvPaused? || e.EvProgress?) && HasOpenPause(log) {
        var i :| 0 <= i < n && OpenPause(log, i);
        assert more[i].EvPaused? && ResumedBetween(more, i, n);
        BetweenInPrefix(log, e, i, n);
        assert false;
      }
      if e.EvResumed? {
        assert PausedBetween(more, -1, n);
        BetweenInPrefix(log, e, -1, n);
        forall k | -1 < k < n && log[k].EvResumed? ensures PausedBetween(log, k, n) {
          assert more[k].EvResumed? && more[n].EvResumed?;
          assert PausedBetween(more, k, n);
          BetweenInPrefix(log, e, k, n);
        }
        LastPauseOpen(log, -1);
      }
    }
  }

  lemma ShapeGrows(log: seq<Event>, e: Event)
    requires WellShaped(log) && FitsAfter(log, e)
    ensures WellShaped(log + [e])
  {
    var more, n := log + [e], |log|;
    assert forall k :: 0 <= k < n ==> more[k] == log[k];
    forall i, j | 0 <= i < j < |more| && more[i].EvPaused? && (more[j].EvPaused? || more[j].EvProgress?)
      ensures ResumedBetween(more, i, j)
    {
      BetweenInPrefix(log, e, i, j);
      if j == n { ClosedPauses(log, i); }
    }
    forall j | 0 <= j < |more| && more[j].EvResumed? ensures PausedBetween(more, -1, j) {
      BetweenInPrefix(log, e, -1, j);
      if j == n {
        var i :| 0 <= i < n && OpenPause(log, i);
        assert PausedBetween(log, -1, n);
      }
    }
    forall i, j | 0 <= i < j < |more| && more[i].EvResumed? && more[j].EvResumed?
      ensures PausedBetween(more, i, j)
    {
      BetweenInPrefix(log, e, i, j);
      if j == n {
        var p :| 0 <= p < n && OpenPause(log, p);
        assert i < p;
        assert PausedBetween(log, i, n);
      }
    }
  }

  /** How one event changes whether a pause is open. */
  lemma OpenPauseStep(log: seq<Event>, e: Event)
    ensures HasOpenPause(log + [e]) <==> e.EvPaused? || (HasOpenPause(log) && !e.EvResumed?)
  {
    var more, n := log + [e], |log|;
    assert forall k :: 0 <= k < n ==> more[k] == log[k];
    if e.EvPaused? { assert OpenPause(more, n); }
    if HasOpenPause(log) && !e.EvResumed? {
      var i :| 0 <= i < n && OpenPause(log, i);
      assert OpenPause(more, i);
    }
    if HasOpenPause(more) {
      var i :| 0 <= i <= n && OpenPause(more, i);
      if i < n {
        assert !more[n].EvResumed?;
        forall k | i < k < n ensures !log[k].EvResumed? { assert more[k] == log[k]; }
        assert OpenPause(log, i);
      }
    }
  }

  /** The automaton accepts exactly the well-shaped streams, and its phase says what the
      stream looks like so far. */
  lemma {:induction false} PhaseMeaning(log: seq<Event>)
    ensures PhaseOf(log) != Malformed <==> WellShaped(log)
    ensures PhaseOf(log).Silent? <==> log == []
    ensures WellShaped(log) ==>
      (PhaseOf(log).Ended? <==> log != [] && TerminalEvent(log[|log| - 1]))
    ensures WellShaped(log) && !PhaseOf(log).Ended? ==> (PhaseOf(log).Held? <==> HasOpenPause(log))
  {
    if log != [] {
      var init, e := log[..|log| - 1], log[|log| - 1];
      assert log == init + [e];
      PhaseMeaning(init);
      if WellShaped(init) {
        ShapeStep(init, e);
        OpenPauseStep(init, e);
      } else if WellShaped(log) {
        ShapePrefix(init, e);
      }
    }
  }
}
