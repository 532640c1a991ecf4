/** The line diff of two text files: table, backtrack and hunks, as the loops compute them. */
module TextDiff {
  import opened Basics
  import opened DiffScript
  import opened Segments
  import opened ScriptLines

  const CONTEXT_SIZE: nat := 3

  /** Left lines in the first k segments together. */
  function OldTotal(ops: seq<DiffOp>, bounds: Bounds, k: nat): int
    requires k <= |bounds| && forall m :: 0 <= m < |bounds| ==> bounds[m].0 <= bounds[m].1 <= |ops|
  {
    if k == 0 then 0
    else OldTotal(ops, bounds, k - 1) + LeftPos(ops, bounds[k - 1].1) - LeftPos(ops, bounds[k - 1].0)
  }

  function NewTotal(ops: seq<DiffOp>, bounds: Bounds, k: nat): int
    requires k <= |bounds| && forall m :: 0 <= m < |bounds| ==> bounds[m].0 <= bounds[m].1 <= |ops|
  {
    if k == 0 then 0
    else NewTotal(ops, bounds, k - 1) + RightPos(ops, bounds[k - 1].1) - RightPos(ops, bounds[k - 1].0)
  }

  /** Hunk k reports segment k; its counts include those of all hunks before it. */
  predicate HunkReports(h: DiffHunk, ops: seq<DiffOp>, left: seq<Line>, right: seq<Line>, bounds: Bounds, k: nat)
    requires Aligned(ops, left, right) && InRange(ops, bounds) && k < |bounds|
  {
    var (a, b) := bounds[k];
    && h.oldStart == LeftPos(ops, a) + 1 && h.newStart == RightPos(ops, a) + 1
    && h.oldCount == OldTotal(ops, bounds, k + 1) && h.newCount == NewTotal(ops, bounds, k + 1)
    && h.lines == LinesOf(ops, left, right, a, b)
  }

  predicate HunksReport(hunks: seq<DiffHunk>, ops: seq<DiffOp>, left: seq<Line>, right: seq<Line>, bounds: Bounds)
    requires Aligned(ops, left, right) && InRange(ops, bounds)
  {
    |hunks| == |bounds| && forall k :: 0 <= k < |hunks| ==> HunkReports(hunks[k], ops, left, right, bounds, k)
  }

  // ----- the table -----

  /** Rows 0..n of the table hold the lengths of longest common subsequences of prefixes. */
  ghost predicate TableOk(table: array2<nat>, left: seq<Line>, right: seq<Line>)
    reads table
  {
    && table.Length0 == |left| + 1 && table.Length1 == |right| + 1
    && forall i, j :: 0 <= i <= |left| && 0 <= j <= |right| ==> LongestCommon(table[i, j], left, i, right, j)
  }

  method BuildTable(left: seq<Line>, right: seq<Line>) returns (table: array2<nat>)
    ensures fresh(table) && TableOk(table, left, right)
  {
    table := new nat[|left| + 1, |right| + 1]((i, j) => 0);
    forall i, j | 0 <= i <= |left| && 0 <= j <= |right| && (i == 0 || j == 0)
      ensures LongestCommon(0, left, i, right, j)
    {
      EmptyCommon(left, i, right, j);
    }
    for li := 1 to |left| + 1
      invariant forall i, j :: 0 <= i <= |left| && 0 <= j <= |right| && (i < li || j == 0) ==>
        LongestCommon(table[i, j], left, i, right, j)
    {
      for ri := 1 to |right| + 1
        invariant forall i, j :: 0 <= i <= |left| && 0 <= j <= |right| && (i < li || j == 0 || (i == li && j < ri)) ==>
          LongestCommon(table[i, j], left, i, right, j)
      {
        if left[li - 1] == right[ri - 1] {
          CommonDiagonal(table[li - 1, ri - 1], left, li - 1, right, ri - 1);
          table[li, ri] := table[li - 1, ri - 1] + 1;
        } else {
          CommonMax(table[li - 1, ri], table[li, ri - 1], left, li - 1, right, ri - 1);
          table[li, ri] := if table[li - 1, ri] > table[li, ri - 1] then table[li - 1, ri] else table[li, ri - 1];
        }
      }
    }
  }

  // ----- the backtrack -----

  function Reversed(ops: seq<DiffOp>): (r: seq<DiffOp>)
    ensures |r| == |ops|
  {
    if ops == [] then [] else [ops[|ops| - 1]] + Reversed(ops[..|ops| - 1])
  }

  lemma ReversedPush(ops: seq<DiffOp>, op: DiffOp)
    ensures Reversed(ops + [op]) == [op] + Reversed(ops)
  {
    assert (ops + [op])[..|ops|] == ops;
  }

  /** Walks the table from its last corner to its first. The script consumes both texts, keeps
      as many lines as any common subsequence has, and so costs no more than any other script. */
  method Backtrack(left: seq<Line>, right: seq<Line>, table: array2<nat>) returns (ops: seq<DiffOp>)
    requires TableOk(table, left, right)
    ensures Script(ops, left, right, 0, 0)
    ensures LongestCommon(Count(ops, Equal), left, |left|, right, |right|)
    ensures forall other :: Script(other, left, right, 0, 0) ==> Cost(ops) <= Cost(other)
  {
    hide LongestCommon, Cost;
    var pushed: seq<DiffOp> := [];
    var i, j := |left|, |right|;
    while i > 0 || j > 0
      invariant 0 <= i <= |left| && 0 <= j <= |right|
      invariant Script(Reversed(pushed), left, right, i, j)
      invariant Count(Reversed(pushed), Equal) + table[i, j] == table[|left|, |right|]
      decreases i + j
    {
      StepBack(table, left, right, i, j);
      if i > 0 && j > 0 && left[i - 1] == right[j - 1] {
        ReversedPush(pushed, Equal);
        pushed := pushed + [Equal];
        i, j := i - 1, j - 1;
      } else if j > 0 && (i == 0 || table[i, j - 1] >= table[i - 1, j]) {
        ReversedPush(pushed, Add);
        pushed := pushed + [Add];
        j := j - 1;
      } else {
        ReversedPush(pushed, Remove);
        pushed := pushed + [Remove];
        i := i - 1;
      }
    }
    ops := Reversed(pushed);
    BackAtStart(table, left, right, ops);
  }

  lemma BackAtStart(table: array2<nat>, left: seq<Line>, right: seq<Line>, ops: seq<DiffOp>)
    requires TableOk(table, left, right) && Script(ops, left, right, 0, 0)
    requires Count(ops, Equal) + table[0, 0] == table[|left|, |right|]
    ensures LongestCommon(Count(ops, Equal), left, |left|, right, |right|)
    ensures forall other :: Script(other, left, right, 0, 0) ==> Cost(ops) <= Cost(other)
  {
    EmptyCommon(left, 0, right, 0);
    LongestUnique(table[0, 0], 0, left, 0, right, 0);
    forall other | Script(other, left, right, 0, 0) ensures Cost(ops) <= Cost(other) {
      LongestIsCheapest(ops, other, left, right);
    }
  }

  /** The entry from which the walk leaves, in terms of the entry it goes to. */
  lemma StepBack(table: array2<nat>, left: seq<Line>, right: seq<Line>, i: nat, j: nat)
    requires TableOk(table, left, right) && i <= |left| && j <= |right| && i + j > 0
    ensures table[i, j] ==
      if i > 0 && j > 0 && left[i - 1] == right[j - 1] then table[i - 1, j - 1] + 1
      else if j > 0 && (i == 0 || table[i, j - 1] >= table[i - 1, j]) then table[i, j - 1]
      else table[i - 1, j]
  {
    if i > 0 && j > 0 && left[i - 1] == right[j - 1] {
      CommonDiagonal(table[i - 1, j - 1], left, i - 1, right, j - 1);
      LongestUnique(table[i, j], table[i - 1, j - 1] + 1, left, i, right, j);
    } else {
      StepSideways(table, left, right, i, j);
    }
  }

  /** Where the last lines differ, the entry is that of the neighbour the walk moves to. */
  lemma StepSideways(table: array2<nat>, left: seq<Line>, right: seq<Line>, i: nat, j: nat)
    requires TableOk(table, left, right) && i <= |left| && j <= |right| && i + j > 0
    requires i > 0 && j > 0 ==> left[i - 1] != right[j - 1]
    ensures table[i, j] ==
      if i == 0 then table[i, j - 1]
      else if j == 0 then table[i - 1, j]
      else if table[i, j - 1] >= table[i - 1, j] then table[i, j - 1]
      else table[i - 1, j]
  {
    if i == 0 {
      EmptyCommon(left, 0, right, j);
      EmptyCommon(left, 0, right, j - 1);
      LongestUnique(table[i, j], 0, left, i, right, j);
      LongestUnique(table[i, j - 1], 0, left, i, right, j - 1);
    } else if j == 0 {
      EmptyCommon(left, i, right, 0);
      EmptyCommon(left, i - 1, right, 0);
      LongestUnique(table[i, j], 0, left, i, right, j);
      LongestUnique(table[i - 1, j], 0, left, i - 1, right, j);
    } else {
      CommonMax(table[i - 1, j], table[i, j - 1], left, i - 1, right, j - 1);
      LongestUnique(table[i, j], if table[i - 1, j] > table[i, j - 1] then table[i - 1, j] else table[i, j - 1], left, i, right, j);
    }
  }

  // ----- the hunks -----

  /** Closing segment s adds its report to those of the segments before. */
  lemma ReportAppend(hunks: seq<DiffHunk>, h: DiffHunk, ops: seq<DiffOp>, left: seq<Line>, right: seq<Line>, bounds: Bounds, s: (nat, nat))
    requires Aligned(ops, left, right) && InRange(ops, bounds) && s.0 <= s.1 <= |ops|
    requires HunksReport(hunks, ops, left, right, bounds)
    requires h.oldStart == LeftPos(ops, s.0) + 1 && h.newStart == RightPos(ops, s.0) + 1
    requires h.oldCount == OldTotal(ops, bounds, |bounds|) + LeftPos(ops, s.1) - LeftPos(ops, s.0)
    requires h.newCount == NewTotal(ops, bounds, |bounds|) + RightPos(ops, s.1) - RightPos(ops, s.0)
    requires h.lines == LinesOf(ops, left, right, s.0, s.1)
    ensures InRange(ops, bounds + [s]) && HunksReport(hunks + [h], ops, left, right, bounds + [s])
    ensures OldTotal(ops, bounds + [s], |bounds| + 1) == h.oldCount
    ensures NewTotal(ops, bounds + [s], |bounds| + 1) == h.newCount
  {
    hide Aligned, LinesOf, LeftPos, RightPos;
    var more := bounds + [s];
    TotalsPrefix(ops, bounds, s, |bounds|);
    forall k | 0 <= k < |hunks| + 1 ensures HunkReports((hunks + [h])[k], ops, left, right, more, k) {
      if k < |hunks| {
        assert HunkReports(hunks[k], ops, left, right, bounds, k) && more[k] == bounds[k];
        TotalsPrefix(ops, bounds, s, k + 1);
      }
    }
  }

  lemma {:induction false} TotalsPrefix(ops: seq<DiffOp>, bounds: Bounds, s: (nat, nat), k: nat)
    requires InRange(ops, bounds) && s.0 <= s.1 <= |ops| && k <= |bounds|
    ensures InRange(ops, bounds + [s])
    ensures OldTotal(ops, bounds + [s], k) == OldTotal(ops, bounds, k)
    ensures NewTotal(ops, bounds + [s], k) == NewTotal(ops, bounds, k)
  {
    if k > 0 { TotalsPrefix(ops, bounds, s, k - 1); }
  }

  /** What the loop variables of the hunk builder mean after p operations. */
  ghost predicate Building(ops: seq<DiffOp>, left: seq<Line>, right: seq<Line>, bounds: Bounds, open: Option<nat>, p: nat,
      lines: seq<DiffLine>, oldStart: nat, newStart: nat, oldCount: int, newCount: int, contextCount: nat)
    requires Aligned(ops, left, right) && InRange(ops, bounds) && p <= |ops|
  {
    var oldBase, newBase := OldTotal(ops, bounds, |bounds|), NewTotal(ops, bounds, |bounds|);
    match open
    case None => lines == [] && oldCount == oldBase && newCount == newBase
    case Some(a) =>
      && a < p && oldStart == LeftPos(ops, a) && newStart == RightPos(ops, a)
      && lines == LinesOf(ops, left, right, a, p)
      && oldCount == oldBase + LeftPos(ops, p) - LeftPos(ops, a)
      && newCount == newBase + RightPos(ops, p) - RightPos(ops, a)
      && Trailing(Kept(ops), a, p, contextCount)
  }

  /** Inside a hunk: the next line is appended and the right counts go up. */
  lemma BuildGrow(ops: seq<DiffOp>, left: seq<Line>, right: seq<Line>, bounds: Bounds, a: nat, p: nat,
      lines: seq<DiffLine>, oldStart: nat, newStart: nat, oldCount: int, newCount: int, contextCount: nat)
    requires Aligned(ops, left, right) && InRange(ops, bounds) && p < |ops|
    requires Building(ops, left, right, bounds, Some(a), p, lines, oldStart, newStart, oldCount, newCount, contextCount)
    ensures var n := if ops[p].Equal? then contextCount + 1 else 0;
      && Building(ops, left, right, bounds, Some(a), p + 1, lines + [LineOf(ops, left, right, p)], oldStart, newStart,
                  oldCount + (if ops[p].Add? then 0 else 1), newCount + (if ops[p].Remove? then 0 else 1), n)
      && (n < CONTEXT_SIZE <==> !(Window(Kept(ops), CONTEXT_SIZE, p + 1) && a + CONTEXT_SIZE <= p + 1))
  {
    hide Aligned, LineOf, OldTotal, NewTotal, InRange;
    var n := if ops[p].Equal? then contextCount + 1 else 0;
    assert Trailing(Kept(ops), a, p + 1, n);
    TrailingWindow(Kept(ops), CONTEXT_SIZE, a, p + 1, n);
  }

  /** A change outside a hunk opens one. */
  lemma BuildOpen(ops: seq<DiffOp>, left: seq<Line>, right: seq<Line>, bounds: Bounds, p: nat,
      lines: seq<DiffLine>, oldStart: nat, newStart: nat, oldCount: int, newCount: int, contextCount: nat)
    requires Aligned(ops, left, right) && InRange(ops, bounds) && p < |ops| && !ops[p].Equal?
    requires Building(ops, left, right, bounds, None, p, lines, oldStart, newStart, oldCount, newCount, contextCount)
    ensures Building(ops, left, right, bounds, Some(p), p + 1, [LineOf(ops, left, right, p)], LeftPos(ops, p), RightPos(ops, p),
                     oldCount + (if ops[p].Add? then 0 else 1), newCount + (if ops[p].Remove? then 0 else 1), 0)
  {
    hide Aligned, LineOf, OldTotal, NewTotal, InRange;
    assert LinesOf(ops, left, right, p, p) == [];
    assert Trailing(Kept(ops), p, p + 1, 0);
  }

  /** Closing an open hunk as it stands. */
  lemma BuildClose(hunks: seq<DiffHunk>, ops: seq<DiffOp>, left: seq<Line>, right: seq<Line>, bounds: Bounds, a: nat, p: nat,
      lines: seq<DiffLine>, oldStart: nat, newStart: nat, oldCount: nat, newCount: nat, contextCount: nat)
    requires Aligned(ops, left, right) && InRange(ops, bounds) && HunksReport(hunks, ops, left, right, bounds) && p <= |ops|
    requires Building(ops, left, right, bounds, Some(a), p, lines, oldStart, newStart, oldCount, newCount, contextCount)
    ensures InRange(ops, bounds + [(a, p)])
    ensures HunksReport(hunks + [DiffHunk(oldStart + 1, oldCount, newStart + 1, newCount, lines)], ops, left, right, bounds + [(a, p)])
    ensures Building(ops, left, right, bounds + [(a, p)], None, p, [], oldStart, newStart, oldCount, newCount, contextCount)
  {
    hide Aligned, LineOf, InRange, HunksReport, Trailing;
    ReportAppend(hunks, DiffHunk(oldStart + 1, oldCount, newStart + 1, newCount, lines), ops, left, right, bounds, (a, p));
  }

  /** Outside a hunk a common line changes nothing. */
  lemma BuildSkip(ops: seq<DiffOp>, left: seq<Line>, right: seq<Line>, bounds: Bounds, p: nat,
      lines: seq<DiffLine>, oldStart: nat, newStart: nat, oldCount: int, newCount: int, contextCount: nat)
    requires Aligned(ops, left, right) && InRange(ops, bounds) && p < |ops|
    requires Building(ops, left, right, bounds, None, p, lines, oldStart, newStart, oldCount, newCount, contextCount)
    ensures Building(ops, left, right, bounds, None, p + 1, lines, oldStart, newStart, oldCount, newCount, contextCount)
    ensures lines == []
  {
  }

  method BuildHunks(ops: seq<DiffOp>, left: seq<Line>, right: seq<Line>) returns (hunks: seq<DiffHunk>, ghost bounds: Bounds)
    requires Aligned(ops, left, right)
    ensures Segmentation(Kept(ops), CONTEXT_SIZE, bounds)
    ensures InRange(ops, bounds) && HunksReport(hunks, ops, left, right, bounds)
  {
    hide Scanned, Segmentation, HunksReport, InRange, LinesOf, LineOf, OldTotal, NewTotal, Window, Trailing, Aligned, Building, LeftPos, RightPos;
    hunks, bounds := [], [];
    var currentLines: seq<DiffLine> := [];
    var li: nat, ri: nat := 0, 0;
    var hunkOldStart: nat, hunkNewStart: nat, hunkOldCount: nat, hunkNewCount: nat := 0, 0, 0, 0;
    var inHunk, contextCount := false, 0;
    ghost var open: Option<nat> := None;
    ghost var kept := Kept(ops);
    StartScan(ops, left, right);
    for p := 0 to |ops|
      invariant li == LeftPos(ops, p) && ri == RightPos(ops, p)
      invariant (inHunk <==> open.Some?) && (currentLines != [] <==> inHunk)
      invariant Scanned(kept, CONTEXT_SIZE, bounds, open, p)
      invariant InRange(ops, bounds) && HunksReport(hunks, ops, left, right, bounds)
      invariant Building(ops, left, right, bounds, open, p, currentLines, hunkOldStart, hunkNewStart, hunkOldCount, hunkNewCount, contextCount)
    {
      AtOp(ops, left, right, p);
      if inHunk {
        ScanInside(kept, CONTEXT_SIZE, bounds, open.value, p);
        BuildGrow(ops, left, right, bounds, open.value, p, currentLines, hunkOldStart, hunkNewStart, hunkOldCount, hunkNewCount, contextCount);
      } else {
        ScanOutside(kept, CONTEXT_SIZE, bounds, p);
        BuildSkip(ops, left, right, bounds, p, currentLines, hunkOldStart, hunkNewStart, hunkOldCount, hunkNewCount, contextCount);
        if !ops[p].Equal? {
          BuildOpen(ops, left, right, bounds, p, currentLines, hunkOldStart, hunkNewStart, hunkOldCount, hunkNewCount, contextCount);
        }
      }
      match ops[p] {
        case Equal =>
          if inHunk {
            currentLines := currentLines + [DiffLine(Some(li + 1), Some(ri + 1), left[li], Context)];
            contextCount := contextCount + 1;
            hunkOldCount := hunkOldCount + 1;
            hunkNewCount := hunkNewCount + 1;
            if contextCount >= CONTEXT_SIZE {
              BuildClose(hunks, ops, left, right, bounds, open.value, p + 1, currentLines, hunkOldStart, hunkNewStart, hunkOldCount, hunkNewCount, contextCount);
              hunks := hunks + [DiffHunk(hunkOldStart + 1, hunkOldCount, hunkNewStart + 1, hunkNewCount, currentLines)];
              bounds := bounds + [(open.value, p + 1)];
              currentLines := [];
              inHunk := false;
              open := None;
            }
          }
          li := li + 1;
          ri := ri + 1;
        case Add =>
          if !inHunk {
            inHunk := true;
            hunkOldStart := li;
            hunkNewStart := ri;
            open := Some(p);
            assert currentLines + [DiffLine(None, Some(ri + 1), right[ri], Added)] == [DiffLine(None, Some(ri + 1), right[ri], Added)];
          }
          currentLines := currentLines + [DiffLine(None, Some(ri + 1), right[ri], Added)];
          hunkNewCount := hunkNewCount + 1;
          contextCount := 0;
          ri := ri + 1;
        case Remove =>
          if !inHunk {
            inHunk := true;
            hunkOldStart := li;
            hunkNewStart := ri;
            open := Some(p);
            assert currentLines + [DiffLine(Some(li + 1), None, left[li], Removed)] == [DiffLine(Some(li + 1), None, left[li], Removed)];
          }
          currentLines := currentLines + [DiffLine(Some(li + 1), None, left[li], Removed)];
          hunkOldCount := hunkOldCount + 1;
          contextCount := 0;
          li := li + 1;
      }
    }
    ScanEnds(kept, CONTEXT_SIZE, bounds, open);
    if currentLines != [] {
      BuildClose(hunks, ops, left, right, bounds, open.value, |ops|, currentLines, hunkOldStart, hunkNewStart, hunkOldCount, hunkNewCount, contextCount);
      hunks := hunks + [DiffHunk(hunkOldStart + 1, hunkOldCount, hunkNewStart + 1, hunkNewCount, currentLines)];
      bounds := bounds + [(open.value, |ops|)];
    }
  }

  lemma StartScan(ops: seq<DiffOp>, left: seq<Line>, right: seq<Line>)
    requires Aligned(ops, left, right)
    ensures Scanned(Kept(ops), CONTEXT_SIZE, [], None, 0)
    ensures InRange(ops, []) && HunksReport([], ops, left, right, [])
    ensures Building(ops, left, right, [], None, 0, [], 0, 0, 0, 0, 0)
    ensures LeftPos(ops, 0) == 0 && RightPos(ops, 0) == 0
  {
  }

  /** The whole diff: a cheapest script, cut into hunks. */
  method ComputeDiffHunks(left: seq<Line>, right: seq<Line>) returns (hunks: seq<DiffHunk>, ghost ops: seq<DiffOp>, ghost bounds: Bounds)
    ensures Script(ops, left, right, 0, 0) && Aligned(ops, left, right)
    ensures LongestCommon(Count(ops, Equal), left, |left|, right, |right|)
    ensures forall other :: Script(other, left, right, 0, 0) ==> Cost(ops) <= Cost(other)
    ensures Segmentation(Kept(ops), CONTEXT_SIZE, bounds)
    ensures InRange(ops, bounds) && HunksReport(hunks, ops, left, right, bounds)
  {
    if left == [] && right == [] {
      hunks, ops, bounds := [], [], [];
      EmptyCommon(left, 0, right, 0);
      return;
    }
    var table := BuildTable(left, right);
    var script := Backtrack(left, right, table);
    ScriptAligned(script, left, right);
    hunks, bounds := BuildHunks(script, left, right);
    ops := script;
  }
}
