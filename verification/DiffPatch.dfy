/** What the hunks of a text diff say: a correct patch, empty exactly for equal texts, and with
    counts that run on from hunk to hunk. */
module DiffPatch {
  import opened Basics
  import opened DiffScript
  import opened Segments
  import opened ScriptLines
  import opened HunkPatch
  import opened TextDiff

  /** The facts `ComputeDiffHunks` establishes about its result. */
  ghost predicate DiffOf(hunks: seq<DiffHunk>, ops: seq<DiffOp>, bounds: Bounds, left: seq<Line>, right: seq<Line>) {
    && Aligned(ops, left, right)
    && Segmentation(Kept(ops), CONTEXT_SIZE, bounds)
    && InRange(ops, bounds) && HunksReport(hunks, ops, left, right, bounds)
  }

  lemma DiffIsPatch(hunks: seq<DiffHunk>, ops: seq<DiffOp>, bounds: Bounds, left: seq<Line>, right: seq<Line>)
    requires DiffOf(hunks, ops, bounds, left, right)
    ensures PatchOf(hunks, ops, bounds, left, right, CONTEXT_SIZE)
  {
    hide LeftPos, RightPos, LinesOf, LineOf, OldTotal, NewTotal, Aligned, Segmentation;
    forall k | 0 <= k < |hunks| ensures Places(hunks[k], ops, left, right, bounds[k]) {
      assert HunkReports(hunks[k], ops, left, right, bounds, k);
    }
  }

  // ----- no hunks, exactly for equal texts -----

  lemma {:induction false} OnlyEqual(ops: seq<DiffOp>, k: nat)
    requires Count(ops, Add) == 0 && Count(ops, Remove) == 0 && k < |ops|
    ensures ops[k].Equal?
    decreases |ops|
  {
    if k > 0 { OnlyEqual(ops[1..], k - 1); }
  }

  lemma WholeIsCommon(text: seq<Line>)
    ensures LongestCommon(|text|, text, |text|, text, |text|)
  {
    assert Spells(text, text, |text|, seq(|text|, k => k));
    assert Common(text, text, |text|, text, |text|);
    forall c | Common(c, text, |text|, text, |text|) ensures |c| <= |text| {
      NoLonger(c, text, |text|);
    }
  }

  /** Only because the script is a cheapest one: equal texts could also be diffed by removing
      and adding everything. */
  lemma NoHunksIffEqual(hunks: seq<DiffHunk>, ops: seq<DiffOp>, bounds: Bounds, left: seq<Line>, right: seq<Line>)
    requires DiffOf(hunks, ops, bounds, left, right) && Script(ops, left, right, 0, 0)
    requires LongestCommon(Count(ops, Equal), left, |left|, right, |right|)
    ensures hunks == [] <==> left == right
  {
    NoSegments(Kept(ops), CONTEXT_SIZE, bounds);
    if hunks == [] {
      DiffIsPatch(hunks, ops, bounds, left, right);
      PatchRebuildsRight(hunks, ops, bounds, left, right, CONTEXT_SIZE);
      assert left[0..] == left;
    }
    if left == right {
      WholeIsCommon(left);
      LongestUnique(Count(ops, Equal), |left|, left, |left|, right, |right|);
      ScriptCounts(ops, left, right, 0, 0);
      forall k | 0 <= k < |ops| ensures Kept(ops)[k] { OnlyEqual(ops, k); }
    }
  }

  // ----- counts -----

  /** The size that hunk k really has on either side. */
  predicate RunningCounts(hunks: seq<DiffHunk>, k: nat)
    requires k < |hunks|
  {
    && |OldLines(hunks[k].lines)| == hunks[k].oldCount - (if k == 0 then 0 else hunks[k - 1].oldCount)
    && |NewLines(hunks[k].lines)| == hunks[k].newCount - (if k == 0 then 0 else hunks[k - 1].newCount)
  }

  /** The counters are never reset between hunks, so what a hunk reports as its size is the size
      of all hunks up to it; its own size is the difference to the one before. */
  lemma CountsAreRunningTotals(hunks: seq<DiffHunk>, ops: seq<DiffOp>, bounds: Bounds, left: seq<Line>, right: seq<Line>, k: nat)
    requires DiffOf(hunks, ops, bounds, left, right) && k < |hunks|
    ensures RunningCounts(hunks, k)
  {
    hide LeftPos, RightPos, LinesOf, Aligned, AlignedAt, Segmentation, LineOf, OldLines, NewLines;
    assert HunkReports(hunks[k], ops, left, right, bounds, k);
    if k > 0 { assert HunkReports(hunks[k - 1], ops, left, right, bounds, k - 1); }
    var (a, b) := bounds[k];
    SegmentContents(ops, left, right, a, b);
    assert |left[LeftPos(ops, a)..LeftPos(ops, b)]| == LeftPos(ops, b) - LeftPos(ops, a);
    assert |right[RightPos(ops, a)..RightPos(ops, b)]| == RightPos(ops, b) - RightPos(ops, a);
    assert OldTotal(ops, bounds, k + 1) == OldTotal(ops, bounds, k) + LeftPos(ops, b) - LeftPos(ops, a);
    assert NewTotal(ops, bounds, k + 1) == NewTotal(ops, bounds, k) + RightPos(ops, b) - RightPos(ops, a);
  }

  lemma {:induction false} ContextCounts(lines: seq<DiffLine>)
    requires lines != [] && lines[|lines| - 1].lineType.Context?
    ensures OldLines(lines) != [] && NewLines(lines) != []
  {
  }

  /** So the reported size of a hunk is right exactly for the first one: every hunk that has
      another one behind it holds context lines, which count on both sides. */
  lemma CountsRightOnlyForFirst(hunks: seq<DiffHunk>, ops: seq<DiffOp>, bounds: Bounds, left: seq<Line>, right: seq<Line>, k: nat)
    requires DiffOf(hunks, ops, bounds, left, right) && k < |hunks|
    ensures hunks[k].oldCount == |OldLines(hunks[k].lines)| <==> k == 0
    ensures hunks[k].newCount == |NewLines(hunks[k].lines)| <==> k == 0
  {
    hide DiffOf, PatchOf, OldLines, NewLines;
    CountsAreRunningTotals(hunks, ops, bounds, left, right, k);
    if k > 0 {
      CountsAreRunningTotals(hunks, ops, bounds, left, right, k - 1);
      DiffIsPatch(hunks, ops, bounds, left, right);
      HunkShape(hunks, ops, bounds, left, right, CONTEXT_SIZE, k - 1);
      var lines := hunks[k - 1].lines;
      assert lines[|lines| - 1].lineType.Context?;
      ContextCounts(lines);
    }
  }

  // ----- how much is changed -----

  function Changes(ops: seq<DiffOp>, a: nat, b: nat): nat
    requires a <= b <= |ops|
  {
    if a == b then 0 else Changes(ops, a, b - 1) + if ops[b - 1].Equal? then 0 else 1
  }

  function ChangedLines(lines: seq<DiffLine>): nat {
    if lines == [] then 0
    else ChangedLines(lines[..|lines| - 1]) + if lines[|lines| - 1].lineType.Context? then 0 else 1
  }

  /** Added and removed lines shown in the first k hunks. */
  function ShownChanges(hunks: seq<DiffHunk>, k: nat): nat
    requires k <= |hunks|
  {
    if k == 0 then 0 else ShownChanges(hunks, k - 1) + ChangedLines(hunks[k - 1].lines)
  }

  lemma {:induction false} ChangesSplit(ops: seq<DiffOp>, a: nat, b: nat, c: nat)
    requires a <= b <= c <= |ops|
    ensures Changes(ops, a, c) == Changes(ops, a, b) + Changes(ops, b, c)
  {
    if b < c { ChangesSplit(ops, a, b, c - 1); }
  }

  lemma {:induction false} NoChanges(ops: seq<DiffOp>, a: nat, b: nat)
    requires a <= b <= |ops| && AllKept(Kept(ops), a, b)
    ensures Changes(ops, a, b) == 0
  {
    if a < b {
      NoChanges(ops, a, b - 1);
      assert Kept(ops)[b - 1];
    }
  }

  lemma {:induction false} ChangesShift(ops: seq<DiffOp>, a: nat, b: nat)
    requires a <= b < |ops|
    ensures Changes(ops, a + 1, b + 1) == Changes(ops[1..], a, b)
  {
    if a < b { ChangesShift(ops, a, b - 1); }
  }

  lemma {:induction false} CostIsChanges(ops: seq<DiffOp>)
    ensures Cost(ops) == Changes(ops, 0, |ops|)
  {
    if ops != [] {
      CostIsChanges(ops[1..]);
      ChangesShift(ops, 0, |ops| - 1);
      ChangesSplit(ops, 0, 1, |ops|);
    }
  }

  lemma {:induction false} SegmentChanges(ops: seq<DiffOp>, left: seq<Line>, right: seq<Line>, a: nat, b: nat)
    requires Aligned(ops, left, right) && a <= b <= |ops|
    ensures ChangedLines(LinesOf(ops, left, right, a, b)) == Changes(ops, a, b)
  {
    hide Aligned;
    if a < b {
      SegmentChanges(ops, left, right, a, b - 1);
      AtOp(ops, left, right, b - 1);
      var lines := LinesOf(ops, left, right, a, b);
      assert lines[..|lines| - 1] == LinesOf(ops, left, right, a, b - 1);
    }
  }

  lemma {:induction false} ShownPrefix(hunks: seq<DiffHunk>, ops: seq<DiffOp>, bounds: Bounds, left: seq<Line>, right: seq<Line>, run: nat, k: nat)
    requires PatchOf(hunks, ops, bounds, left, right, run) && k <= |hunks|
    ensures EndBefore(bounds, k) <= |ops| && ShownChanges(hunks, k) == Changes(ops, 0, EndBefore(bounds, k))
  {
    hide Aligned, LinesOf, SegmentOk, AllKept, Changes, ChangedLines, LeftPos, RightPos;
    if k == 0 {
      NothingChanged(ops);
    } else {
      ShownPrefix(hunks, ops, bounds, left, right, run, k - 1);
      var e := EndBefore(bounds, k - 1);
      var (a, b) := bounds[k - 1];
      assert GapOk(Kept(ops), bounds, k - 1) && Places(hunks[k - 1], ops, left, right, bounds[k - 1]);
      NoChanges(ops, e, a);
      SegmentChanges(ops, left, right, a, b);
      ChangesSplit(ops, 0, e, a);
      ChangesSplit(ops, 0, a, b);
    }
  }

  lemma NothingChanged(ops: seq<DiffOp>)
    ensures Changes(ops, 0, 0) == 0
  {
  }

  /** The hunks show as many added and removed lines as the script has. */
  lemma ShownIsCost(hunks: seq<DiffHunk>, ops: seq<DiffOp>, bounds: Bounds, left: seq<Line>, right: seq<Line>, run: nat)
    requires PatchOf(hunks, ops, bounds, left, right, run)
    ensures ShownChanges(hunks, |hunks|) == Cost(ops)
  {
    hide Aligned, LinesOf, SegmentOk, Changes, ChangedLines, LeftPos, RightPos, AllKept;
    var e := EndBefore(bounds, |bounds|);
    ShownPrefix(hunks, ops, bounds, left, right, run, |hunks|);
    NoChanges(ops, e, |ops|);
    ChangesSplit(ops, 0, e, |ops|);
    CostIsChanges(ops);
  }
}
