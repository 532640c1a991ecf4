/** Comparing two text files: the contents are split into lines, and only the lines are diffed. */
module TextCompare {
  import opened Basics
  import opened DiffScript
  import opened Segments
  import opened ScriptLines
  import opened HunkPatch
  import opened TextDiff
  import opened Texts
  import opened DiffPatch

  datatype CompareResult = CompareResult(identical: bool, hunks: seq<DiffHunk>)

  // ----- the comparison -----

  /** The hunks rebuild either text's lines from the other's. They are empty exactly if the texts
      differ at most in line endings, so texts can be reported as not identical and yet without a
      single difference. No edit script changes fewer lines. */
  method CompareTextFiles(left: string, right: string) returns (r: CompareResult)
    ensures r.identical <==> left == right
    ensures Apply(Lines(left), r.hunks, 0) == Some(Lines(right))
    ensures Apply(Lines(right), SwapHunks(r.hunks), 0) == Some(Lines(left))
    ensures r.hunks == [] <==> Normal(left) == Normal(right)
    ensures !r.identical && r.hunks == [] <==> left != right && Normal(left) == Normal(right)
    ensures forall other :: Script(other, Lines(left), Lines(right), 0, 0) ==> ShownChanges(r.hunks, |r.hunks|) <= Cost(other)
    ensures forall k, m :: 0 <= k < |r.hunks| && 0 <= m < |r.hunks[k].lines| ==>
      TrueNumbers(r.hunks[k], m, Lines(left), Lines(right))
    ensures forall k :: 0 <= k < |r.hunks| ==> ShapeOk(r.hunks[k].lines, CONTEXT_SIZE, k + 1 < |r.hunks|)
    ensures forall k :: 0 <= k < |r.hunks| ==> RunningCounts(r.hunks, k)
  {
    hide ShapeOk, RunningCounts, TrueNumbers, PatchOf, DiffOf, Apply, Lines, Normal;
    var leftLines, rightLines := Lines(left), Lines(right);
    var hunks, ops, bounds := ComputeDiffHunks(leftLines, rightLines);
    IsDiff(hunks, ops, bounds, leftLines, rightLines);
    DiffIsPatch(hunks, ops, bounds, leftLines, rightLines);
    PatchRebuildsRight(hunks, ops, bounds, leftLines, rightLines, CONTEXT_SIZE);
    ReversePatchRebuildsLeft(hunks, ops, bounds, leftLines, rightLines, CONTEXT_SIZE);
    ShownIsCost(hunks, ops, bounds, leftLines, rightLines, CONTEXT_SIZE);
    NoHunksIffEqual(hunks, ops, bounds, leftLines, rightLines);
    SameLines(left, right);
    forall k, m | 0 <= k < |hunks| && 0 <= m < |hunks[k].lines| ensures TrueNumbers(hunks[k], m, leftLines, rightLines) {
      LinesAreNumbered(hunks, ops, bounds, leftLines, rightLines, CONTEXT_SIZE, k, m);
    }
    forall k | 0 <= k < |hunks| ensures ShapeOk(hunks[k].lines, CONTEXT_SIZE, k + 1 < |hunks|) && RunningCounts(hunks, k) {
      HunkShape(hunks, ops, bounds, leftLines, rightLines, CONTEXT_SIZE, k);
      CountsAreRunningTotals(hunks, ops, bounds, leftLines, rightLines, k);
    }
    r := CompareResult(left == right, hunks);
  }

  lemma IsDiff(hunks: seq<DiffHunk>, ops: seq<DiffOp>, bounds: Bounds, left: seq<Line>, right: seq<Line>)
    requires Aligned(ops, left, right) && Segmentation(Kept(ops), CONTEXT_SIZE, bounds)
    requires InRange(ops, bounds) && HunksReport(hunks, ops, left, right, bounds)
    ensures DiffOf(hunks, ops, bounds, left, right)
  {
  }
}
