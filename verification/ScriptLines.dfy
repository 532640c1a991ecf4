/** Scripts by positions: which lines each operation reads, how it is displayed, and hunks as
    stretches of displayed lines. */
module ScriptLines {
  import opened Basics
  import opened DiffScript
  import opened Segments

  type Line = string

  datatype LineType = Context | Added | Removed

  datatype DiffLine = DiffLine(leftNo: Option<nat>, rightNo: Option<nat>, content: Line, lineType: LineType)

  datatype DiffHunk = DiffHunk(oldStart: nat, oldCount: nat, newStart: nat, newCount: nat, lines: seq<DiffLine>)

  // ----- what a script says about each of its lines -----

  /** How many left lines the first k operations consume. */
  function LeftPos(ops: seq<DiffOp>, k: nat): nat
    requires k <= |ops|
  {
    if k == 0 then 0 else LeftPos(ops, k - 1) + if ops[k - 1].Add? then 0 else 1
  }

  /** How many right lines they produce. */
  function RightPos(ops: seq<DiffOp>, k: nat): nat
    requires k <= |ops|
  {
    if k == 0 then 0 else RightPos(ops, k - 1) + if ops[k - 1].Remove? then 0 else 1
  }

  /** Operation k reads lines that are there, and keeps only equal ones. */
  predicate AlignedAt(ops: seq<DiffOp>, left: seq<Line>, right: seq<Line>, k: nat)
    requires k < |ops|
  {
    var l, r := LeftPos(ops, k), RightPos(ops, k);
    && l <= |left| && r <= |right|
    && (!ops[k].Add? ==> l < |left|)
    && (!ops[k].Remove? ==> r < |right|)
    && (ops[k].Equal? ==> left[l] == right[r])
  }

  /** The script, said by positions: it ends where both texts end, and what it keeps is equal. */
  predicate Aligned(ops: seq<DiffOp>, left: seq<Line>, right: seq<Line>) {
    && LeftPos(ops, |ops|) == |left| && RightPos(ops, |ops|) == |right|
    && forall k :: 0 <= k < |ops| ==> AlignedAt(ops, left, right, k)
  }

  /** The display line of operation k, with true 1-based line numbers. */
  function LineOf(ops: seq<DiffOp>, left: seq<Line>, right: seq<Line>, k: nat): DiffLine
    requires Aligned(ops, left, right) && k < |ops|
  {
    assert AlignedAt(ops, left, right, k);
    var l, r := LeftPos(ops, k), RightPos(ops, k);
    match ops[k]
    case Equal => DiffLine(Some(l + 1), Some(r + 1), left[l], Context)
    case Add => DiffLine(None, Some(r + 1), right[r], Added)
    case Remove => DiffLine(Some(l + 1), None, left[l], Removed)
  }

  function LinesOf(ops: seq<DiffOp>, left: seq<Line>, right: seq<Line>, a: nat, b: nat): (lines: seq<DiffLine>)
    requires Aligned(ops, left, right) && a <= b <= |ops|
    ensures |lines| == b - a
  {
    if a == b then [] else LinesOf(ops, left, right, a, b - 1) + [LineOf(ops, left, right, b - 1)]
  }

  function Kept(ops: seq<DiffOp>): (kept: seq<bool>)
    ensures |kept| == |ops| && forall k :: 0 <= k < |ops| ==> kept[k] == ops[k].Equal?
  {
    seq(|ops|, k requires 0 <= k < |ops| => ops[k].Equal?)
  }

  predicate InRange(ops: seq<DiffOp>, bounds: Bounds) {
    forall m :: 0 <= m < |bounds| ==> bounds[m].0 <= bounds[m].1 <= |ops|
  }

  // ----- scripts are aligned -----

  lemma {:induction false} PosShift(ops: seq<DiffOp>, k: nat)
    requires k < |ops|
    ensures LeftPos(ops, k + 1) == (if ops[0].Add? then 0 else 1) + LeftPos(ops[1..], k)
    ensures RightPos(ops, k + 1) == (if ops[0].Remove? then 0 else 1) + RightPos(ops[1..], k)
  {
    if k > 0 { PosShift(ops, k - 1); }
  }

  lemma {:induction false} ScriptAt(ops: seq<DiffOp>, left: seq<Line>, right: seq<Line>, i: nat, j: nat, k: nat)
    requires Script(ops, left, right, i, j) && k <= |ops|
    ensures i + LeftPos(ops, k) <= |left| && j + RightPos(ops, k) <= |right|
    ensures k == |ops| ==> i + LeftPos(ops, k) == |left| && j + RightPos(ops, k) == |right|
    ensures k < |ops| && !ops[k].Add? ==> i + LeftPos(ops, k) < |left|
    ensures k < |ops| && !ops[k].Remove? ==> j + RightPos(ops, k) < |right|
    ensures k < |ops| && ops[k].Equal? ==> left[i + LeftPos(ops, k)] == right[j + RightPos(ops, k)]
    decreases |ops|
  {
    if ops == [] || k == 0 {
      ScriptCounts(ops, left, right, i, j);
    } else {
      PosShift(ops, k - 1);
      var i' := if ops[0].Add? then i else i + 1;
      var j' := if ops[0].Remove? then j else j + 1;
      ScriptAt(ops[1..], left, right, i', j', k - 1);
    }
  }

  lemma ScriptAligned(ops: seq<DiffOp>, left: seq<Line>, right: seq<Line>)
    requires Script(ops, left, right, 0, 0)
    ensures Aligned(ops, left, right)
  {
    forall k | 0 <= k < |ops| ensures AlignedAt(ops, left, right, k) {
      ScriptAt(ops, left, right, 0, 0, k);
    }
    ScriptAt(ops, left, right, 0, 0, |ops|);
  }

  lemma KeptAppend(ops: seq<DiffOp>, left: seq<Line>, right: seq<Line>, a: nat, p: nat)
    requires Aligned(ops, left, right) && a <= p < |ops|
    ensures LinesOf(ops, left, right, a, p + 1) == LinesOf(ops, left, right, a, p) + [LineOf(ops, left, right, p)]
  {
  }

  /** What operation p reads, and where it leads. */
  lemma AtOp(ops: seq<DiffOp>, left: seq<Line>, right: seq<Line>, p: nat)
    requires Aligned(ops, left, right) && p < |ops|
    ensures var l, r := LeftPos(ops, p), RightPos(ops, p);
      match ops[p]
      case Equal => l < |left| && LineOf(ops, left, right, p) == DiffLine(Some(l + 1), Some(r + 1), left[l], Context)
      case Add => r < |right| && LineOf(ops, left, right, p) == DiffLine(None, Some(r + 1), right[r], Added)
      case Remove => l < |left| && LineOf(ops, left, right, p) == DiffLine(Some(l + 1), None, left[l], Removed)
    ensures LeftPos(ops, p + 1) == LeftPos(ops, p) + if ops[p].Add? then 0 else 1
    ensures RightPos(ops, p + 1) == RightPos(ops, p) + if ops[p].Remove? then 0 else 1
  {
    assert AlignedAt(ops, left, right, p);
  }


  lemma AlignedHolds(ops: seq<DiffOp>, left: seq<Line>, right: seq<Line>, k: nat)
    requires Aligned(ops, left, right) && k < |ops|
    ensures AlignedAt(ops, left, right, k)
  {
  }
}
