/** What hunks are good for: a strict patch tool that is given the left text and the hunks
    rebuilds the right text. Shared by the two hunk builders, which differ in the number of
    common lines (`run`) that ends a hunk. */
module HunkPatch {
  import opened Basics
  import opened DiffScript
  import opened Segments
  import opened ScriptLines

  /** The lines of a hunk that belong to the left text. */
  function OldLines(lines: seq<DiffLine>): (r: seq<Line>)
    ensures |r| <= |lines|
  {
    if lines == [] then []
    else
      var last := lines[|lines| - 1];
      OldLines(lines[..|lines| - 1]) + if last.lineType.Added? then [] else [last.content]
  }

  /** The lines of a hunk that belong to the right text. */
  function NewLines(lines: seq<DiffLine>): (r: seq<Line>)
    ensures |r| <= |lines|
  {
    if lines == [] then []
    else
      var last := lines[|lines| - 1];
      NewLines(lines[..|lines| - 1]) + if last.lineType.Removed? then [] else [last.content]
  }

  /** A strict patch tool: it copies the left text from `at` up to the start of the next hunk,
      insists that the old lines of the hunk are found exactly there, writes the new lines
      instead, and goes on behind them. */
  function Apply(left: seq<Line>, hunks: seq<DiffHunk>, at: nat): Option<seq<Line>>
    decreases |hunks|
  {
    if hunks == [] then (if at <= |left| then Some(left[at..]) else None)
    else
      var h := hunks[0];
      var start, gone := h.oldStart - 1, OldLines(h.lines);
      if !(at <= start && start + |gone| <= |left| && left[start..start + |gone|] == gone) then None
      else
        match Apply(left, hunks[1..], start + |gone|)
        case None => None
        case Some(rest) => Some(left[at..start] + NewLines(h.lines) + rest)
  }

  /** The hunk shows operations s.0..s.1 and starts where they start. */
  predicate Places(h: DiffHunk, ops: seq<DiffOp>, left: seq<Line>, right: seq<Line>, s: (nat, nat))
    requires Aligned(ops, left, right) && s.0 <= s.1 <= |ops|
  {
    && h.oldStart == LeftPos(ops, s.0) + 1 && h.newStart == RightPos(ops, s.0) + 1
    && h.lines == LinesOf(ops, left, right, s.0, s.1)
  }

  predicate PatchOf(hunks: seq<DiffHunk>, ops: seq<DiffOp>, bounds: Bounds, left: seq<Line>, right: seq<Line>, run: nat) {
    && run > 0 && Aligned(ops, left, right)
    && Segmentation(Kept(ops), run, bounds) && InRange(ops, bounds)
    && |hunks| == |bounds| && forall k :: 0 <= k < |hunks| ==> Places(hunks[k], ops, left, right, bounds[k])
  }

  // ----- positions -----

  lemma {:induction false} PosGrow(ops: seq<DiffOp>, left: seq<Line>, right: seq<Line>, a: nat, b: nat)
    requires Aligned(ops, left, right) && a <= b <= |ops|
    ensures LeftPos(ops, a) <= LeftPos(ops, b) <= |left| && RightPos(ops, a) <= RightPos(ops, b) <= |right|
  {
    if a < b {
      PosGrow(ops, left, right, a, b - 1);
      assert AlignedAt(ops, left, right, b - 1);
    } else if a < |ops| {
      assert AlignedAt(ops, left, right, a);
    }
  }

  lemma ContentsGrow(lines: seq<DiffLine>, d: DiffLine)
    ensures OldLines(lines + [d]) == OldLines(lines) + if d.lineType.Added? then [] else [d.content]
    ensures NewLines(lines + [d]) == NewLines(lines) + if d.lineType.Removed? then [] else [d.content]
  {
    assert (lines + [d])[..|lines|] == lines;
  }

  lemma NoContents(ops: seq<DiffOp>, left: seq<Line>, right: seq<Line>, a: nat)
    requires Aligned(ops, left, right) && a <= |ops|
    ensures OldLines(LinesOf(ops, left, right, a, a)) == [] && NewLines(LinesOf(ops, left, right, a, a)) == []
  {
    hide Aligned;
  }

  lemma SliceGrow(s: seq<Line>, x: nat, y: nat)
    requires x <= y < |s|
    ensures s[x..y + 1] == s[x..y] + [s[y]]
  {
  }

  /** A segment's old lines are a stretch of the left text, its new lines one of the right. */
  lemma {:induction false} SegmentContents(ops: seq<DiffOp>, left: seq<Line>, right: seq<Line>, a: nat, b: nat)
    requires Aligned(ops, left, right) && a <= b <= |ops|
    ensures LeftPos(ops, a) <= LeftPos(ops, b) <= |left| && RightPos(ops, a) <= RightPos(ops, b) <= |right|
    ensures OldLines(LinesOf(ops, left, right, a, b)) == left[LeftPos(ops, a)..LeftPos(ops, b)]
    ensures NewLines(LinesOf(ops, left, right, a, b)) == right[RightPos(ops, a)..RightPos(ops, b)]
  {
    hide LineOf, LinesOf, OldLines, NewLines, LeftPos, RightPos, Aligned;
    PosGrow(ops, left, right, a, b);
    if a == b {
      NoContents(ops, left, right, a);
    } else {
      var l, r := LeftPos(ops, b - 1), RightPos(ops, b - 1);
      PosGrow(ops, left, right, a, b - 1);
      SegmentContents(ops, left, right, a, b - 1);
      AtOp(ops, left, right, b - 1);
      AlignedHolds(ops, left, right, b - 1);
      KeptAppend(ops, left, right, a, b - 1);
      ContentsGrow(LinesOf(ops, left, right, a, b - 1), LineOf(ops, left, right, b - 1));
      if !ops[b - 1].Add? { SliceGrow(left, LeftPos(ops, a), l); }
      if !ops[b - 1].Remove? { SliceGrow(right, RightPos(ops, a), r); }
    }
  }

  /** Where everything is common, the two texts agree. */
  lemma {:induction false} GapCopies(ops: seq<DiffOp>, left: seq<Line>, right: seq<Line>, a: nat, b: nat)
    requires Aligned(ops, left, right) && a <= b <= |ops| && AllKept(Kept(ops), a, b)
    ensures LeftPos(ops, a) <= LeftPos(ops, b) <= |left| && RightPos(ops, a) <= RightPos(ops, b) <= |right|
    ensures left[LeftPos(ops, a)..LeftPos(ops, b)] == right[RightPos(ops, a)..RightPos(ops, b)]
  {
    PosGrow(ops, left, right, a, b);
    if a < b {
      GapCopies(ops, left, right, a, b - 1);
      assert AlignedAt(ops, left, right, b - 1) && ops[b - 1].Equal?;
      var l, r := LeftPos(ops, b - 1), RightPos(ops, b - 1);
      assert left[LeftPos(ops, a)..l + 1] == left[LeftPos(ops, a)..l] + [left[l]];
      assert right[RightPos(ops, a)..r + 1] == right[RightPos(ops, a)..r] + [right[r]];
    }
  }

  // ----- the patch -----

  lemma {:induction false} PatchFrom(hunks: seq<DiffHunk>, ops: seq<DiffOp>, bounds: Bounds, left: seq<Line>, right: seq<Line>, run: nat, k: nat)
    requires PatchOf(hunks, ops, bounds, left, right, run) && k <= |bounds|
    ensures EndBefore(bounds, k) <= |ops|
    ensures RightPos(ops, EndBefore(bounds, k)) <= |right|
    ensures Apply(left, hunks[k..], LeftPos(ops, EndBefore(bounds, k))) == Some(right[RightPos(ops, EndBefore(bounds, k))..])
    decreases |bounds| - k
  {
    hide LeftPos, RightPos, LinesOf, LineOf, OldLines, NewLines, Aligned, SegmentOk, AllKept;
    var e := EndBefore(bounds, k);
    if k == |bounds| {
      GapCopies(ops, left, right, e, |ops|);
      assert left[LeftPos(ops, e)..] == left[LeftPos(ops, e)..LeftPos(ops, |ops|)] by { EndPos(ops, left, right); }
      assert right[RightPos(ops, e)..] == right[RightPos(ops, e)..RightPos(ops, |ops|)] by { EndPos(ops, left, right); }
    } else {
      assert GapOk(Kept(ops), bounds, k);
      var (a, b) := bounds[k];
      PatchFrom(hunks, ops, bounds, left, right, run, k + 1);
      GapCopies(ops, left, right, e, a);
      SegmentContents(ops, left, right, a, b);
      assert Places(hunks[k], ops, left, right, bounds[k]);
      assert hunks[k..][1..] == hunks[k + 1..] && hunks[k..][0] == hunks[k];
      var rest := right[RightPos(ops, b)..];
      assert Apply(left, hunks[k + 1..], LeftPos(ops, b)) == Some(rest);
      Pieces(right, RightPos(ops, e), RightPos(ops, a), RightPos(ops, b));
      assert |left[LeftPos(ops, a)..LeftPos(ops, b)]| == LeftPos(ops, b) - LeftPos(ops, a);
    }
  }

  lemma Pieces(s: seq<Line>, x: nat, y: nat, z: nat)
    requires x <= y <= z <= |s|
    ensures s[x..] == s[x..y] + s[y..z] + s[z..]
  {
  }

  lemma EndPos(ops: seq<DiffOp>, left: seq<Line>, right: seq<Line>)
    requires Aligned(ops, left, right)
    ensures LeftPos(ops, |ops|) == |left| && RightPos(ops, |ops|) == |right|
  {
  }

  /** The hunks are a correct patch: in order, disjoint, matching the left text, and they
      rebuild the right text. */
  lemma PatchRebuildsRight(hunks: seq<DiffHunk>, ops: seq<DiffOp>, bounds: Bounds, left: seq<Line>, right: seq<Line>, run: nat)
    requires PatchOf(hunks, ops, bounds, left, right, run)
    ensures Apply(left, hunks, 0) == Some(right)
  {
    PatchFrom(hunks, ops, bounds, left, right, run, 0);
    assert hunks[0..] == hunks && right[0..] == right;
  }

  // ----- the patch backwards -----

  function SwapOp(op: DiffOp): DiffOp {
    match op case Equal => Equal case Add => Remove case Remove => Add
  }

  function SwapOps(ops: seq<DiffOp>): (r: seq<DiffOp>)
    ensures |r| == |ops| && forall k :: 0 <= k < |ops| ==> r[k] == SwapOp(ops[k])
  {
    seq(|ops|, k requires 0 <= k < |ops| => SwapOp(ops[k]))
  }

  function SwapLine(d: DiffLine): DiffLine {
    DiffLine(d.rightNo, d.leftNo, d.content, match d.lineType case Context => Context case Added => Removed case Removed => Added)
  }

  function SwapLines(lines: seq<DiffLine>): (r: seq<DiffLine>)
    ensures |r| == |lines| && forall k :: 0 <= k < |lines| ==> r[k] == SwapLine(lines[k])
  {
    seq(|lines|, k requires 0 <= k < |lines| => SwapLine(lines[k]))
  }

  function SwapHunk(h: DiffHunk): DiffHunk {
    DiffHunk(h.newStart, h.newCount, h.oldStart, h.oldCount, SwapLines(h.lines))
  }

  function SwapHunks(hunks: seq<DiffHunk>): (r: seq<DiffHunk>)
    ensures |r| == |hunks| && forall k :: 0 <= k < |hunks| ==> r[k] == SwapHunk(hunks[k])
  {
    seq(|hunks|, k requires 0 <= k < |hunks| => SwapHunk(hunks[k]))
  }

  lemma {:induction false} SwapPos(ops: seq<DiffOp>, k: nat)
    requires k <= |ops|
    ensures LeftPos(SwapOps(ops), k) == RightPos(ops, k) && RightPos(SwapOps(ops), k) == LeftPos(ops, k)
  {
    if k > 0 { SwapPos(ops, k - 1); }
  }

  lemma SwapAligned(ops: seq<DiffOp>, left: seq<Line>, right: seq<Line>)
    requires Aligned(ops, left, right)
    ensures Aligned(SwapOps(ops), right, left)
  {
    forall k | 0 <= k < |ops| ensures AlignedAt(SwapOps(ops), right, left, k) {
      assert AlignedAt(ops, left, right, k);
      SwapPos(ops, k);
    }
    SwapPos(ops, |ops|);
  }

  lemma {:induction false} SwapLinesOf(ops: seq<DiffOp>, left: seq<Line>, right: seq<Line>, a: nat, b: nat)
    requires Aligned(ops, left, right) && Aligned(SwapOps(ops), right, left) && a <= b <= |ops|
    ensures LinesOf(SwapOps(ops), right, left, a, b) == SwapLines(LinesOf(ops, left, right, a, b))
  {
    if a < b {
      SwapLinesOf(ops, left, right, a, b - 1);
      SwapPos(ops, b - 1);
      assert AlignedAt(ops, left, right, b - 1);
    }
  }

  /** Exchanging the two sides of every hunk gives a diff of the right text against the left. */
  lemma SwapDiff(hunks: seq<DiffHunk>, ops: seq<DiffOp>, bounds: Bounds, left: seq<Line>, right: seq<Line>, run: nat)
    requires PatchOf(hunks, ops, bounds, left, right, run)
    ensures PatchOf(SwapHunks(hunks), SwapOps(ops), bounds, right, left, run)
  {
    hide LeftPos, RightPos, LinesOf, LineOf, Aligned, Segmentation;
    SwapAligned(ops, left, right);
    assert Kept(SwapOps(ops)) == Kept(ops);
    forall k | 0 <= k < |bounds| ensures Places(SwapHunks(hunks)[k], SwapOps(ops), right, left, bounds[k]) {
      assert Places(hunks[k], ops, left, right, bounds[k]);
      SwapPos(ops, bounds[k].0);
      SwapLinesOf(ops, left, right, bounds[k].0, bounds[k].1);
    }
  }

  /** The same hunks, read backwards, undo the change. */
  lemma ReversePatchRebuildsLeft(hunks: seq<DiffHunk>, ops: seq<DiffOp>, bounds: Bounds, left: seq<Line>, right: seq<Line>, run: nat)
    requires PatchOf(hunks, ops, bounds, left, right, run)
    ensures Apply(right, SwapHunks(hunks), 0) == Some(left)
  {
    SwapDiff(hunks, ops, bounds, left, right, run);
    PatchRebuildsRight(SwapHunks(hunks), SwapOps(ops), bounds, right, left, run);
  }

  // ----- each line of a hunk -----

  lemma {:induction false} LineAt(ops: seq<DiffOp>, left: seq<Line>, right: seq<Line>, a: nat, b: nat, m: nat)
    requires Aligned(ops, left, right) && a <= b <= |ops| && m < b - a
    ensures LinesOf(ops, left, right, a, b)[m] == LineOf(ops, left, right, a + m)
    ensures LinesOf(ops, left, right, a, b)[..m] == LinesOf(ops, left, right, a, a + m)
  {
    if m < b - a - 1 {
      LineAt(ops, left, right, a, b - 1, m);
      assert LinesOf(ops, left, right, a, b)[..m] == LinesOf(ops, left, right, a, b - 1)[..m];
    }
  }

  /** Line m of a hunk carries the true 1-based numbers of the line it shows: those found by
      counting from the start of the hunk, and at those numbers the texts hold its content. */
  predicate TrueNumbers(h: DiffHunk, m: nat, left: seq<Line>, right: seq<Line>)
    requires m < |h.lines|
  {
    var d := h.lines[m];
    var l, r := h.oldStart + |OldLines(h.lines[..m])|, h.newStart + |NewLines(h.lines[..m])|;
    && d.leftNo == (if d.lineType.Added? then None else Some(l))
    && d.rightNo == (if d.lineType.Removed? then None else Some(r))
    && (!d.lineType.Added? ==> 1 <= l <= |left| && left[l - 1] == d.content)
    && (!d.lineType.Removed? ==> 1 <= r <= |right| && right[r - 1] == d.content)
  }

  lemma LinesAreNumbered(hunks: seq<DiffHunk>, ops: seq<DiffOp>, bounds: Bounds, left: seq<Line>, right: seq<Line>, run: nat, k: nat, m: nat)
    requires PatchOf(hunks, ops, bounds, left, right, run) && k < |hunks| && m < |hunks[k].lines|
    ensures TrueNumbers(hunks[k], m, left, right)
  {
    hide LeftPos, RightPos, LinesOf, LineOf, OldLines, NewLines, Aligned, Segmentation;
    assert Places(hunks[k], ops, left, right, bounds[k]);
    var (a, b) := bounds[k];
    LineAt(ops, left, right, a, b, m);
    AtOp(ops, left, right, a + m);
    SegmentContents(ops, left, right, a, a + m);
    assert AlignedAt(ops, left, right, a + m) by { AlignedHolds(ops, left, right, a + m); }
  }

  /** Line m of hunk k is where operation p would be shown. */
  predicate Place(hunks: seq<DiffHunk>, bounds: Bounds, k: nat, m: nat, p: nat) {
    k < |hunks| && k < |bounds| && m < |hunks[k].lines| && bounds[k].0 + m == p
  }

  /** Every change of the script is shown by exactly one line of exactly one hunk. */
  lemma ChangeInOneHunk(hunks: seq<DiffHunk>, ops: seq<DiffOp>, bounds: Bounds, left: seq<Line>, right: seq<Line>, run: nat, p: nat)
    returns (k: nat, m: nat)
    requires PatchOf(hunks, ops, bounds, left, right, run) && p < |ops| && !ops[p].Equal?
    ensures Place(hunks, bounds, k, m, p) && hunks[k].lines[m] == LineOf(ops, left, right, p)
    ensures forall k': nat, m': nat :: Place(hunks, bounds, k', m', p) ==> k' == k && m' == m
  {
    hide LeftPos, RightPos, LinesOf, LineOf, Aligned, AlignedAt, SegmentOk, GapsOk, AllKept;
    k := ChangeInOneSegment(Kept(ops), run, bounds, p);
    m := p - bounds[k].0;
    assert Places(hunks[k], ops, left, right, bounds[k]);
    LineAt(ops, left, right, bounds[k].0, bounds[k].1, m);
    forall k': nat, m': nat | Place(hunks, bounds, k', m', p) ensures k' == k && m' == m {
      assert Places(hunks[k'], ops, left, right, bounds[k']);
      assert Inside(bounds[k'], p);
    }
  }

  // ----- shape -----

  predicate ContextOnly(lines: seq<DiffLine>, i: nat, e: nat) {
    forall m :: 0 <= i <= m < e <= |lines| ==> lines[m].lineType.Context?
  }

  /** The shape of the k-th of n hunks: it starts with a change; fewer than `run` context lines
      stand together before its end; and if another hunk follows, it ends with exactly `run`
      context lines. */
  predicate ShapeOk(lines: seq<DiffLine>, run: nat, followed: bool) {
    && lines != [] && !lines[0].lineType.Context?
    && (forall i, e :: 0 <= i <= e < |lines| && ContextOnly(lines, i, e) ==> e - i < run)
    && (followed ==> |lines| > run && ContextOnly(lines, |lines| - run, |lines|) && !lines[|lines| - run - 1].lineType.Context?)
  }

  lemma HunkShape(hunks: seq<DiffHunk>, ops: seq<DiffOp>, bounds: Bounds, left: seq<Line>, right: seq<Line>, run: nat, k: nat)
    requires PatchOf(hunks, ops, bounds, left, right, run) && k < |hunks|
    ensures ShapeOk(hunks[k].lines, run, k + 1 < |hunks|)
  {
    hide LeftPos, RightPos, LinesOf, Aligned, AlignedAt, Segmentation, LineOf;
    var kept, lines, s := Kept(ops), hunks[k].lines, bounds[k];
    SegmentShape(kept, run, bounds, k);
    assert Places(hunks[k], ops, left, right, bounds[k]);
    assert s.0 < s.1 by { NonEmpty(kept, run, bounds, k); }
    forall m | 0 <= m < |lines| ensures lines[m].lineType.Context? <==> kept[s.0 + m] {
      LineAt(ops, left, right, s.0, s.1, m);
      AtOp(ops, left, right, s.0 + m);
    }
    forall i, e | 0 <= i <= e < |lines| && ContextOnly(lines, i, e) ensures e - i < run {
      forall p | s.0 + i <= p < s.0 + e ensures kept[p] { assert lines[p - s.0].lineType.Context?; }
      assert AllKept(kept, s.0 + i, s.0 + e);
    }
  }

  lemma NonEmpty(kept: seq<bool>, run: nat, bounds: Bounds, k: nat)
    requires Segmentation(kept, run, bounds) && k < |bounds|
    ensures bounds[k].0 < bounds[k].1 <= |kept|
  {
    assert SegmentOk(kept, run, bounds[k]);
  }
}
