/** The hunk builder of the git panel. It works on any valid list of changes between two texts. */
module GitHunks {
  import opened Basics
  import opened DiffScript
  import opened Segments
  import opened ScriptLines
  import opened HunkPatch

  /** One item of the change list: what happened, where, and the line. */
  datatype Change = Change(tag: DiffOp, oldIndex: Option<nat>, newIndex: Option<nat>, value: Line)

  /** A fourth common line in a row ends a hunk and is still shown in it. */
  const RUN: nat := 4

  function Tags(changes: seq<Change>): (ops: seq<DiffOp>)
    ensures |ops| == |changes| && forall k :: 0 <= k < |changes| ==> ops[k] == changes[k].tag
  {
    seq(|changes|, k requires 0 <= k < |changes| => changes[k].tag)
  }

  /** Both indices run through their text without a gap, and the values are the lines there. */
  predicate ValidAt(changes: seq<Change>, left: seq<Line>, right: seq<Line>, k: nat)
    requires Aligned(Tags(changes), left, right) && k < |changes|
  {
    var c := changes[k];
    ToLine(c) == Some(LineOf(Tags(changes), left, right, k))
  }

  predicate ValidChanges(changes: seq<Change>, left: seq<Line>, right: seq<Line>) {
    && Aligned(Tags(changes), left, right)
    && forall k :: 0 <= k < |changes| ==> ValidAt(changes, left, right, k)
  }

  /** The display line of a change; None where the source would unwrap a missing index. */
  function ToLine(c: Change): Option<DiffLine> {
    match c.tag
    case Equal => if c.oldIndex.Some? && c.newIndex.Some? then Some(DiffLine(Some(c.oldIndex.value + 1), Some(c.newIndex.value + 1), c.value, Context)) else None
    case Remove => if c.oldIndex.Some? then Some(DiffLine(Some(c.oldIndex.value + 1), None, c.value, Removed)) else None
    case Add => if c.newIndex.Some? then Some(DiffLine(None, Some(c.newIndex.value + 1), c.value, Added)) else None
  }

  /** How many lines at the end of the buffer are common. */
  function TrailingEquals(lines: seq<DiffLine>): (n: nat)
    ensures n <= |lines|
    ensures forall i :: |lines| - n <= i < |lines| ==> lines[i].lineType.Context?
    ensures n < |lines| ==> !lines[|lines| - n - 1].lineType.Context?
  {
    if lines == [] || !lines[|lines| - 1].lineType.Context? then 0
    else 1 + TrailingEquals(lines[..|lines| - 1])
  }

  function CountOld(lines: seq<DiffLine>): nat {
    if lines == [] then 0
    else CountOld(lines[..|lines| - 1]) + if lines[|lines| - 1].lineType.Added? then 0 else 1
  }

  function CountNew(lines: seq<DiffLine>): nat {
    if lines == [] then 0
    else CountNew(lines[..|lines| - 1]) + if lines[|lines| - 1].lineType.Removed? then 0 else 1
  }

  function BuildHunk(oldStart: nat, newStart: nat, lines: seq<DiffLine>): DiffHunk {
    DiffHunk(oldStart, CountOld(lines), newStart, CountNew(lines), lines)
  }

  // ----- what the hunks report -----

  /** The starts as the code takes them from the first line: 1 on the side it does not have. */
  function FirstOr1(no: Option<nat>): nat {
    if no.Some? then no.value else 1
  }

  predicate GitHunk(h: DiffHunk, ops: seq<DiffOp>, left: seq<Line>, right: seq<Line>, s: (nat, nat))
    requires Aligned(ops, left, right) && s.0 < s.1 <= |ops|
  {
    var first := LineOf(ops, left, right, s.0);
    && h.oldStart == FirstOr1(first.leftNo) && h.newStart == FirstOr1(first.rightNo)
    && h.lines == LinesOf(ops, left, right, s.0, s.1)
    && h.oldCount == |OldLines(h.lines)| && h.newCount == |NewLines(h.lines)|
  }

  predicate Nonempty(ops: seq<DiffOp>, bounds: Bounds) {
    forall m :: 0 <= m < |bounds| ==> bounds[m].0 < bounds[m].1 <= |ops|
  }

  predicate GitHunksOf(hunks: seq<DiffHunk>, ops: seq<DiffOp>, bounds: Bounds, left: seq<Line>, right: seq<Line>)
    requires Aligned(ops, left, right) && Nonempty(ops, bounds)
  {
    |hunks| == |bounds| && forall k :: 0 <= k < |hunks| ==> GitHunk(hunks[k], ops, left, right, bounds[k])
  }

  lemma {:induction false} CountsMatch(lines: seq<DiffLine>)
    ensures CountOld(lines) == |OldLines(lines)| && CountNew(lines) == |NewLines(lines)|
  {
    if lines != [] { CountsMatch(lines[..|lines| - 1]); }
  }

  /** What the buffer holds: outside a hunk only common lines, inside it the lines of the hunk. */
  predicate Buffered(lines: seq<DiffLine>, ops: seq<DiffOp>, left: seq<Line>, right: seq<Line>, open: Option<nat>, p: nat, oldStart: nat, newStart: nat)
    requires Aligned(ops, left, right) && p <= |ops|
  {
    match open
    case None => forall m :: 0 <= m < |lines| ==> lines[m].lineType.Context?
    case Some(a) =>
      && a < p && !ops[a].Equal? && lines == LinesOf(ops, left, right, a, p)
      && var first := LineOf(ops, left, right, a);
         oldStart == FirstOr1(first.leftNo) && newStart == FirstOr1(first.rightNo)
  }

  /** Counting back in the buffer is counting back in the change list. */
  lemma BufferTrailing(lines: seq<DiffLine>, ops: seq<DiffOp>, left: seq<Line>, right: seq<Line>, a: nat, p: nat)
    requires Aligned(ops, left, right) && a < p <= |ops| && !ops[a].Equal? && lines == LinesOf(ops, left, right, a, p)
    ensures Trailing(Kept(ops), a, p, TrailingEquals(lines))
  {
    hide Aligned, LineOf, LinesOf, LeftPos, RightPos;
    var n, kept := TrailingEquals(lines), Kept(ops);
    assert |lines| == p - a by { LineAt(ops, left, right, a, p, 0); assert |LinesOf(ops, left, right, a, p)| == p - a; }
    forall m | 0 <= m < |lines| ensures lines[m].lineType.Context? <==> kept[a + m] {
      LineAt(ops, left, right, a, p, m);
      AtOp(ops, left, right, a + m);
    }
    assert !lines[0].lineType.Context?;
    assert n < |lines|;
    assert !lines[|lines| - n - 1].lineType.Context?;
    forall i | p - n <= i < p ensures kept[i] { assert lines[i - a].lineType.Context?; }
  }

  /** Inside a hunk: a common line closes it exactly when three stand before it. */
  lemma BufferCloses(lines: seq<DiffLine>, ops: seq<DiffOp>, left: seq<Line>, right: seq<Line>, a: nat, p: nat)
    requires Aligned(ops, left, right) && a < p < |ops| && !ops[a].Equal? && lines == LinesOf(ops, left, right, a, p)
    ensures Window(Kept(ops), RUN, p + 1) && a + RUN <= p + 1 <==> ops[p].Equal? && TrailingEquals(lines) >= 3
  {
    hide Aligned, LinesOf, LineOf, TrailingEquals, Window;
    BufferTrailing(lines, ops, left, right, a, p);
    var n := if ops[p].Equal? then TrailingEquals(lines) + 1 else 0;
    assert Trailing(Kept(ops), a, p + 1, n);
    TrailingWindow(Kept(ops), RUN, a, p + 1, n);
  }

  lemma HunkAppend(hunks: seq<DiffHunk>, ops: seq<DiffOp>, bounds: Bounds, left: seq<Line>, right: seq<Line>, lines: seq<DiffLine>, a: nat, p: nat, oldStart: nat, newStart: nat)
    requires Aligned(ops, left, right) && Nonempty(ops, bounds) && GitHunksOf(hunks, ops, bounds, left, right) && p <= |ops|
    requires Buffered(lines, ops, left, right, Some(a), p, oldStart, newStart)
    ensures Nonempty(ops, bounds + [(a, p)])
    ensures GitHunksOf(hunks + [BuildHunk(oldStart, newStart, lines)], ops, bounds + [(a, p)], left, right)
  {
    hide Aligned, LinesOf, LineOf, OldLines, NewLines;
    CountsMatch(lines);
    var more, all := bounds + [(a, p)], hunks + [BuildHunk(oldStart, newStart, lines)];
    forall k | 0 <= k < |all| ensures GitHunk(all[k], ops, left, right, more[k]) {
      if k < |hunks| { assert GitHunk(hunks[k], ops, left, right, bounds[k]) && more[k] == bounds[k]; }
    }
  }

  lemma Begin(ops: seq<DiffOp>, left: seq<Line>, right: seq<Line>)
    requires Aligned(ops, left, right)
    ensures Scanned(Kept(ops), RUN, [], None, 0)
    ensures Nonempty(ops, []) && GitHunksOf([], ops, [], left, right)
    ensures Buffered([], ops, left, right, None, 0, 0, 0)
  {
  }

  /** The next line inside a hunk. */
  lemma BufferGrows(lines: seq<DiffLine>, ops: seq<DiffOp>, left: seq<Line>, right: seq<Line>, a: nat, p: nat, oldStart: nat, newStart: nat)
    requires Aligned(ops, left, right) && p < |ops| && Buffered(lines, ops, left, right, Some(a), p, oldStart, newStart)
    ensures Buffered(lines + [LineOf(ops, left, right, p)], ops, left, right, Some(a), p + 1, oldStart, newStart)
  {
  }

  /** The first line of a hunk, put into the emptied buffer. */
  lemma BufferOpens(ops: seq<DiffOp>, left: seq<Line>, right: seq<Line>, p: nat)
    requires Aligned(ops, left, right) && p < |ops| && !ops[p].Equal?
    ensures var first := LineOf(ops, left, right, p);
      Buffered([first], ops, left, right, Some(p), p + 1, FirstOr1(first.leftNo), FirstOr1(first.rightNo))
  {
    assert LinesOf(ops, left, right, p, p) == [];
    assert LinesOf(ops, left, right, p, p + 1) == [] + [LineOf(ops, left, right, p)];
  }

  lemma AllTrailing(lines: seq<DiffLine>)
    requires forall m :: 0 <= m < |lines| ==> lines[m].lineType.Context?
    ensures TrailingEquals(lines) == |lines|
  {
  }

  /** The loop: cut the changes, and report every segment. */
  method CutChanges(changes: seq<Change>, ghost left: seq<Line>, ghost right: seq<Line>) returns (hunks: seq<DiffHunk>, ghost bounds: Bounds)
    requires ValidChanges(changes, left, right)
    ensures Segmentation(Kept(Tags(changes)), RUN, bounds)
    ensures Nonempty(Tags(changes), bounds) && GitHunksOf(hunks, Tags(changes), bounds, left, right)
  {
    hide Scanned, Segmentation, GitHunksOf, LinesOf, LineOf, Aligned, Window, BuildHunk, Nonempty;
    hunks, bounds := [], [];
    ghost var ops, open: Option<nat> := Tags(changes), None;
    ghost var kept := Kept(ops);
    var currentLines: seq<DiffLine> := [];
    var oldStart: nat, newStart: nat := 0, 0;
    var inHunk := false;
    Begin(ops, left, right);
    for p := 0 to |changes|
      invariant inHunk <==> open.Some?
      invariant Scanned(kept, RUN, bounds, open, p)
      invariant Nonempty(ops, bounds) && GitHunksOf(hunks, ops, bounds, left, right)
      invariant Buffered(currentLines, ops, left, right, open, p, oldStart, newStart)
    {
      assert ValidAt(changes, left, right, p);
      AtOp(ops, left, right, p);
      var change := changes[p];
      var line := ToLine(change).value;
      if inHunk {
        ScanInside(kept, RUN, bounds, open.value, p);
        BufferCloses(currentLines, ops, left, right, open.value, p);
        BufferGrows(currentLines, ops, left, right, open.value, p, oldStart, newStart);
      } else {
        ScanOutside(kept, RUN, bounds, p);
        AllTrailing(currentLines);
      }
      if change.tag.Equal? && inHunk && TrailingEquals(currentLines) >= 3 {
        currentLines := currentLines + [line];
        HunkAppend(hunks, ops, bounds, left, right, currentLines, open.value, p + 1, oldStart, newStart);
        hunks := hunks + [BuildHunk(oldStart, newStart, currentLines)];
        bounds, open := bounds + [(open.value, p + 1)], None;
        currentLines := [];
        inHunk := false;
      } else {
        if !inHunk && !change.tag.Equal? {
          if currentLines != [] {
            // what precedes the change is trimmed to three common lines; nothing is left to keep
            var equalCount := TrailingEquals(currentLines);
            var contextCount := if equalCount < 3 then equalCount else 3;
            currentLines := currentLines[..|currentLines| - equalCount];
            var from := if |currentLines| < contextCount then 0 else |currentLines| - contextCount;
            currentLines := currentLines[..from] + currentLines[from..];
          }
          assert currentLines == [];
          oldStart, newStart := FirstOr1(line.leftNo), FirstOr1(line.rightNo);
          inHunk := true;
          open := Some(p);
          BufferOpens(ops, left, right, p);
          assert currentLines + [line] == [line];
        }
        currentLines := currentLines + [line];
      }
    }
    ScanEnds(kept, RUN, bounds, open);
    if currentLines != [] && inHunk {
      HunkAppend(hunks, ops, bounds, left, right, currentLines, open.value, |ops|, oldStart, newStart);
      hunks := hunks + [BuildHunk(oldStart, newStart, currentLines)];
      bounds := bounds + [(open.value, |ops|)];
    }
  }

  // ----- where a hunk starts -----

  /** A segment that does not start at the very beginning follows a common line. */
  lemma KeptBefore(kept: seq<bool>, run: nat, bounds: Bounds, k: nat)
    requires Segmentation(kept, run, bounds) && k < |bounds| && run > 0
    ensures bounds[k].0 <= |kept| && (bounds[k].0 > 0 ==> kept[bounds[k].0 - 1])
  {
    assert GapOk(kept, bounds, k) && SegmentOk(kept, run, bounds[k]);
    if k > 0 {
      assert SegmentOk(kept, run, bounds[k - 1]);
      EndsGrow(kept, run, bounds, k - 1, k);
    }
  }

  /** What `ComputeDiffHunks` establishes about its result. */
  ghost predicate GitDiffOf(hunks: seq<DiffHunk>, ops: seq<DiffOp>, bounds: Bounds, left: seq<Line>, right: seq<Line>) {
    && Aligned(ops, left, right) && Segmentation(Kept(ops), RUN, bounds)
    && Nonempty(ops, bounds) && GitHunksOf(hunks, ops, bounds, left, right)
  }

  /** The code takes a start from the hunk's first line, or 1 if that line is on the other side
      only. That is the true start exactly if the line has a number on this side, or the hunk
      begins where both texts begin, which shows in the other start. */
  lemma StartsTrue(hunks: seq<DiffHunk>, ops: seq<DiffOp>, bounds: Bounds, left: seq<Line>, right: seq<Line>, k: nat)
    requires GitDiffOf(hunks, ops, bounds, left, right) && k < |hunks|
    ensures hunks[k].lines != []
    ensures var h := hunks[k];
      && (h.oldStart == LeftPos(ops, bounds[k].0) + 1 <==> (h.lines[0].lineType.Added? ==> h.newStart == 1))
      && (h.newStart == RightPos(ops, bounds[k].0) + 1 <==> (h.lines[0].lineType.Removed? ==> h.oldStart == 1))
  {
    hide Aligned, Segmentation, LineOf, LinesOf;
    var h := hunks[k];
    var (a, b) := bounds[k];
    assert GitHunk(h, ops, left, right, bounds[k]);
    KeptBefore(Kept(ops), RUN, bounds, k);
    LineAt(ops, left, right, a, b, 0);
    AtOp(ops, left, right, a);
    SegmentShape(Kept(ops), RUN, bounds, k);
    if a > 0 { AtOp(ops, left, right, a - 1); }
  }

  // ----- recovering the starts -----

  /** How much longer the left text is than the right before hunk k. */
  function Ahead(hunks: seq<DiffHunk>, k: nat): int
    requires k <= |hunks|
  {
    if k == 0 then 0 else Ahead(hunks, k - 1) + hunks[k - 1].oldCount - hunks[k - 1].newCount
  }

  function Restart(h: DiffHunk, ahead: int): DiffHunk {
    if h.lines == [] then h
    else if h.lines[0].lineType.Added? && h.newStart + ahead >= 0 then h.(oldStart := h.newStart + ahead)
    else if h.lines[0].lineType.Removed? && h.oldStart - ahead >= 0 then h.(newStart := h.oldStart - ahead)
    else h
  }

  /** The hunks with each missing start computed from the other start and the sizes before it. */
  function Recovered(hunks: seq<DiffHunk>): (r: seq<DiffHunk>)
    ensures |r| == |hunks| && forall k :: 0 <= k < |hunks| ==> r[k] == Restart(hunks[k], Ahead(hunks, k))
  {
    seq(|hunks|, k requires 0 <= k < |hunks| => Restart(hunks[k], Ahead(hunks, k)))
  }

  /** Before hunk k the texts differ in length by what the hunks so far account for. */
  lemma {:induction false} AheadBefore(hunks: seq<DiffHunk>, ops: seq<DiffOp>, bounds: Bounds, left: seq<Line>, right: seq<Line>, k: nat)
    requires GitDiffOf(hunks, ops, bounds, left, right) && k <= |hunks|
    ensures EndBefore(bounds, k) <= |ops|
    ensures LeftPos(ops, EndBefore(bounds, k)) == RightPos(ops, EndBefore(bounds, k)) + Ahead(hunks, k)
    ensures k < |bounds| ==> LeftPos(ops, bounds[k].0) == RightPos(ops, bounds[k].0) + Ahead(hunks, k)
  {
    hide Aligned, LineOf, LinesOf, SegmentOk, AllKept, OldLines, NewLines, LeftPos, RightPos;
    if k == 0 {
      AtStart(ops);
    } else {
      AheadBefore(hunks, ops, bounds, left, right, k - 1);
      var (a, b) := bounds[k - 1];
      assert GitHunk(hunks[k - 1], ops, left, right, bounds[k - 1]);
      SegmentContents(ops, left, right, a, b);
      assert |left[LeftPos(ops, a)..LeftPos(ops, b)]| == LeftPos(ops, b) - LeftPos(ops, a);
      assert |right[RightPos(ops, a)..RightPos(ops, b)]| == RightPos(ops, b) - RightPos(ops, a);
    }
    if k < |bounds| {
      var e, a := EndBefore(bounds, k), bounds[k].0;
      assert GapOk(Kept(ops), bounds, k);
      GapCopies(ops, left, right, e, a);
      assert |left[LeftPos(ops, e)..LeftPos(ops, a)]| == LeftPos(ops, a) - LeftPos(ops, e);
      assert |right[RightPos(ops, e)..RightPos(ops, a)]| == RightPos(ops, a) - RightPos(ops, e);
    }
  }

  lemma AtStart(ops: seq<DiffOp>)
    ensures LeftPos(ops, 0) == 0 && RightPos(ops, 0) == 0
  {
  }

  lemma RecoveredPlaces(hunks: seq<DiffHunk>, ops: seq<DiffOp>, bounds: Bounds, left: seq<Line>, right: seq<Line>, k: nat)
    requires GitDiffOf(hunks, ops, bounds, left, right) && k < |hunks|
    ensures Places(Restart(hunks[k], Ahead(hunks, k)), ops, left, right, bounds[k])
    ensures Restart(hunks[k], Ahead(hunks, k)).lines == hunks[k].lines
  {
    hide Aligned, LinesOf, LineOf, Segmentation, OldLines, NewLines, LeftPos, RightPos, Ahead, Kept;
    var (a, b) := bounds[k];
    assert GitHunk(hunks[k], ops, left, right, bounds[k]);
    AheadBefore(hunks, ops, bounds, left, right, k);
    LineAt(ops, left, right, a, b, 0);
    AtOp(ops, left, right, a);
    SegmentShape(Kept(ops), RUN, bounds, k);
    assert !ops[a].Equal?;
  }

  /** With the starts recovered the hunks are a correct patch in both directions; the lines of
      the hunks are untouched. */
  lemma RecoveredIsPatch(hunks: seq<DiffHunk>, ops: seq<DiffOp>, bounds: Bounds, left: seq<Line>, right: seq<Line>)
    requires GitDiffOf(hunks, ops, bounds, left, right)
    ensures PatchOf(Recovered(hunks), ops, bounds, left, right, RUN)
    ensures Apply(left, Recovered(hunks), 0) == Some(right)
    ensures Apply(right, SwapHunks(Recovered(hunks)), 0) == Some(left)
    ensures forall k :: 0 <= k < |hunks| ==> Recovered(hunks)[k].lines == hunks[k].lines
  {
    hide Aligned, LineOf, LinesOf, Segmentation, OldLines, NewLines, LeftPos, RightPos, Ahead, Restart, Apply;
    forall k | 0 <= k < |hunks| ensures Places(Recovered(hunks)[k], ops, left, right, bounds[k]) && Recovered(hunks)[k].lines == hunks[k].lines {
      RecoveredPlaces(hunks, ops, bounds, left, right, k);
    }
    PatchRebuildsRight(Recovered(hunks), ops, bounds, left, right, RUN);
    ReversePatchRebuildsLeft(Recovered(hunks), ops, bounds, left, right, RUN);
  }

  // ----- without recovering them -----

  /** Where hunk k starts in the left text is told correctly. */
  predicate OldStartKnown(h: DiffHunk) {
    h.lines != [] && h.lines[0].lineType.Added? ==> h.newStart == 1
  }

  lemma {:induction false} ApplyOldSide(left: seq<Line>, h1: seq<DiffHunk>, h2: seq<DiffHunk>, at: nat)
    requires |h1| == |h2|
    requires forall k :: 0 <= k < |h1| ==> h1[k].oldStart == h2[k].oldStart && h1[k].lines == h2[k].lines
    ensures Apply(left, h1, at) == Apply(left, h2, at)
    decreases |h1|
  {
    hide OldLines, NewLines;
    if h1 != [] {
      assert h1[0].oldStart == h2[0].oldStart && h1[0].lines == h2[0].lines;
      var next := h1[0].oldStart - 1 + |OldLines(h1[0].lines)|;
      if next >= 0 { ApplyOldSide(left, h1[1..], h2[1..], next); }
    }
  }

  /** As they are, the hunks are a correct patch if none but one at the very beginning starts
      with an insertion. */
  lemma PatchIfKnown(hunks: seq<DiffHunk>, ops: seq<DiffOp>, bounds: Bounds, left: seq<Line>, right: seq<Line>)
    requires GitDiffOf(hunks, ops, bounds, left, right)
    requires forall k :: 0 <= k < |hunks| ==> OldStartKnown(hunks[k])
    ensures Apply(left, hunks, 0) == Some(right)
  {
    hide Segmentation, OldLines, NewLines, LeftPos, RightPos, GitHunksOf, Apply;
    RecoveredIsPatch(hunks, ops, bounds, left, right);
    assert |hunks| == |bounds| by { SameLength(hunks, ops, bounds, left, right); }
    forall k | 0 <= k < |hunks| ensures Recovered(hunks)[k].oldStart == hunks[k].oldStart {
      StartsTrue(hunks, ops, bounds, left, right, k);
      assert OldStartKnown(hunks[k]);
      assert Places(Recovered(hunks)[k], ops, left, right, bounds[k]);
    }
    ApplyOldSide(left, Recovered(hunks), hunks, 0);
  }

  lemma SameLength(hunks: seq<DiffHunk>, ops: seq<DiffOp>, bounds: Bounds, left: seq<Line>, right: seq<Line>)
    requires GitDiffOf(hunks, ops, bounds, left, right)
    ensures |hunks| == |bounds|
  {
  }

  lemma {:induction false} ApplyRejects(left: seq<Line>, hunks: seq<DiffHunk>, at: nat, k: nat)
    requires 0 < k < |hunks| && hunks[k].oldStart == 1 && OldLines(hunks[k - 1].lines) != []
    requires forall m :: 0 <= m < |hunks| ==> hunks[m].oldStart > 0
    ensures Apply(left, hunks, at) == None
    decreases |hunks|
  {
    hide OldLines, NewLines;
    var next := hunks[0].oldStart - 1 + |OldLines(hunks[0].lines)|;
    if k == 1 {
      assert hunks[1..][0] == hunks[1];
    } else {
      assert hunks[1..][k - 1] == hunks[k] && hunks[1..][k - 2] == hunks[k - 1];
      ApplyRejects(left, hunks[1..], next, k - 1);
    }
  }

  /** A later hunk that starts with an insertion claims to start at line 1 of the left text,
      before the hunks in front of it, and a strict patch tool refuses the whole. */
  lemma LaterInsertionRefused(hunks: seq<DiffHunk>, ops: seq<DiffOp>, bounds: Bounds, left: seq<Line>, right: seq<Line>, k: nat)
    requires GitDiffOf(hunks, ops, bounds, left, right) && 0 < k < |hunks|
    requires hunks[k].lines != [] && hunks[k].lines[0].lineType.Added?
    ensures Apply(left, hunks, 0) == None
  {
    hide GitDiffOf, Apply, OldLines, NewLines;
    GitHunkShape(hunks, ops, bounds, left, right, k - 1);
    var before := hunks[k - 1].lines;
    assert before[|before| - 1].lineType.Context?;
    LastIsOld(before);
    forall m | 0 <= m < |hunks| ensures hunks[m].oldStart > 0 && (m == k ==> hunks[m].oldStart == 1) {
      StartOf(hunks, ops, bounds, left, right, m);
    }
    ApplyRejects(left, hunks, 0, k);
  }

  lemma StartOf(hunks: seq<DiffHunk>, ops: seq<DiffOp>, bounds: Bounds, left: seq<Line>, right: seq<Line>, k: nat)
    requires GitDiffOf(hunks, ops, bounds, left, right) && k < |hunks|
    ensures hunks[k].oldStart > 0
    ensures hunks[k].lines != [] && hunks[k].lines[0].lineType.Added? ==> hunks[k].oldStart == 1
  {
    hide Aligned, LinesOf, LineOf, Segmentation, OldLines, NewLines, LeftPos, RightPos, Kept;
    assert GitHunk(hunks[k], ops, left, right, bounds[k]);
    LineAt(ops, left, right, bounds[k].0, bounds[k].1, 0);
    AtOp(ops, left, right, bounds[k].0);
  }

  lemma {:induction false} LastIsOld(lines: seq<DiffLine>)
    requires lines != [] && lines[|lines| - 1].lineType.Context?
    ensures OldLines(lines) != []
  {
  }

  /** The first hunk can go to the wrong place, too: "b" inserted between "a" and "c" is put in
      front of both. */
  lemma FirstInsertionMisplaced()
    ensures var changes := [Change(Equal, Some(0), Some(0), "a"), Change(Add, None, Some(1), "b"), Change(Equal, Some(1), Some(2), "c")];
      var h := BuildHunk(1, 2, [DiffLine(None, Some(2), "b", Added), DiffLine(Some(2), Some(3), "c", Context)]);
      && ValidChanges(changes, ["a", "c"], ["a", "b", "c"])
      && GitDiffOf([h], Tags(changes), [(1, 3)], ["a", "c"], ["a", "b", "c"])
      && Apply(["a", "c"], [h], 0) != Some(["a", "b", "c"])
  {
    var changes := [Change(Equal, Some(0), Some(0), "a"), Change(Add, None, Some(1), "b"), Change(Equal, Some(1), Some(2), "c")];
    var left, right, ops := ["a", "c"], ["a", "b", "c"], Tags(changes);
    var lines := [DiffLine(None, Some(2), "b", Added), DiffLine(Some(2), Some(3), "c", Context)];
    assert ops == [Equal, Add, Equal];
    MisplacedLines(ops, left, right);
    hide LeftPos, RightPos, CountOld, CountNew, Apply, Aligned, LineOf;
    MisplacedHunk(ops, left, right, lines);
    MisplacedApply(lines);
  }

  lemma MisplacedLines(ops: seq<DiffOp>, left: seq<Line>, right: seq<Line>)
    requires ops == [Equal, Add, Equal] && left == ["a", "c"] && right == ["a", "b", "c"]
    ensures Aligned(ops, left, right)
    ensures LineOf(ops, left, right, 0) == DiffLine(Some(1), Some(1), "a", Context)
    ensures LineOf(ops, left, right, 1) == DiffLine(None, Some(2), "b", Added)
    ensures LineOf(ops, left, right, 2) == DiffLine(Some(2), Some(3), "c", Context)
  {
    assert LeftPos(ops, 1) == 1 && LeftPos(ops, 2) == 1 && LeftPos(ops, 3) == 2;
    assert RightPos(ops, 1) == 1 && RightPos(ops, 2) == 2 && RightPos(ops, 3) == 3;
    hide LeftPos, RightPos;
    assert LeftPos(ops, 0) == 0 && RightPos(ops, 0) == 0 by { AtStart(ops); }
    assert AlignedAt(ops, left, right, 0) && AlignedAt(ops, left, right, 1) && AlignedAt(ops, left, right, 2);
  }

  lemma MisplacedApply(lines: seq<DiffLine>)
    requires lines == [DiffLine(None, Some(2), "b", Added), DiffLine(Some(2), Some(3), "c", Context)]
    ensures Apply(["a", "c"], [BuildHunk(1, 2, lines)], 0) != Some(["a", "b", "c"])
  {
    hide CountOld, CountNew;
    assert lines[..1] == [lines[0]] && lines[..1][..0] == [];
    assert OldLines(lines) == ["c"];
    assert ["a", "c"][0..1][0] == "a" && "a"[0] != "c"[0];
  }

  lemma MisplacedHunk(ops: seq<DiffOp>, left: seq<Line>, right: seq<Line>, lines: seq<DiffLine>)
    requires ops == [Equal, Add, Equal] && Aligned(ops, left, right) && |lines| == 2
    requires lines[0] == LineOf(ops, left, right, 1) && lines[1] == LineOf(ops, left, right, 2)
    ensures lines[0].rightNo.Some?
    ensures GitDiffOf([BuildHunk(1, lines[0].rightNo.value, lines)], ops, [(1, 3)], left, right)
  {
    hide LeftPos, RightPos, Aligned, CountOld, CountNew, OldLines, NewLines;
    assert LinesOf(ops, left, right, 1, 1) == [];
    assert LinesOf(ops, left, right, 1, 2) == [] + [lines[0]];
    assert LinesOf(ops, left, right, 1, 3) == [lines[0]] + [lines[1]];
    CountsMatch(lines);
    var h := BuildHunk(1, lines[0].rightNo.value, lines);
    assert GitHunk(h, ops, left, right, (1, 3));
    var kept, bounds := Kept(ops), [(1, 3)];
    assert GapOk(kept, bounds, 0);
    assert SegmentOk(kept, RUN, bounds[0]);
  }

  /** The lines shown in a hunk: a change first, at most three common lines together before a
      later change, exactly four at the end of every hunk but the last. */
  lemma GitHunkShape(hunks: seq<DiffHunk>, ops: seq<DiffOp>, bounds: Bounds, left: seq<Line>, right: seq<Line>, k: nat)
    requires GitDiffOf(hunks, ops, bounds, left, right) && k < |hunks|
    ensures ShapeOk(hunks[k].lines, RUN, k + 1 < |hunks|)
  {
    hide Aligned, LineOf, LinesOf, Segmentation, LeftPos, RightPos, Apply, OldLines, NewLines, ShapeOk;
    RecoveredIsPatch(hunks, ops, bounds, left, right);
    HunkShape(Recovered(hunks), ops, bounds, left, right, RUN, k);
  }

  /** Every changed line is shown by exactly one line of exactly one hunk. */
  lemma GitChangeInOneHunk(hunks: seq<DiffHunk>, ops: seq<DiffOp>, bounds: Bounds, left: seq<Line>, right: seq<Line>, p: nat)
    returns (k: nat, m: nat)
    requires GitDiffOf(hunks, ops, bounds, left, right) && p < |ops| && !ops[p].Equal?
    ensures Place(hunks, bounds, k, m, p) && hunks[k].lines[m] == LineOf(ops, left, right, p)
    ensures forall k': nat, m': nat :: Place(hunks, bounds, k', m', p) ==> k' == k && m' == m
  {
    hide Aligned, LineOf, LinesOf, Segmentation, LeftPos, RightPos, Apply, OldLines, NewLines, PatchOf, GitDiffOf;
    RecoveredIsPatch(hunks, ops, bounds, left, right);
    k, m := ChangeInOneHunk(Recovered(hunks), ops, bounds, left, right, RUN, p);
    forall k': nat, m': nat | Place(hunks, bounds, k', m', p) ensures k' == k && m' == m {
      assert Place(Recovered(hunks), bounds, k', m', p);
    }
  }
}
