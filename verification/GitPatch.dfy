/** The hunks of the git panel as a patch: when they rebuild the new text as they are, and the
    whole function. */
module GitPatch {
  import opened Basics
  import opened DiffScript
  import opened Segments
  import opened ScriptLines
  import opened HunkPatch
  import opened GitHunks

  // ----- conditions on the change list -----

  /** A hunk will start at change p: it is no common line, and none comes before it or the four
      before it are common. */
  predicate StartsHunk(ops: seq<DiffOp>, p: nat) {
    && p < |ops| && !ops[p].Equal?
    && ((forall i :: 0 <= i < p ==> ops[i].Equal?) || (4 <= p && forall i :: p - 4 <= i < p ==> ops[i].Equal?))
  }

  /** No hunk starts with an insertion, unless the whole list does. */
  predicate LeadingInsertOnly(ops: seq<DiffOp>) {
    forall p: nat :: p < |ops| && StartsHunk(ops, p) && ops[p].Add? ==> p == 0
  }

  /** A hunk behind the first one starts with an insertion. */
  predicate LaterInsert(ops: seq<DiffOp>) {
    exists p: nat :: p < |ops| && StartsHunk(ops, p) && ops[p].Add? && exists i :: 0 <= i < p && !ops[i].Equal?
  }

  lemma OpensIsStart(ops: seq<DiffOp>, p: nat)
    ensures StartsHunk(ops, p) <==> Opens(Kept(ops), RUN, p)
  {
    var kept := Kept(ops);
    if p < |ops| {
      assert AllKept(kept, 0, p) <==> forall i :: 0 <= i < p ==> ops[i].Equal? by {
        if AllKept(kept, 0, p) { assert forall i :: 0 <= i < p ==> kept[i]; }
      }
      if 4 <= p && AllKept(kept, p - 4, p) { assert forall i :: p - 4 <= i < p ==> kept[i]; }
    }
  }

  /** What the first line of hunk k tells about the change list. */
  lemma FirstLine(hunks: seq<DiffHunk>, ops: seq<DiffOp>, bounds: Bounds, left: seq<Line>, right: seq<Line>, k: nat)
    requires GitDiffOf(hunks, ops, bounds, left, right) && k < |hunks|
    ensures |hunks| == |bounds| && bounds[k].0 < |ops| && hunks[k].lines != []
    ensures hunks[k].lines[0].lineType.Added? <==> ops[bounds[k].0].Add?
    ensures OldStartKnown(hunks[k]) <==> (ops[bounds[k].0].Add? ==> bounds[k].0 == 0)
    ensures StartsHunk(ops, bounds[k].0)
    ensures k == 0 <==> forall i :: 0 <= i < bounds[k].0 ==> ops[i].Equal?
  {
    hide Aligned, Segmentation, LineOf, LinesOf, OldLines, NewLines;
    var (a, b) := bounds[k];
    var kept := Kept(ops);
    assert GitHunk(hunks[k], ops, left, right, bounds[k]);
    KeptBefore(kept, RUN, bounds, k);
    LineAt(ops, left, right, a, b, 0);
    AtOp(ops, left, right, a);
    if a > 0 { AtOp(ops, left, right, a - 1); } else { AtStart(ops); }
    StartOpens(kept, RUN, bounds, k);
    OpensIsStart(ops, a);
    assert AllKept(kept, 0, a) <==> forall i :: 0 <= i < a ==> ops[i].Equal? by {
      if AllKept(kept, 0, a) { assert forall i :: 0 <= i < a ==> kept[i]; }
    }
  }

  /** A change at which a hunk starts. */
  lemma HunkAt(hunks: seq<DiffHunk>, ops: seq<DiffOp>, bounds: Bounds, left: seq<Line>, right: seq<Line>, p: nat) returns (k: nat)
    requires GitDiffOf(hunks, ops, bounds, left, right) && StartsHunk(ops, p)
    ensures k < |hunks| == |bounds| && bounds[k].0 == p
  {
    hide Segmentation;
    OpensIsStart(ops, p);
    StartsAre(Kept(ops), RUN, bounds, p);
    var m: nat :| m < |bounds| && bounds[m].0 == p;
    k := m;
  }

  /** The conditions on the change list are conditions on the first lines of the hunks. */
  lemma StartsKnownIff(hunks: seq<DiffHunk>, ops: seq<DiffOp>, bounds: Bounds, left: seq<Line>, right: seq<Line>)
    requires GitDiffOf(hunks, ops, bounds, left, right)
    ensures LeadingInsertOnly(ops) <==> forall k :: 0 <= k < |hunks| ==> OldStartKnown(hunks[k])
    ensures LaterInsert(ops) <==> exists k :: 0 < k < |hunks| && !OldStartKnown(hunks[k])
  {
    hide GitDiffOf, OldStartKnown, StartsHunk;
    forall k: nat | k < |hunks| { FirstLine(hunks, ops, bounds, left, right, k); }
    forall p: nat | StartsHunk(ops, p) ensures exists k: nat :: k < |hunks| == |bounds| && bounds[k].0 == p {
      var k := HunkAt(hunks, ops, bounds, left, right, p);
    }
  }

  // ----- exactly when the hunks patch as they are -----

  /** The first hunk, put at the beginning of the old text instead of its true place, happens to
      apply there and to give the same text. */
  predicate Coincides(left: seq<Line>, hunks: seq<DiffHunk>) {
    && hunks != [] && hunks[0].newStart > 0
    && var gone, put, a := OldLines(hunks[0].lines), NewLines(hunks[0].lines), hunks[0].newStart - 1;
    && a + |gone| <= |left|
    && left[..|gone|] == gone
    && put + left[|gone|..a + |gone|] == left[..a] + put
  }

  /** One hunk applied at its start. */
  lemma ApplyOne(left: seq<Line>, hunks: seq<DiffHunk>, at: nat)
    requires hunks != [] && at <= hunks[0].oldStart - 1
    ensures var gone, start := OldLines(hunks[0].lines), hunks[0].oldStart - 1;
      if start + |gone| <= |left| && left[start..start + |gone|] == gone && Apply(left, hunks[1..], start + |gone|).Some?
      then Apply(left, hunks, at) == Some(left[at..start] + NewLines(hunks[0].lines) + Apply(left, hunks[1..], start + |gone|).value)
      else Apply(left, hunks, at) == None
  {
    hide OldLines, NewLines;
  }

  /** Starting earlier copies what lies between. */
  lemma ApplyEarlier(left: seq<Line>, hunks: seq<DiffHunk>, early: nat, at: nat)
    requires early <= at && Apply(left, hunks, at).Some?
    ensures at <= |left| && Apply(left, hunks, early) == Some(left[early..at] + Apply(left, hunks, at).value)
  {
    if hunks == [] {
      Between(left, early, at, |left|);
    } else {
      hide Apply, OldLines, NewLines;
      var start := hunks[0].oldStart - 1;
      assert at <= start by { AppliesAt(left, hunks, at); }
      ApplyOne(left, hunks, at);
      ApplyOne(left, hunks, early);
      var rest := Apply(left, hunks[1..], start + |OldLines(hunks[0].lines)|).value;
      Between(left, early, at, start);
      ThreeParts(left[early..at], left[at..start], NewLines(hunks[0].lines), rest);
    }
  }

  lemma AppliesAt(left: seq<Line>, hunks: seq<DiffHunk>, at: nat)
    requires hunks != [] && Apply(left, hunks, at).Some?
    ensures at <= hunks[0].oldStart - 1
  {
  }

  lemma ThreeParts(a: seq<Line>, b: seq<Line>, c: seq<Line>, d: seq<Line>)
    ensures a + b + c + d == a + (b + c + d)
  {
  }

  lemma Between(s: seq<Line>, x: nat, y: nat, z: nat)
    requires x <= y <= z <= |s|
    ensures s[x..z] == s[x..y] + s[y..z] && s[x..|s|] == s[x..] && s[y..|s|] == s[y..]
  {
  }

  /** The first hunk applied where the code says: at line 1. */
  lemma FirstAtLineOne(hunks: seq<DiffHunk>, ops: seq<DiffOp>, bounds: Bounds, left: seq<Line>, right: seq<Line>)
    requires GitDiffOf(hunks, ops, bounds, left, right)
    requires hunks != [] && !OldStartKnown(hunks[0])
    requires forall k :: 0 < k < |hunks| ==> OldStartKnown(hunks[k])
    ensures Apply(left, hunks, 0) == Some(right) <==> Coincides(left, hunks)
  {
    hide GitDiffOf, OldLines, NewLines, OldStartKnown, Apply, Coincides;
    var placed := Recovered(hunks);
    RecoveredIsPatch(hunks, ops, bounds, left, right);
    forall k: nat | k < |hunks| ensures k > 0 ==> placed[k].oldStart == hunks[k].oldStart {
      if k > 0 { KnownStart(hunks, ops, bounds, left, right, k); }
    }
    FirstStart(hunks, ops, bounds, left, right);
    FitsAtFront(left, hunks, placed, right);
  }

  /** The same about any two lists of hunks that differ only in where the first one starts. */
  lemma FitsAtFront(left: seq<Line>, hunks: seq<DiffHunk>, placed: seq<DiffHunk>, right: seq<Line>)
    requires |hunks| == |placed| && hunks != []
    requires hunks[0].oldStart == 1 && placed[0].oldStart == hunks[0].newStart > 0 && placed[0].lines == hunks[0].lines
    requires forall k :: 0 < k < |hunks| ==> placed[k].oldStart == hunks[k].oldStart && placed[k].lines == hunks[k].lines
    requires Apply(left, placed, 0) == Some(right)
    ensures Apply(left, hunks, 0) == Some(right) <==> Coincides(left, hunks)
  {
    hide OldLines, NewLines, Apply;
    var gone, put, a := OldLines(hunks[0].lines), NewLines(hunks[0].lines), hunks[0].newStart - 1;
    ApplyOne(left, placed, 0);
    ApplyOne(left, hunks, 0);
    ApplyOldSide(left, hunks[1..], placed[1..], a + |gone|);
    ApplyEarlier(left, hunks[1..], |gone|, a + |gone|);
    var rest, between := Apply(left, hunks[1..], a + |gone|).value, left[|gone|..a + |gone|];
    assert left[0..a] == left[..a] && left[0..|gone|] == left[..|gone|] && left[0..0] == [];
    SameFront(left[..a], put, between, rest);
  }

  lemma SameFront(front: seq<Line>, put: seq<Line>, between: seq<Line>, rest: seq<Line>)
    requires |front| == |between|
    ensures [] + put + (between + rest) == front + put + rest <==> put + between == front + put
  {
    var x, y := put + between, front + put;
    assert [] + put + (between + rest) == x + rest;
    if x + rest == y + rest { assert x == (x + rest)[..|x|] && y == (y + rest)[..|x|]; }
  }

  lemma KnownStart(hunks: seq<DiffHunk>, ops: seq<DiffOp>, bounds: Bounds, left: seq<Line>, right: seq<Line>, k: nat)
    requires GitDiffOf(hunks, ops, bounds, left, right) && k < |hunks| && OldStartKnown(hunks[k])
    ensures Recovered(hunks)[k].oldStart == hunks[k].oldStart
  {
    hide Aligned, Segmentation, OldLines, NewLines, LeftPos, RightPos, Ahead;
    StartsTrue(hunks, ops, bounds, left, right, k);
    RecoveredPlaces(hunks, ops, bounds, left, right, k);
  }

  /** The first hunk's true start on the left is its start on the right: all before it is common. */
  lemma FirstStart(hunks: seq<DiffHunk>, ops: seq<DiffOp>, bounds: Bounds, left: seq<Line>, right: seq<Line>)
    requires GitDiffOf(hunks, ops, bounds, left, right) && hunks != [] && !OldStartKnown(hunks[0])
    ensures hunks[0].oldStart == 1 && hunks[0].newStart > 0
    ensures Recovered(hunks)[0].oldStart == hunks[0].newStart && Recovered(hunks)[0].lines == hunks[0].lines
  {
    hide Aligned, Segmentation, OldLines, NewLines, LeftPos, RightPos;
    StartOf(hunks, ops, bounds, left, right, 0);
    StartsTrue(hunks, ops, bounds, left, right, 0);
    assert Ahead(hunks, 0) == 0;
  }

  /** As they are, the hunks rebuild the new text exactly if no hunk starts with an insertion, but
      perhaps at the very beginning, or only the first does and happens to fit at line 1. */
  lemma PatchIff(hunks: seq<DiffHunk>, ops: seq<DiffOp>, bounds: Bounds, left: seq<Line>, right: seq<Line>)
    requires GitDiffOf(hunks, ops, bounds, left, right)
    ensures LeadingInsertOnly(ops) ==> Apply(left, hunks, 0) == Some(right)
    ensures LaterInsert(ops) ==> Apply(left, hunks, 0) == None
    ensures Apply(left, hunks, 0) == Some(right) <==> LeadingInsertOnly(ops) || (!LaterInsert(ops) && Coincides(left, hunks))
  {
    hide GitDiffOf, Apply, LeadingInsertOnly, LaterInsert, Coincides, OldLines, NewLines;
    StartsKnownIff(hunks, ops, bounds, left, right);
    if LeadingInsertOnly(ops) {
      PatchIfKnown(hunks, ops, bounds, left, right);
    } else if LaterInsert(ops) {
      var k :| 0 < k < |hunks| && !OldStartKnown(hunks[k]);
      LaterInsertionRefused(hunks, ops, bounds, left, right, k);
    } else {
      FirstAtLineOne(hunks, ops, bounds, left, right);
    }
  }

  /** Of each hunk: its shape, and counts that are those of its own lines. */
  predicate HunkSound(hunks: seq<DiffHunk>, k: nat)
    requires k < |hunks|
  {
    var h := hunks[k];
    && ShapeOk(h.lines, RUN, k + 1 < |hunks|)
    && h.oldCount == |OldLines(h.lines)| && h.newCount == |NewLines(h.lines)|
    && h.oldStart == FirstOr1(h.lines[0].leftNo) && h.newStart == FirstOr1(h.lines[0].rightNo)
  }

  /** The whole function, said of its result alone. With the starts recovered, which leaves lines
      and counts alone, the hunks patch either way; as they are they do so if no start is
      missing, and a later hunk with a missing start spoils all. */
  method ComputeDiffHunks(changes: seq<Change>, ghost left: seq<Line>, ghost right: seq<Line>) returns (hunks: seq<DiffHunk>)
    requires ValidChanges(changes, left, right)
    ensures Apply(left, Recovered(hunks), 0) == Some(right)
    ensures Apply(right, SwapHunks(Recovered(hunks)), 0) == Some(left)
    ensures forall k :: 0 <= k < |hunks| ==> HunkSound(hunks, k)
    ensures forall k, m :: 0 <= k < |hunks| && 0 <= m < |hunks[k].lines| ==> TrueNumbers(Recovered(hunks)[k], m, left, right)
    ensures LeadingInsertOnly(Tags(changes)) ==> Apply(left, hunks, 0) == Some(right)
    ensures LaterInsert(Tags(changes)) ==> Apply(left, hunks, 0) == None
    ensures Apply(left, hunks, 0) == Some(right) <==>
      LeadingInsertOnly(Tags(changes)) || (!LaterInsert(Tags(changes)) && Coincides(left, hunks))
    ensures hunks == [] <==> forall p :: 0 <= p < |changes| ==> changes[p].tag.Equal?
  {
    hide Segmentation, LeftPos, RightPos, LineOf, LinesOf, Apply, ShapeOk, TrueNumbers, OldLines, NewLines, GitDiffOf, HunkSound, ToLine;
    ghost var bounds;
    hunks, bounds := CutChanges(changes, left, right);
    ghost var ops := Tags(changes);
    CutIsDiff(hunks, changes, bounds, left, right);
    RecoveredIsPatch(hunks, ops, bounds, left, right);
    NoSegments(Kept(ops), RUN, bounds);
    forall k | 0 <= k < |hunks| ensures HunkSound(hunks, k) {
      SoundAt(hunks, ops, bounds, left, right, k);
    }
    forall k, m | 0 <= k < |hunks| && 0 <= m < |hunks[k].lines| ensures TrueNumbers(Recovered(hunks)[k], m, left, right) {
      LinesAreNumbered(Recovered(hunks), ops, bounds, left, right, RUN, k, m);
    }
    PatchIff(hunks, ops, bounds, left, right);
  }

  lemma CutIsDiff(hunks: seq<DiffHunk>, changes: seq<Change>, bounds: Bounds, left: seq<Line>, right: seq<Line>)
    requires ValidChanges(changes, left, right)
    requires Segmentation(Kept(Tags(changes)), RUN, bounds)
    requires Nonempty(Tags(changes), bounds) && GitHunksOf(hunks, Tags(changes), bounds, left, right)
    ensures GitDiffOf(hunks, Tags(changes), bounds, left, right) && |hunks| == |bounds|
  {
  }

  lemma SoundAt(hunks: seq<DiffHunk>, ops: seq<DiffOp>, bounds: Bounds, left: seq<Line>, right: seq<Line>, k: nat)
    requires GitDiffOf(hunks, ops, bounds, left, right) && k < |hunks|
    ensures HunkSound(hunks, k)
  {
    hide Segmentation, LeftPos, RightPos, LineOf, LinesOf, ShapeOk, OldLines, NewLines, Aligned;
    GitHunkShape(hunks, ops, bounds, left, right, k);
    assert GitHunk(hunks[k], ops, left, right, bounds[k]);
    LineAt(ops, left, right, bounds[k].0, bounds[k].1, 0);
    assert hunks[k].lines != [] by { ShapeNotEmpty(hunks[k].lines, k + 1 < |hunks|); }
  }

  lemma ShapeNotEmpty(lines: seq<DiffLine>, followed: bool)
    requires ShapeOk(lines, RUN, followed)
    ensures lines != []
  {
  }
}
