/** How a line-by-line script is cut into hunks: `kept` says of every position whether the line
    is common. A segment starts at a change and ends as soon as `run` common lines in a row
    follow, or at the end; between segments everything is common. */
module Segments {
  import opened Basics

  type Bounds = seq<(nat, nat)>

  predicate AllKept(kept: seq<bool>, a: int, b: int) {
    forall i :: 0 <= a <= i < b <= |kept| ==> kept[i]
  }

  /** The `run` lines before e are common. */
  predicate Window(kept: seq<bool>, run: nat, e: int) {
    run <= e <= |kept| && AllKept(kept, e - run, e)
  }

  /** From a on, nothing before position b has completed a run of common lines. */
  predicate NoRunBefore(kept: seq<bool>, run: nat, a: nat, b: int) {
    forall e :: a + run <= e < b ==> !Window(kept, run, e)
  }

  predicate SegmentOk(kept: seq<bool>, run: nat, s: (nat, nat)) {
    && s.0 < s.1 <= |kept| && !kept[s.0]
    && NoRunBefore(kept, run, s.0, s.1)
    && (s.1 < |kept| ==> s.0 + run <= s.1 && Window(kept, run, s.1))
  }

  /** A segment that was closed before the end was reached. */
  predicate ClosedOk(kept: seq<bool>, run: nat, s: (nat, nat)) {
    && s.0 < s.1 <= |kept| && !kept[s.0]
    && NoRunBefore(kept, run, s.0, s.1)
    && s.0 + run <= s.1 && Window(kept, run, s.1)
  }

  function EndBefore(bounds: Bounds, k: nat): nat
    requires k <= |bounds|
  {
    if k == 0 then 0 else bounds[k - 1].1
  }

  /** The gap before segment k holds common lines only. */
  predicate GapOk(kept: seq<bool>, bounds: Bounds, k: nat)
    requires k < |bounds|
  {
    EndBefore(bounds, k) <= bounds[k].0 && AllKept(kept, EndBefore(bounds, k), bounds[k].0)
  }

  predicate GapsOk(kept: seq<bool>, bounds: Bounds) {
    forall k :: 0 <= k < |bounds| ==> GapOk(kept, bounds, k)
  }

  predicate Segmentation(kept: seq<bool>, run: nat, bounds: Bounds) {
    && (forall k :: 0 <= k < |bounds| ==> SegmentOk(kept, run, bounds[k]))
    && GapsOk(kept, bounds)
    && AllKept(kept, EndBefore(bounds, |bounds|), |kept|)
  }

  // ----- the scan, position by position -----

  /** After the first p positions: the closed segments, and where an open one started. */
  predicate Scanned(kept: seq<bool>, run: nat, bounds: Bounds, open: Option<nat>, p: nat) {
    && p <= |kept|
    && (forall k :: 0 <= k < |bounds| ==> ClosedOk(kept, run, bounds[k]) && bounds[k].1 <= p)
    && GapsOk(kept, bounds)
    && var last := EndBefore(bounds, |bounds|);
       match open
       case None => AllKept(kept, last, p)
       case Some(a) =>
         last <= a < p && AllKept(kept, last, a) && !kept[a] && NoRunBefore(kept, run, a, p + 1)
  }

  lemma ScanOutside(kept: seq<bool>, run: nat, bounds: Bounds, p: nat)
    requires Scanned(kept, run, bounds, None, p) && p < |kept| && run > 0
    ensures Scanned(kept, run, bounds, if kept[p] then None else Some(p), p + 1)
  {
    if !kept[p] {
      forall e | p + run <= e < p + 2 ensures !Window(kept, run, e) {
        assert e - run <= p < e ==> !AllKept(kept, e - run, e);
      }
    }
  }

  /** Inside a segment: it stays open unless this position completes the run. */
  lemma ScanInside(kept: seq<bool>, run: nat, bounds: Bounds, a: nat, p: nat)
    requires Scanned(kept, run, bounds, Some(a), p) && p < |kept| && run > 0
    ensures Window(kept, run, p + 1) && a + run <= p + 1 ==> Scanned(kept, run, bounds + [(a, p + 1)], None, p + 1)
    ensures !(Window(kept, run, p + 1) && a + run <= p + 1) ==> Scanned(kept, run, bounds, Some(a), p + 1)
  {
    if Window(kept, run, p + 1) && a + run <= p + 1 {
      var more := bounds + [(a, p + 1)];
      forall k | 0 <= k < |more| ensures ClosedOk(kept, run, more[k]) && more[k].1 <= p + 1 {
        if k < |bounds| { assert more[k] == bounds[k]; }
      }
      forall k | 0 <= k < |more|
        ensures GapOk(kept, more, k)
      {
        assert EndBefore(more, k) == EndBefore(bounds, k);
        if k < |bounds| { assert GapOk(kept, bounds, k) && more[k] == bounds[k]; }
      }
    }
  }

  /** At the end an open segment is closed as it is. */
  lemma ScanEnds(kept: seq<bool>, run: nat, bounds: Bounds, open: Option<nat>)
    requires Scanned(kept, run, bounds, open, |kept|)
    ensures open.None? ==> Segmentation(kept, run, bounds)
    ensures open.Some? ==> Segmentation(kept, run, bounds + [(open.value, |kept|)])
  {
    if open.Some? {
      var more := bounds + [(open.value, |kept|)];
      forall k | 0 <= k < |more| ensures SegmentOk(kept, run, more[k]) {
        if k < |bounds| { assert more[k] == bounds[k]; }
      }
      forall k | 0 <= k < |more|
        ensures GapOk(kept, more, k)
      {
        assert EndBefore(more, k) == EndBefore(bounds, k);
        if k < |bounds| { assert GapOk(kept, bounds, k) && more[k] == bounds[k]; }
      }
    }
  }

  /** How many common lines in a row end at p; counted back to the last change. */
  predicate Trailing(kept: seq<bool>, a: nat, p: nat, count: nat) {
    a + count < p <= |kept| && AllKept(kept, p - count, p) && !kept[p - count - 1]
  }

  lemma TrailingWindow(kept: seq<bool>, run: nat, a: nat, p: nat, count: nat)
    requires Trailing(kept, a, p, count) && run > 0
    ensures Window(kept, run, p) && a + run <= p <==> count >= run
  {
    assert p - run <= p - count - 1 < p <==> count < run;
  }

  // ----- what a segmentation means -----

  lemma {:induction false} EndsGrow(kept: seq<bool>, run: nat, bounds: Bounds, i: nat, k: nat)
    requires Segmentation(kept, run, bounds) && i < k <= |bounds|
    ensures bounds[i].1 <= EndBefore(bounds, k)
    ensures k < |bounds| ==> bounds[i].1 <= bounds[k].0
  {
    if i < k - 1 {
      EndsGrow(kept, run, bounds, i, k - 1);
      assert SegmentOk(kept, run, bounds[k - 1]);
    }
    if k < |bounds| { assert GapOk(kept, bounds, k); }
  }

  predicate Inside(s: (nat, nat), p: int) {
    s.0 <= p < s.1
  }

  /** Every change lies in exactly one segment. */
  lemma ChangeInOneSegment(kept: seq<bool>, run: nat, bounds: Bounds, p: nat) returns (k: nat)
    requires Segmentation(kept, run, bounds) && p < |kept| && !kept[p]
    ensures k < |bounds| && Inside(bounds[k], p)
    ensures forall m :: 0 <= m < |bounds| && Inside(bounds[m], p) ==> m == k
  {
    k := 0;
    while k < |bounds| && bounds[k].1 <= p
      invariant k <= |bounds| && EndBefore(bounds, k) <= p
    {
      k := k + 1;
    }
    assert k < |bounds| && bounds[k].0 <= p by {
      if k < |bounds| { assert GapOk(kept, bounds, k); }
    }
    forall m | 0 <= m < |bounds| && Inside(bounds[m], p) ensures m == k {
      if m < k { EndsGrow(kept, run, bounds, m, k); }
      if k < m { EndsGrow(kept, run, bounds, k, m); }
    }
  }

  /** There is nothing to report exactly if everything is common. */
  lemma NoSegments(kept: seq<bool>, run: nat, bounds: Bounds)
    requires Segmentation(kept, run, bounds)
    ensures bounds == [] <==> forall p :: 0 <= p < |kept| ==> kept[p]
  {
    if bounds != [] { assert SegmentOk(kept, run, bounds[0]); }
  }

  /** The requirement determines the cut. */
  lemma {:induction false} SegmentationUnique(kept: seq<bool>, run: nat, b1: Bounds, b2: Bounds, k: nat)
    requires Segmentation(kept, run, b1) && Segmentation(kept, run, b2)
    requires k <= |b1| && k <= |b2| && b1[..k] == b2[..k] && run > 0
    ensures b1 == b2
    decreases |b1| - k
  {
    assert EndBefore(b1, k) == EndBefore(b2, k) by {
      if k > 0 { assert b1[k - 1] == b1[..k][k - 1] == b2[..k][k - 1]; }
    }
    if k < |b1| { assert SegmentOk(kept, run, b1[k]) && GapOk(kept, b1, k); }
    if k < |b2| { assert SegmentOk(kept, run, b2[k]) && GapOk(kept, b2, k); }
    if k < |b1| && k < |b2| {
      assert b1[k].0 == b2[k].0;
      assert b1[k].1 == b2[k].1;
      assert b1[..k + 1] == b1[..k] + [b1[k]] && b2[..k + 1] == b2[..k] + [b2[k]];
      SegmentationUnique(kept, run, b1, b2, k + 1);
    } else {
      assert b1 == b1[..k] && b2 == b2[..k];
    }
  }

  /** The longest runs of common lines inside a segment, and the one that ends it. */
  lemma SegmentShape(kept: seq<bool>, run: nat, bounds: Bounds, k: nat)
    requires Segmentation(kept, run, bounds) && k < |bounds| && run > 0
    ensures !kept[bounds[k].0]
    ensures forall i, e :: bounds[k].0 <= i <= e < bounds[k].1 && AllKept(kept, i, e) ==> e - i < run
    ensures k + 1 < |bounds| ==>
      && bounds[k].1 - run > bounds[k].0
      && AllKept(kept, bounds[k].1 - run, bounds[k].1) && !kept[bounds[k].1 - run - 1]
  {
    var s := bounds[k];
    assert SegmentOk(kept, run, s);
    forall i, e | s.0 <= i <= e < s.1 && AllKept(kept, i, e) ensures e - i < run {
      assert i == s.0 ==> i == e;
      if e - i >= run { assert Window(kept, run, e); }
    }
    if k + 1 < |bounds| {
      EndsGrow(kept, run, bounds, k, k + 1);
      assert SegmentOk(kept, run, bounds[k + 1]);
      assert Window(kept, run, s.1);
      if kept[s.1 - run - 1] {
        assert Window(kept, run, s.1 - 1);
      }
    }
  }

  /** A change before which everything is common, or at least a whole run. */
  predicate Opens(kept: seq<bool>, run: nat, p: nat) {
    p < |kept| && !kept[p] && (AllKept(kept, 0, p) || (run <= p && AllKept(kept, p - run, p)))
  }

  /** Where segments start can be told from the positions alone. */
  lemma StartsAre(kept: seq<bool>, run: nat, bounds: Bounds, p: nat)
    requires Segmentation(kept, run, bounds) && run > 0
    ensures Opens(kept, run, p) <==> exists k :: 0 <= k < |bounds| && bounds[k].0 == p
  {
    if k :| 0 <= k < |bounds| && bounds[k].0 == p { StartOpens(kept, run, bounds, k); }
    if Opens(kept, run, p) {
      var k := ChangeInOneSegment(kept, run, bounds, p);
      var (a, b) := bounds[k];
      assert SegmentOk(kept, run, bounds[k]);
      if a < p {
        assert !AllKept(kept, 0, p);
        assert run <= p && AllKept(kept, p - run, p);
        assert a + run <= p;
        assert Window(kept, run, p);
      }
    }
  }

  lemma StartOpens(kept: seq<bool>, run: nat, bounds: Bounds, k: nat)
    requires Segmentation(kept, run, bounds) && k < |bounds| && run > 0
    ensures Opens(kept, run, bounds[k].0)
    ensures k == 0 <==> AllKept(kept, 0, bounds[k].0)
  {
    var p := bounds[k].0;
    assert GapOk(kept, bounds, k) && SegmentOk(kept, run, bounds[k]);
    if k > 0 {
      var (a, e) := bounds[k - 1];
      EndsGrow(kept, run, bounds, k - 1, k);
      assert SegmentOk(kept, run, bounds[k - 1]);
      assert e - run <= p - run;
      assert forall i :: p - run <= i < p ==> kept[i];
      assert !kept[a];
    }
  }
}
