/** Edit scripts between two lists of lines, and the longest common subsequence. */
module DiffScript {
  import opened Basics

  datatype DiffOp = Equal | Add | Remove

  /** The script turns what is left of `left` from i on into what is left of `right` from j on,
      consuming both to the end; only equal lines are kept. */
  predicate Script<T(==)>(ops: seq<DiffOp>, left: seq<T>, right: seq<T>, i: nat, j: nat)
    decreases |ops|
  {
    if ops == [] then i == |left| && j == |right|
    else
      match ops[0]
      case Equal => i < |left| && j < |right| && left[i] == right[j] && Script(ops[1..], left, right, i + 1, j + 1)
      case Add => j < |right| && Script(ops[1..], left, right, i, j + 1)
      case Remove => i < |left| && Script(ops[1..], left, right, i + 1, j)
  }

  function Count(ops: seq<DiffOp>, op: DiffOp): nat {
    if ops == [] then 0 else (if ops[0] == op then 1 else 0) + Count(ops[1..], op)
  }

  /** Additions and removals. */
  function Cost(ops: seq<DiffOp>): nat {
    Count(ops, Add) + Count(ops, Remove)
  }

  // ----- common subsequences -----

  /** The positions `at`, in order and below n, spell c in s. */
  predicate Spells<T(==)>(c: seq<T>, s: seq<T>, n: nat, at: seq<nat>) {
    && |at| == |c|
    && (forall k :: 0 <= k < |at| ==> at[k] < n <= |s| && s[at[k]] == c[k])
    && (forall k, m :: 0 <= k < m < |at| ==> at[k] < at[m])
  }

  /** c is a subsequence of the first n elements of s. */
  ghost predicate SubsequenceOf<T(!new)>(c: seq<T>, s: seq<T>, n: nat) {
    exists at :: Spells(c, s, n, at)
  }

  ghost predicate Common<T(!new)>(c: seq<T>, left: seq<T>, i: nat, right: seq<T>, j: nat) {
    SubsequenceOf(c, left, i) && SubsequenceOf(c, right, j)
  }

  /** n is the length of the longest common subsequences of the prefixes of length i and j. */
  ghost predicate LongestCommon<T(!new)>(n: nat, left: seq<T>, i: nat, right: seq<T>, j: nat) {
    && (exists c :: Common(c, left, i, right, j) && |c| == n)
    && (forall c :: Common(c, left, i, right, j) ==> |c| <= n)
  }

  lemma Widen<T(!new)>(c: seq<T>, s: seq<T>, n: nat, m: nat)
    requires SubsequenceOf(c, s, n) && n <= m <= |s|
    ensures SubsequenceOf(c, s, m)
  {
    var at :| Spells(c, s, n, at);
    assert Spells(c, s, m, at);
  }

  lemma Extend<T(!new)>(c: seq<T>, s: seq<T>, n: nat)
    requires SubsequenceOf(c, s, n) && n < |s|
    ensures SubsequenceOf(c + [s[n]], s, n + 1)
  {
    var at :| Spells(c, s, n, at);
    assert Spells(c + [s[n]], s, n + 1, at + [n]);
  }

  /** Without its last element a subsequence fits into one position less. */
  lemma Shorten<T(!new)>(c: seq<T>, s: seq<T>, n: nat)
    requires SubsequenceOf(c, s, n + 1) && c != []
    ensures SubsequenceOf(c[..|c| - 1], s, n)
  {
    var at :| Spells(c, s, n + 1, at);
    assert forall k :: 0 <= k < |at| - 1 ==> at[k] < at[|at| - 1];
    var m := |c| - 1;
    assert forall k :: 0 <= k < m ==> at[..m][k] == at[k] && c[..m][k] == c[k];
    assert Spells(c[..m], s, n, at[..m]);
  }

  /** A subsequence that does not end with the last element does not need it. */
  lemma Unneeded<T(!new)>(c: seq<T>, s: seq<T>, n: nat)
    requires SubsequenceOf(c, s, n + 1) && n < |s| && (c == [] || c[|c| - 1] != s[n])
    ensures SubsequenceOf(c, s, n)
  {
    var at :| Spells(c, s, n + 1, at);
    if c != [] {
      assert at[|at| - 1] != n;
      assert forall k :: 0 <= k < |at| - 1 ==> at[k] < at[|at| - 1];
    }
    assert Spells(c, s, n, at);
  }

  /** A subsequence is no longer than what it is taken from. */
  lemma NoLonger<T(!new)>(c: seq<T>, s: seq<T>, n: nat)
    requires SubsequenceOf(c, s, n)
    ensures |c| <= n
  {
    var at :| Spells(c, s, n, at);
    for k := 0 to |at|
      invariant k > 0 ==> at[k - 1] >= k - 1
    {
    }
  }

  lemma EmptyCommon<T(!new)>(left: seq<T>, i: nat, right: seq<T>, j: nat)
    requires i <= |left| && j <= |right| && (i == 0 || j == 0)
    ensures LongestCommon(0, left, i, right, j)
  {
    assert Spells([], left, i, []) && Spells([], right, j, []);
    assert Common([], left, i, right, j);
    forall c | Common(c, left, i, right, j) ensures |c| <= 0 {
      if i == 0 { NoLonger(c, left, 0); } else { NoLonger(c, right, 0); }
    }
  }

  /** The recurrence of the table, equal last lines. */
  lemma CommonDiagonal<T(!new)>(n: nat, left: seq<T>, i: nat, right: seq<T>, j: nat)
    requires i < |left| && j < |right| && left[i] == right[j]
    requires LongestCommon(n, left, i, right, j)
    ensures LongestCommon(n + 1, left, i + 1, right, j + 1)
  {
    var c :| Common(c, left, i, right, j) && |c| == n;
    Extend(c, left, i);
    Extend(c, right, j);
    assert Common(c + [left[i]], left, i + 1, right, j + 1);
    forall d | Common(d, left, i + 1, right, j + 1) ensures |d| <= n + 1 {
      if d != [] {
        Shorten(d, left, i);
        Shorten(d, right, j);
        assert Common(d[..|d| - 1], left, i, right, j);
      }
    }
  }

  /** The recurrence of the table, different last lines. */
  lemma CommonMax<T(!new)>(up: nat, back: nat, left: seq<T>, i: nat, right: seq<T>, j: nat)
    requires i < |left| && j < |right| && left[i] != right[j]
    requires LongestCommon(up, left, i, right, j + 1) && LongestCommon(back, left, i + 1, right, j)
    ensures LongestCommon(if up > back then up else back, left, i + 1, right, j + 1)
  {
    var c :| Common(c, left, i, right, j + 1) && |c| == up;
    Widen(c, left, i, i + 1);
    var d :| Common(d, left, i + 1, right, j) && |d| == back;
    Widen(d, right, j, j + 1);
    assert Common(c, left, i + 1, right, j + 1) && Common(d, left, i + 1, right, j + 1);
    forall e | Common(e, left, i + 1, right, j + 1) ensures |e| <= if up > back then up else back {
      if e == [] || e[|e| - 1] != left[i] {
        Unneeded(e, left, i);
        assert Common(e, left, i, right, j + 1);
      } else {
        Unneeded(e, right, j);
        assert Common(e, left, i + 1, right, j);
      }
    }
  }

  lemma LongestUnique<T(!new)>(n: nat, m: nat, left: seq<T>, i: nat, right: seq<T>, j: nat)
    requires LongestCommon(n, left, i, right, j) && LongestCommon(m, left, i, right, j)
    ensures n == m
  {
  }

  // ----- scripts and common subsequences -----

  lemma {:induction false} ScriptCounts<T>(ops: seq<DiffOp>, left: seq<T>, right: seq<T>, i: nat, j: nat)
    requires Script(ops, left, right, i, j)
    ensures i <= |left| && j <= |right|
    ensures Count(ops, Equal) + Count(ops, Remove) == |left| - i
    ensures Count(ops, Equal) + Count(ops, Add) == |right| - j
  {
    if ops != [] {
      match ops[0]
      case Equal => ScriptCounts(ops[1..], left, right, i + 1, j + 1);
      case Add => ScriptCounts(ops[1..], left, right, i, j + 1);
      case Remove => ScriptCounts(ops[1..], left, right, i + 1, j);
    }
  }

  /** The lines a script keeps extend any common subsequence of what lies before. */
  lemma {:induction false} KeptAreCommon<T(!new)>(ops: seq<DiffOp>, left: seq<T>, right: seq<T>, i: nat, j: nat, c: seq<T>)
    returns (d: seq<T>)
    requires Script(ops, left, right, i, j) && Common(c, left, i, right, j)
    ensures Common(d, left, |left|, right, |right|) && |d| == |c| + Count(ops, Equal)
    decreases |ops|
  {
    if ops == [] {
      d := c;
    } else {
      ScriptCounts(ops, left, right, i, j);
      match ops[0]
      case Equal =>
        Extend(c, left, i);
        Extend(c, right, j);
        d := KeptAreCommon(ops[1..], left, right, i + 1, j + 1, c + [left[i]]);
      case Add =>
        Widen(c, right, j, j + 1);
        d := KeptAreCommon(ops[1..], left, right, i, j + 1, c);
      case Remove =>
        Widen(c, left, i, i + 1);
        d := KeptAreCommon(ops[1..], left, right, i + 1, j, c);
    }
  }

  /** A script that keeps a longest common subsequence has the least possible cost. */
  lemma LongestIsCheapest<T(!new)>(ops: seq<DiffOp>, other: seq<DiffOp>, left: seq<T>, right: seq<T>)
    requires Script(ops, left, right, 0, 0) && Script(other, left, right, 0, 0)
    requires LongestCommon(Count(ops, Equal), left, |left|, right, |right|)
    ensures Cost(ops) <= Cost(other)
  {
    ScriptCounts(ops, left, right, 0, 0);
    ScriptCounts(other, left, right, 0, 0);
    assert Spells([], left, 0, []) && Spells([], right, 0, []);
    var d := KeptAreCommon(other, left, right, 0, 0, []);
  }

  /** Replay: kept lines come from the left, added lines from the right. */
  function Replay<T>(ops: seq<DiffOp>, left: seq<T>, right: seq<T>, i: nat, j: nat): seq<T>
    requires Script(ops, left, right, i, j)
  {
    if ops == [] then []
    else
      match ops[0]
      case Equal => [left[i]] + Replay(ops[1..], left, right, i + 1, j + 1)
      case Add => [right[j]] + Replay(ops[1..], left, right, i, j + 1)
      case Remove => Replay(ops[1..], left, right, i + 1, j)
  }

  lemma {:induction false} ReplayIsRight<T>(ops: seq<DiffOp>, left: seq<T>, right: seq<T>, i: nat, j: nat)
    requires Script(ops, left, right, i, j)
    ensures j <= |right| && Replay(ops, left, right, i, j) == right[j..]
  {
    if ops != [] {
      match ops[0]
      case Equal => ReplayIsRight(ops[1..], left, right, i + 1, j + 1);
      case Add => ReplayIsRight(ops[1..], left, right, i, j + 1);
      case Remove => ReplayIsRight(ops[1..], left, right, i + 1, j);
    }
  }
}
