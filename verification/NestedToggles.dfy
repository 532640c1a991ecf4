/** Sinks that pause or resume other jobs. A sink is called under the event gate of its job, so a
    call of `pause_job` from inside it waits for a second gate while the first is held. The jobs
    lock is left out here: whoever has it goes on without waiting. */
module NestedToggles {
  import opened Basics
  import opened JobEvents
  import opened RuntimeModel

  /** Whether a sink of the first job may pause or resume the second. */
  type Pauses = (JobId, JobId) -> bool

  /** The gates a thread holds, innermost call last, and the one it waits for. */
  datatype Caller = Caller(held: seq<JobId>, wants: Option<JobId>)

  type Callers = map<ThreadId, Caller>

  datatype Move = Call(t: ThreadId, j: JobId) | Nest(t: ThreadId, j: JobId) | Grab(t: ThreadId) | Release(t: ThreadId)

  predicate Free(s: Callers, j: JobId) {
    forall u :: u in s ==> j !in s[u].held
  }

  predicate CanMove(p: Pauses, s: Callers, m: Move) {
    m.t in s && var c := s[m.t];
    match m
    case Call(_, _) => c == Caller([], None)
    case Nest(_, j) => c.held != [] && c.wants.None? && p(c.held[|c.held| - 1], j)
    case Grab(_) => c.wants.Some? && Free(s, c.wants.value)
    case Release(_) => c.held != [] && c.wants.None?
  }

  function Do(p: Pauses, s: Callers, m: Move): Callers
    requires CanMove(p, s, m)
  {
    var c := s[m.t];
    match m
    case Call(t, j) => s[t := Caller([], Some(j))]
    case Nest(t, j) => s[t := Caller(c.held, Some(j))]
    case Grab(t) => s[t := Caller(c.held + [c.wants.value], None)]
    case Release(t) => s[t := Caller(c.held[..|c.held| - 1], None)]
  }

  function After(p: Pauses, s: Callers, moves: seq<Move>): Option<Callers>
    decreases |moves|
  {
    if moves == [] then Some(s)
    else if CanMove(p, s, moves[0]) then After(p, Do(p, s, moves[0]), moves[1..])
    else None
  }

  predicate Idle(s: Callers) {
    forall t :: t in s ==> s[t] == Caller([], None)
  }

  ghost predicate Reachable(p: Pauses, s: Callers) {
    exists start, moves :: Idle(start) && After(p, start, moves) == Some(s)
  }

  /** The thread waits for a gate that a thread of d holds. */
  ghost predicate Blocked(s: Callers, d: set<ThreadId>, t: ThreadId)
    requires d <= s.Keys && t in s
  {
    s[t].wants.Some? && exists u :: u in d && s[t].wants.value in s[u].held
  }

  /** Threads that wait for each other, and for nobody else. */
  ghost predicate Deadlock(s: Callers, d: set<ThreadId>) {
    d != {} && d <= s.Keys && forall t :: t in d ==> Blocked(s, d, t)
  }

  lemma Blocker(s: Callers, d: set<ThreadId>, t: ThreadId) returns (u: ThreadId)
    requires d <= s.Keys && t in s && Blocked(s, d, t)
    ensures s[t].wants.Some? && u in d && s[t].wants.value in s[u].held
  {
    u :| u in d && s[t].wants.value in s[u].held;
  }

  lemma BlockedBy(s: Callers, d: set<ThreadId>, t: ThreadId, u: ThreadId)
    requires d <= s.Keys && t in s && s[t].wants.Some? && u in d && s[t].wants.value in s[u].held
    ensures Blocked(s, d, t)
  {
  }

  /** A deadlock is for ever. */
  lemma DeadlockStays(p: Pauses, s: Callers, d: set<ThreadId>, m: Move)
    requires Deadlock(s, d) && CanMove(p, s, m)
    ensures m.t !in d && Deadlock(Do(p, s, m), d)
  {
    hide Blocked;
    var s' := Do(p, s, m);
    if m.t in d { var u := Blocker(s, d, m.t); }
    forall t | t in d ensures Blocked(s', d, t) {
      var u := Blocker(s, d, t);
      assert s'[t] == s[t] && s'[u] == s[u];
      BlockedBy(s', d, t, u);
    }
  }

  // ----- chains of sinks -----

  predicate Chain(p: Pauses, path: seq<JobId>) {
    forall i :: 0 <= i < |path| - 1 ==> p(path[i], path[i + 1])
  }

  predicate Leads(p: Pauses, path: seq<JobId>, a: JobId, b: JobId) {
    |path| >= 2 && path[0] == a && path[|path| - 1] == b && Chain(p, path)
  }

  /** A sink of a may pause a job whose sink may pause a job, and so on up to b. */
  ghost predicate Reach(p: Pauses, a: JobId, b: JobId) {
    exists path :: Leads(p, path, a, b)
  }

  lemma ReachTrans(p: Pauses, a: JobId, b: JobId, c: JobId)
    requires Reach(p, a, b) && Reach(p, b, c)
    ensures Reach(p, a, c)
  {
    var x :| Leads(p, x, a, b);
    var y :| Leads(p, y, b, c);
    var path := x + y[1..];
    forall i | 0 <= i < |path| - 1 ensures p(path[i], path[i + 1]) {
      if i < |x| - 1 {
        assert p(x[i], x[i + 1]);
      } else {
        assert path[i] == y[i - |x| + 1] && path[i + 1] == y[i - |x| + 2];
      }
    }
    assert Leads(p, path, a, c);
  }

  /** x leads to something in w. */
  ghost predicate Onward(p: Pauses, w: set<JobId>, x: JobId) {
    exists y :: y in w && Reach(p, x, y)
  }

  lemma OnwardTo(p: Pauses, w: set<JobId>, x: JobId) returns (y: JobId)
    requires Onward(p, w, x)
    ensures y in w && Reach(p, x, y)
  {
    y :| y in w && Reach(p, x, y);
  }

  /** If everything in a finite set leads to something in it, something leads to itself. */
  lemma {:induction false} CycleIn(p: Pauses, w: set<JobId>) returns (a: JobId)
    requires w != {} && forall x :: x in w ==> Onward(p, w, x)
    ensures Reach(p, a, a)
    decreases |w|
  {
    hide Reach, Onward;
    var x :| x in w;
    var y := OnwardTo(p, w, x);
    if y == x {
      a := x;
    } else {
      var rest := w - {x};
      forall z | z in rest ensures Onward(p, rest, z) {
        var v := OnwardTo(p, w, z);
        if v == x {
          ReachTrans(p, z, x, y);
          OnwardBy(p, rest, z, y);
        } else {
          OnwardBy(p, rest, z, v);
        }
      }
      assert y in rest;
      a := CycleIn(p, rest);
    }
  }

  lemma OnwardBy(p: Pauses, w: set<JobId>, x: JobId, y: JobId)
    requires y in w && Reach(p, x, y)
    ensures Onward(p, w, x)
  {
  }

  lemma ChainPart(p: Pauses, path: seq<JobId>, i: nat, k: nat)
    requires Chain(p, path) && i <= k <= |path|
    ensures Chain(p, path[i..k])
  {
    forall m | 0 <= m < k - i - 1 ensures p(path[i..k][m], path[i..k][m + 1]) {
      assert p(path[i + m], path[i + m + 1]);
    }
  }

  // ----- without cycles nobody is stuck -----

  /** What a thread holds and wants follows the calls of the sinks. */
  predicate Nested(p: Pauses, c: Caller) {
    Chain(p, if c.wants.Some? then c.held + [c.wants.value] else c.held)
  }

  predicate AllNested(p: Pauses, s: Callers) {
    forall t :: t in s ==> Nested(p, s[t])
  }

  lemma NestedStep(p: Pauses, s: Callers, m: Move)
    requires AllNested(p, s) && CanMove(p, s, m)
    ensures AllNested(p, Do(p, s, m))
  {
    var c := s[m.t];
    assert Nested(p, c);
    forall t | t in s ensures Nested(p, Do(p, s, m)[t]) {
      assert Nested(p, s[t]);
    }
  }

  lemma {:induction false} NestedAlways(p: Pauses, s: Callers, moves: seq<Move>)
    requires AllNested(p, s) && After(p, s, moves).Some?
    ensures AllNested(p, After(p, s, moves).value)
    decreases |moves|
  {
    hide AllNested, CanMove, Do;
    if moves != [] {
      NestedStep(p, s, moves[0]);
      NestedAlways(p, Do(p, s, moves[0]), moves[1..]);
    }
  }

  /** A thread leads from each gate it holds to the one it wants. */
  lemma HeldLeads(p: Pauses, c: Caller, x: JobId)
    requires Nested(p, c) && c.wants.Some? && x in c.held
    ensures Reach(p, x, c.wants.value)
  {
    var i :| 0 <= i < |c.held| && c.held[i] == x;
    var all := c.held + [c.wants.value];
    ChainPart(p, all, i, |all|);
    assert Leads(p, all[i..|all|], x, c.wants.value);
  }

  lemma DeadlockNeedsCycle(p: Pauses, s: Callers, d: set<ThreadId>) returns (a: JobId)
    requires AllNested(p, s) && Deadlock(s, d)
    ensures Reach(p, a, a)
  {
    hide Reach, Nested, Blocked, Onward;
    forall t | t in d ensures s[t].wants.Some? { var u := Blocker(s, d, t); }
    var w := set t | t in d :: s[t].wants.value;
    forall x | x in w ensures Onward(p, w, x) {
      var t :| t in d && s[t].wants.value == x;
      var u := Blocker(s, d, t);
      HeldLeads(p, s[u], x);
      OnwardBy(p, w, x, s[u].wants.value);
    }
    var t :| t in d;
    assert s[t].wants.value in w;
    a := CycleIn(p, w);
  }

  predicate Moves(p: Pauses, s: Callers, u: ThreadId) {
    CanMove(p, s, Grab(u)) || CanMove(p, s, Move.Release(u))
  }

  lemma NobodyMoves(p: Pauses, s: Callers, t: ThreadId) returns (d: set<ThreadId>)
    requires t in s && s[t].wants.Some? && forall u :: u in s ==> !Moves(p, s, u)
    ensures Deadlock(s, d)
  {
    hide Blocked;
    d := set u | u in s && s[u].wants.Some?;
    forall u | u in d ensures Blocked(s, d, u) {
      assert !Moves(p, s, u);
      var v :| v in s && s[u].wants.value in s[v].held;
      assert !Moves(p, s, v);
      BlockedBy(s, d, u, v);
    }
    assert t in d;
  }

  /** Without a deadlock, whenever a thread waits, some thread can take its gate or leave one. */
  lemma SomebodyMoves(p: Pauses, s: Callers, t: ThreadId)
    requires t in s && s[t].wants.Some? && forall d :: !Deadlock(s, d)
    ensures exists u :: u in s && Moves(p, s, u)
  {
    hide Deadlock, Moves;
    if forall u :: u in s ==> !Moves(p, s, u) {
      var d := NobodyMoves(p, s, t);
    }
  }

  // ----- a cycle makes a deadlock -----

  predicate Simple(path: seq<JobId>) {
    forall i, k :: 0 <= i < k < |path| - 1 ==> path[i] != path[k]
  }

  /** Every cycle contains one that meets no job twice. */
  lemma {:induction false} SimpleCycle(p: Pauses, path: seq<JobId>, a: JobId) returns (short: seq<JobId>)
    requires Leads(p, path, a, a)
    ensures |short| >= 2 && short[0] == short[|short| - 1] && Chain(p, short) && Simple(short)
    decreases |path|
  {
    if Simple(path) {
      short := path;
    } else {
      var i, k :| 0 <= i < k < |path| - 1 && path[i] == path[k];
      var part := path[i..k + 1];
      ChainPart(p, path, i, k + 1);
      short := SimpleCycle(p, part, path[i]);
    }
  }

  lemma {:induction false} AfterAppend(p: Pauses, s: Callers, a: seq<Move>, b: seq<Move>)
    ensures After(p, s, a + b) == match After(p, s, a) case None => None case Some(m) => After(p, m, b)
    decreases |a|
  {
    hide CanMove, Do;
    if a == [] {
      assert a + b == b;
    } else {
      assert (a + b)[1..] == a[1..] + b;
      if CanMove(p, s, a[0]) { AfterAppend(p, Do(p, s, a[0]), a[1..], b); }
    }
  }

  lemma AfterOne(p: Pauses, s: Callers, m: Move)
    requires CanMove(p, s, m)
    ensures After(p, s, [m]) == Some(Do(p, s, m))
  {
    hide CanMove, Do;
    assert [m][1..] == [];
  }

  /** One thread for each job of the cycle; the first k hold their job's gate, the first m of them
      want the next one. */
  function Ring(path: seq<JobId>, k: nat, m: nat): Callers
    requires m <= k < |path|
  {
    map t: ThreadId | 0 <= t < |path| - 1 ::
      if t < m then Caller([path[t]], Some(path[t + 1])) else if t < k then Caller([path[t]], None) else Caller([], None)
  }

  /** Each thread takes the gate of its own job. */
  lemma TakeOwn(p: Pauses, path: seq<JobId>, k: nat) returns (moves: seq<Move>)
    requires k + 1 < |path| && Simple(path)
    ensures After(p, Ring(path, k, 0), moves) == Some(Ring(path, k + 1, 0))
  {
    var s, c, g := Ring(path, k, 0), Call(k, path[k]), Grab(k);
    assert CanMove(p, s, c);
    var s1 := Do(p, s, c);
    assert Free(s1, path[k]);
    assert CanMove(p, s1, g);
    assert [] + [path[k]] == [path[k]];
    assert Do(p, s1, g) == Ring(path, k + 1, 0);
    hide CanMove, Do;
    AfterOne(p, s, c);
    AfterOne(p, s1, g);
    AfterAppend(p, s, [c], [g]);
    moves := [c] + [g];
  }

  /** Each sink pauses the next job. */
  lemma WantNext(p: Pauses, path: seq<JobId>, m: nat) returns (moves: seq<Move>)
    requires m + 1 < |path| && Chain(p, path)
    ensures After(p, Ring(path, |path| - 1, m), moves) == Some(Ring(path, |path| - 1, m + 1))
  {
    var s, n := Ring(path, |path| - 1, m), Nest(m, path[m + 1]);
    assert p(path[m], path[m + 1]);
    assert CanMove(p, s, n);
    assert Do(p, s, n) == Ring(path, |path| - 1, m + 1);
    hide CanMove, Do;
    AfterOne(p, s, n);
    moves := [n];
  }

  lemma CycleDeadlocks(p: Pauses, path: seq<JobId>) returns (s: Callers, d: set<ThreadId>)
    requires |path| >= 2 && path[0] == path[|path| - 1] && Chain(p, path) && Simple(path)
    ensures Reachable(p, s) && Deadlock(s, d)
  {
    hide After, Chain, Simple;
    var start, n := Ring(path, 0, 0), |path| - 1;
    var moves: seq<Move> := [];
    assert After(p, start, []) == Some(start) by { AfterNothing(p, start); }
    for k := 0 to n
      invariant After(p, start, moves) == Some(Ring(path, k, 0))
    {
      var more := TakeOwn(p, path, k);
      AfterAppend(p, start, moves, more);
      moves := moves + more;
    }
    for m := 0 to n
      invariant After(p, start, moves) == Some(Ring(path, n, m))
    {
      var more := WantNext(p, path, m);
      AfterAppend(p, start, moves, more);
      moves := moves + more;
    }
    s, d := Ring(path, n, n), Ring(path, n, n).Keys;
    RingLocked(path);
    assert Idle(start);
  }

  lemma AfterNothing(p: Pauses, s: Callers)
    ensures After(p, s, []) == Some(s)
  {
  }

  lemma RingLocked(path: seq<JobId>)
    requires |path| >= 2 && path[0] == path[|path| - 1]
    ensures Deadlock(Ring(path, |path| - 1, |path| - 1), Ring(path, |path| - 1, |path| - 1).Keys)
  {
    var n := |path| - 1;
    var s := Ring(path, n, n);
    hide Blocked;
    assert 0 in s;
    forall t | t in s ensures Blocked(s, s.Keys, t) {
      var u: ThreadId := if t + 1 < n then t + 1 else 0;
      assert s[u].held == [path[u]] && path[u] == path[t + 1];
      BlockedBy(s, s.Keys, t, u);
    }
  }

  /** Sinks may pause and resume other jobs without danger exactly if no chain of sinks leads from
      a job back to itself; a sink that pauses its own job is the shortest such chain. */
  lemma DeadlockIff(p: Pauses)
    ensures (exists s, d :: Reachable(p, s) && Deadlock(s, d)) <==> exists a :: Reach(p, a, a)
  {
    hide Reach, Deadlock, Reachable;
    if s, d :| Reachable(p, s) && Deadlock(s, d) {
      ReachableNested(p, s);
      var a := DeadlockNeedsCycle(p, s, d);
    }
    if a :| Reach(p, a, a) {
      var s, d := CycleReachesDeadlock(p, a);
    }
  }

  lemma ReachableNested(p: Pauses, s: Callers)
    requires Reachable(p, s)
    ensures AllNested(p, s)
  {
    var start, moves :| Idle(start) && After(p, start, moves) == Some(s);
    assert AllNested(p, start);
    NestedAlways(p, start, moves);
  }

  lemma CycleReachesDeadlock(p: Pauses, a: JobId) returns (s: Callers, d: set<ThreadId>)
    requires Reach(p, a, a)
    ensures Reachable(p, s) && Deadlock(s, d)
  {
    hide Deadlock, Reachable;
    var path :| Leads(p, path, a, a);
    var short := SimpleCycle(p, path, a);
    s, d := CycleDeadlocks(p, short);
  }
}
