/** Small vocabulary shared by every module of the project. */
module Basics {

  datatype Option<+T> = None | Some(value: T)

  datatype Result<+T, +E> = Success(value: T) | Failure(error: E)

  /** A set that injects into another one is no larger. */
  lemma {:induction false} InjectionSize<A, B>(a: set<A>, b: set<B>, f: map<A, B>)
    requires f.Keys == a
    requires forall x | x in a :: f[x] in b
    requires forall x, y | x in a && y in a && x != y :: f[x] != f[y]
    ensures |a| <= |b|
  {
    if a != {} {
      var x :| x in a;
      var f' := map y | y in a && y != x :: f[y];
      InjectionSize(a - {x}, b - {f[x]}, f');
    }
  }

  lemma {:induction false} SubsetSize<A>(a: set<A>, b: set<A>)
    requires a <= b
    ensures |a| <= |b|
  {
    InjectionSize(a, b, map x | x in a :: x);
  }

  /** `kept` are newest: nothing outside has a later time than anything inside. */
  ghost predicate Newest<A(!new)>(all: set<A>, kept: set<A>, time: map<A, nat>) {
    && kept <= all <= time.Keys
    && forall k, d :: k in kept && d in all && d !in kept ==> time[d] <= time[k]
  }

  lemma {:induction false} LatestExists<A(!new)>(s: set<A>, time: map<A, nat>) returns (x: A)
    requires s != {} && s <= time.Keys
    ensures x in s && forall y :: y in s ==> time[y] <= time[x]
  {
    x :| x in s;
    if s != {x} {
      var y := LatestExists(s - {x}, time);
      if time[x] < time[y] { x := y; }
    }
  }

  /** Any number of newest elements can be chosen. */
  lemma {:induction false} NewestExists<A(!new)>(all: set<A>, count: nat, time: map<A, nat>) returns (kept: set<A>)
    requires count <= |all| && all <= time.Keys
    ensures Newest(all, kept, time) && |kept| == count
  {
    if count == 0 {
      kept := {};
    } else {
      var less := NewestExists(all, count - 1, time);
      assert all - less != {} by {
        if forall y :: y in all ==> y in less {
          SubsetSize(all, less);
          assert false;
        }
        var y :| y in all && y !in less;
        assert y in all - less;
      }
      var x := LatestExists(all - less, time);
      kept := less + {x};
    }
  }

  lemma {:induction false} ElementsOfDistinct<A>(q: seq<A>)
    requires forall i, k :: 0 <= i < k < |q| ==> q[i] != q[k]
    ensures |(set x | x in q)| == |q|
  {
    if q != [] {
      var init, last := q[..|q| - 1], q[|q| - 1];
      ElementsOfDistinct(init);
      assert (set x | x in q) == (set x | x in init) + {last};
    }
  }
}
