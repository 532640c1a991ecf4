/** Jobs in the order of a time stamp: sorting, and cutting off the oldest. */
module TimeOrder {
  import opened JobEvents

  datatype Stamp = Stamp(id: JobId, at: Time)

  predicate SortedByTime(q: seq<Stamp>) {
    forall i, k :: 0 <= i < k < |q| ==> q[i].at <= q[k].at
  }

  lemma InsertKeepsOrder(q: seq<Stamp>, at: nat, x: Stamp)
    requires SortedByTime(q) && at <= |q|
    requires forall i :: 0 <= i < at ==> q[i].at <= x.at
    requires forall i :: at <= i < |q| ==> x.at <= q[i].at
    ensures SortedByTime(q[..at] + [x] + q[at..])
    ensures multiset(q[..at] + [x] + q[at..]) == multiset(q) + multiset{x}
  {
    assert q == q[..at] + q[at..];
  }

  /** `sort_by_key` on the time stamps. */
  method SortByTime(items: seq<Stamp>) returns (sorted: seq<Stamp>)
    ensures SortedByTime(sorted)
    ensures multiset(sorted) == multiset(items)
  {
    sorted := [];
    for i := 0 to |items|
      invariant SortedByTime(sorted)
      invariant multiset(sorted) == multiset(items[..i])
    {
      var x, k := items[i], |sorted|;
      while k > 0 && sorted[k - 1].at > x.at
        invariant 0 <= k <= |sorted|
        invariant forall m :: k <= m < |sorted| ==> x.at <= sorted[m].at
      {
        k := k - 1;
      }
      InsertKeepsOrder(sorted, k, x);
      sorted := sorted[..k] + [x] + sorted[k..];
      assert items[..i + 1] == items[..i] + [items[i]];
    }
    assert items[..|items|] == items;
  }

  /** The ids of a list of stamps. */
  function Ids(q: seq<Stamp>): set<JobId> {
    set k | 0 <= k < |q| :: q[k].id
  }

  predicate DistinctIds(q: seq<Stamp>) {
    forall i, k :: 0 <= i < k < |q| ==> q[i].id != q[k].id
  }

  lemma {:induction false} IdCount(q: seq<Stamp>)
    requires DistinctIds(q)
    ensures |Ids(q)| == |q|
  {
    if q != [] {
      var init, last := q[..|q| - 1], q[|q| - 1];
      IdCount(init);
      assert forall x :: x in Ids(q) <==> x in Ids(init) || x == last.id by {
        assert q == init + [last];
        forall x | x in Ids(init) ensures x in Ids(q) {
          var k :| 0 <= k < |init| && init[k].id == x;
          assert q[k].id == x;
        }
      }
      assert Ids(q) == Ids(init) + {last.id};
    }
  }

  lemma {:induction false} CountTwice(q: seq<Stamp>, x: Stamp, i: nat, k: nat)
    requires i < k < |q| && q[i] == x && q[k] == x
    ensures multiset(q)[x] >= 2
  {
    assert q == q[..k] + q[k..];
    assert x in q[..k] && x in q[k..];
  }

  /** Sorting keeps ids distinct, provided the stamps are those of a map. */
  lemma SortedIds(q: seq<Stamp>, sorted: seq<Stamp>, time: map<JobId, Time>)
    requires DistinctIds(q) && multiset(sorted) == multiset(q)
    requires forall k :: 0 <= k < |q| ==> q[k].id in time && q[k].at == time[q[k].id]
    ensures DistinctIds(sorted) && Ids(sorted) == Ids(q) && |sorted| == |q|
    ensures forall k :: 0 <= k < |sorted| ==> sorted[k].id in time && sorted[k].at == time[sorted[k].id]
  {
    forall x ensures x in q <==> x in sorted {
      assert x in multiset(q) <==> x in multiset(sorted);
    }
    forall k | 0 <= k < |sorted| ensures sorted[k].id in time && sorted[k].at == time[sorted[k].id] {
      assert sorted[k] in q;
    }
    forall i, k | 0 <= i < k < |sorted| ensures sorted[i].id != sorted[k].id {
      if sorted[i].id == sorted[k].id {
        assert sorted[i] == sorted[k];
        CountTwice(sorted, sorted[i], i, k);
        OnceInDistinct(q, sorted[i]);
      }
    }
    assert |multiset(q)| == |q| && |multiset(sorted)| == |sorted|;
    forall x ensures x in Ids(q) <==> x in Ids(sorted) {
      if x in Ids(q) {
        var k :| 0 <= k < |q| && q[k].id == x;
        assert q[k] in sorted;
      }
      if x in Ids(sorted) {
        var k :| 0 <= k < |sorted| && sorted[k].id == x;
        assert sorted[k] in q;
      }
    }
  }

  lemma {:induction false} OnceInDistinct(q: seq<Stamp>, x: Stamp)
    requires DistinctIds(q)
    ensures multiset(q)[x] <= 1
  {
    if q != [] {
      var init, last := q[..|q| - 1], q[|q| - 1];
      OnceInDistinct(init, x);
      assert q == init + [last];
      assert forall i :: 0 <= i < |init| ==> init[i] == q[i] && q[i].id != last.id;
    }
  }

  lemma AppendIds(q: seq<Stamp>, x: Stamp)
    ensures Ids(q + [x]) == Ids(q) + {x.id}
  {
    var more := q + [x];
    forall y ensures y in Ids(more) <==> y in Ids(q) + {x.id} {
      if y in Ids(q) {
        var k :| 0 <= k < |q| && q[k].id == y;
        assert more[k].id == y;
      }
      if y == x.id { assert more[|q|].id == y; }
    }
  }

  lemma FrontIds(q: seq<Stamp>, cut: nat)
    requires DistinctIds(q) && cut <= |q|
    ensures Ids(q[..cut]) <= Ids(q)
    ensures |Ids(q[..cut])| == cut && |Ids(q) - Ids(q[..cut])| == |q| - cut
    ensures forall m :: 0 <= m < cut ==> q[m].id in Ids(q[..cut])
  {
    var front, all := Ids(q[..cut]), Ids(q);
    forall m | 0 <= m < cut ensures q[m].id in front {
      assert q[..cut][m] == q[m];
    }
    forall x | x in front ensures x in all {
      var k :| 0 <= k < cut && q[..cut][k].id == x;
      assert q[k].id in all;
    }
    IdCount(q);
    IdCount(q[..cut]);
    assert |all - front| == |all| - |front|;
  }

  /** Sorted by time, the front is the old part: none of its ids is later than an id behind it. */
  lemma CutByAge(sorted: seq<Stamp>, cut: nat, time: map<JobId, Time>)
    requires DistinctIds(sorted) && SortedByTime(sorted) && cut <= |sorted|
    requires forall k :: 0 <= k < |sorted| ==> sorted[k].id in time && sorted[k].at == time[sorted[k].id]
    ensures |Ids(sorted[..cut])| == cut && |Ids(sorted) - Ids(sorted[..cut])| == |sorted| - cut
    ensures Ids(sorted[..cut]) <= Ids(sorted)
    ensures forall p, k :: p in Ids(sorted[..cut]) && k in Ids(sorted) && k !in Ids(sorted[..cut]) ==>
      p in time && k in time && time[p] <= time[k]
  {
    var front, all := Ids(sorted[..cut]), Ids(sorted);
    FrontIds(sorted, cut);
    forall p, k | p in front && k in all && k !in front ensures p in time && k in time && time[p] <= time[k] {
      var i :| 0 <= i < cut && sorted[..cut][i].id == p;
      var m :| 0 <= m < |sorted| && sorted[m].id == k;
      assert sorted[i].at <= sorted[m].at;
    }
  }
}
