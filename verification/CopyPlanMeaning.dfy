/** What a copy plan contains, in which order, and where the three plans differ. */
module CopyPlanMeaning {
  import opened Basics
  import opened RemotePaths
  import opened CopyPlan

  /** The names lead from the top t to the node. */
  ghost predicate IsAt(t: Tree, names: seq<string>, node: Tree)
    decreases |names|
  {
    if names == [] then node == t
    else t.Dir? && exists i :: 0 <= i < |t.children| && t.children[i].name == names[0] && IsAt(t.children[i].tree, names[1..], node)
  }

  // ----- what is in a plan -----

  lemma {:induction false} InCopiesIn(mode: Mode, children: seq<Child>, c: Copy)
    ensures c in CopiesIn(mode, children) <==>
      exists i :: 0 <= i < |children| && c in Under(children[i].name, CopiesOf(mode, children[i].tree))
  {
    hide CopiesOf, Under;
    if children != [] {
      var n := |children| - 1;
      InCopiesIn(mode, children[..n], c);
      assert forall i :: 0 <= i < n ==> children[..n][i] == children[i];
      if i :| 0 <= i < |children| && c in Under(children[i].name, CopiesOf(mode, children[i].tree)) && i < n {
        assert c in Under(children[..n][i].name, CopiesOf(mode, children[..n][i].tree));
      }
    }
  }

  lemma InUnder(name: string, copies: seq<Copy>, c: Copy)
    ensures c in Under(name, copies) <==> c.names != [] && c.names[0] == name && Copy(c.names[1..], c.node) in copies
  {
    if c.names != [] && c.names[0] == name && Copy(c.names[1..], c.node) in copies {
      var k :| 0 <= k < |copies| && copies[k] == Copy(c.names[1..], c.node);
      assert Under(name, copies)[k] == Copy([name] + c.names[1..], c.node);
      assert [name] + c.names[1..] == c.names;
    }
    if c in Under(name, copies) {
      var k :| 0 <= k < |copies| && Under(name, copies)[k] == c;
      assert c.names[1..] == copies[k].names;
      assert Copy(c.names[1..], c.node) == copies[k];
    }
  }

  /** Below the top: exactly the selected nodes. */
  lemma {:induction false} InCopiesOf(mode: Mode, t: Tree, c: Copy)
    ensures c in CopiesOf(mode, t) <==> IsAt(t, c.names, c.node) && Selected(mode, c.node)
    ensures c in Contained(mode, t) <==> c.names != [] && IsAt(t, c.names, c.node) && Selected(mode, c.node)
    decreases t
  {
    hide Selected, Under, CopiesIn;
    if t.Dir? {
      InCopiesIn(mode, t.children, c);
      forall i | 0 <= i < |t.children|
        ensures c in Under(t.children[i].name, CopiesOf(mode, t.children[i].tree)) <==>
          c.names != [] && t.children[i].name == c.names[0] && IsAt(t.children[i].tree, c.names[1..], c.node) && Selected(mode, c.node)
      {
        var child := t.children[i];
        InUnder(child.name, CopiesOf(mode, child.tree), c);
        if c.names != [] { InCopiesOf(mode, child.tree, Copy(c.names[1..], c.node)); }
      }
    }
  }

  /** A plan holds the top and exactly the selected nodes below it. */
  lemma PlanHolds(mode: Mode, t: Tree, c: Copy)
    ensures c in Copies(mode, t) <==> IsAt(t, c.names, c.node) && (c.names == [] || Selected(mode, c.node))
  {
    hide Selected;
    InCopiesOf(mode, t, c);
  }

  // ----- each once, and parents first -----

  /** Nothing is listed again, or after something below it. */
  predicate Ordered(copies: seq<Copy>) {
    forall i, k :: 0 <= i < k < |copies| ==> !(copies[k].names <= copies[i].names)
  }

  lemma PrefixUnder(name: string, a: seq<string>, b: seq<string>)
    ensures [name] + a <= [name] + b ==> a <= b
  {
    assert ([name] + a)[1..] == a && ([name] + b)[1..] == b;
  }

  lemma UnderOrdered(name: string, copies: seq<Copy>)
    requires Ordered(copies)
    ensures Ordered(Under(name, copies))
  {
    var u := Under(name, copies);
    forall i, k | 0 <= i < k < |u| ensures !(u[k].names <= u[i].names) {
      PrefixUnder(name, copies[k].names, copies[i].names);
    }
  }

  lemma {:induction false} CopiesInOrdered(mode: Mode, children: seq<Child>)
    requires forall i :: 0 <= i < |children| ==> Ordered(CopiesOf(mode, children[i].tree))
    requires forall i, k :: 0 <= i < k < |children| ==> children[i].name != children[k].name
    ensures Ordered(CopiesIn(mode, children))
    ensures forall m :: 0 <= m < |CopiesIn(mode, children)| ==> FirstNameIn(CopiesIn(mode, children)[m], children)
  {
    hide CopiesOf;
    if children != [] {
      var n := |children| - 1;
      var init, last := children[..n], children[n];
      CopiesInOrdered(mode, init);
      UnderOrdered(last.name, CopiesOf(mode, last.tree));
      var a: seq<Copy>, b: seq<Copy> := CopiesIn(mode, init), Under(last.name, CopiesOf(mode, last.tree));
      forall i, k | 0 <= i < k < |a + b| ensures !((a + b)[k].names <= (a + b)[i].names) {
        if i < |a| <= k {
          assert FirstNameIn(a[i], init);
          assert (a + b)[k] == b[k - |a|];
        } else if |a| <= i {
          assert (a + b)[k] == b[k - |a|] && (a + b)[i] == b[i - |a|];
        }
      }
      forall m | 0 <= m < |a + b| ensures FirstNameIn((a + b)[m], children) {
        if m < |a| {
          assert FirstNameIn(a[m], init);
          var i :| 0 <= i < |init| && init[i].name == a[m].names[0];
          assert children[i].name == a[m].names[0];
        } else {
          assert (a + b)[m] == b[m - |a|];
        }
      }
    }
  }

  predicate FirstNameIn(c: Copy, children: seq<Child>) {
    c.names != [] && exists i :: 0 <= i < |children| && children[i].name == c.names[0]
  }

  lemma {:induction false} NodesOrdered(mode: Mode, t: Tree)
    requires WellNamed(t)
    ensures Ordered(CopiesOf(mode, t)) && Ordered(Copies(mode, t))
    decreases t
  {
    hide Selected, CopiesIn;
    if t.Dir? {
      forall i | 0 <= i < |t.children| ensures Ordered(CopiesOf(mode, t.children[i].tree)) {
        NodesOrdered(mode, t.children[i].tree);
      }
      CopiesInOrdered(mode, t.children);
    }
  }

  lemma {:induction false} NamesProper(t: Tree, names: seq<string>, node: Tree)
    requires WellNamed(t) && IsAt(t, names, node)
    ensures Names(names)
    decreases |names|
  {
    if names != [] {
      var i :| 0 <= i < |t.children| && t.children[i].name == names[0] && IsAt(t.children[i].tree, names[1..], node);
      NamesProper(t.children[i].tree, names[1..], node);
      forall k | 0 <= k < |names| ensures Name(names[k]) { if k > 0 { assert names[k] == names[1..][k - 1]; } }
    }
  }

  /** Below the top, within a provider everything but special nodes is copied, to the local file
      system everything, and to a provider from there regular files only. */
  predicate Belongs(mode: Mode, names: seq<string>, node: Tree) {
    || names == []
    || (mode.ProviderMode? && !node.Special?)
    || mode.ToLocalMode?
    || (mode.ToRemoteMode? && node.File?)
  }

  /** The item copies the node at the names: from the source to the destination, each followed by
      the names with slashes between them. */
  predicate Plans(item: Item, names: seq<string>, node: Tree, source: string, destination: string) {
    && (names == [] ==> item.source == source && item.destination == destination)
    && (names != [] ==> item.source == Stem(source) + Tail(names) && item.destination == Stem(destination) + Tail(names))
    && (item.isDir <==> node.Dir? || node.Unlistable?)
    && item.size == (match node case File(size) => size case Special(size) => size case _ => None)
  }

  /** The main result: every plan lists the top and each node below it that belongs to it exactly
      once, with the source and the destination at the same relative path; all destinations are
      different, and nothing comes before a directory it lies in. */
  lemma PlanIsExact(mode: Mode, t: Tree, source: string, destination: string)
    requires WellNamed(t)
    ensures var copies, items := Copies(mode, t), ItemsOf(Copies(mode, t), source, destination);
      && (forall names, node :: Copy(names, node) in copies <==> IsAt(t, names, node) && Belongs(mode, names, node))
      && Ordered(copies)
      && |items| == |copies|
      && (forall k :: 0 <= k < |items| ==> Plans(items[k], copies[k].names, copies[k].node, source, destination))
      && (forall i, k :: 0 <= i < k < |items| ==> items[i].destination != items[k].destination)
  {
    hide CopiesIn, Copies;
    var copies := Copies(mode, t);
    forall names, node ensures Copy(names, node) in copies <==> IsAt(t, names, node) && Belongs(mode, names, node) {
      PlanHolds(mode, t, Copy(names, node));
    }
    NodesOrdered(mode, t);
    forall k | 0 <= k < |copies|
      ensures Plans(ItemsOf(copies, source, destination)[k], copies[k].names, copies[k].node, source, destination)
    {
      var c := copies[k];
      PlanHolds(mode, t, c);
      NamesProper(t, c.names, c.node);
      if c.names != [] {
        JoinAllIsTail(source, c.names);
        JoinAllIsTail(destination, c.names);
      }
    }
    forall i, k | 0 <= i < k < |copies|
      ensures ItemsOf(copies, source, destination)[i].destination != ItemsOf(copies, source, destination)[k].destination
    {
      var a, b := copies[i], copies[k];
      PlanHolds(mode, t, a);
      PlanHolds(mode, t, b);
      NamesProper(t, a.names, a.node);
      NamesProper(t, b.names, b.node);
      assert !(b.names <= a.names);
      if JoinAll(destination, a.names) == JoinAll(destination, b.names) {
        JoinAllInjective(destination, a.names, b.names);
      }
    }
  }

  // ----- directories that a plan creates -----

  lemma {:induction false} ParentIsDir(t: Tree, names: seq<string>, node: Tree) returns (dir: Tree)
    requires IsAt(t, names, node) && names != []
    ensures IsAt(t, names[..|names| - 1], dir) && dir.Dir?
    decreases |names|
  {
    var n := |names| - 1;
    if n == 0 {
      dir := t;
    } else {
      var i :| 0 <= i < |t.children| && t.children[i].name == names[0] && IsAt(t.children[i].tree, names[1..], node);
      dir := ParentIsDir(t.children[i].tree, names[1..], node);
      assert names[..n][1..] == names[1..][..n - 1] && names[..n][0] == names[0];
    }
  }

  lemma {:induction false} UniqueAt(t: Tree, names: seq<string>, a: Tree, b: Tree)
    requires WellNamed(t) && IsAt(t, names, a) && IsAt(t, names, b)
    ensures a == b
    decreases |names|
  {
    if names != [] {
      var i :| 0 <= i < |t.children| && t.children[i].name == names[0] && IsAt(t.children[i].tree, names[1..], a);
      var k :| 0 <= k < |t.children| && t.children[k].name == names[0] && IsAt(t.children[k].tree, names[1..], b);
      assert i == k;
      UniqueAt(t.children[i].tree, names[1..], a, b);
    }
  }

  /** The plan creates the directory a node lies in: always when copying within a provider or to
      the local file system; from the local file system to a provider only for what lies directly
      in the top, since other directories never enter the plan. */
  lemma ParentPlannedIff(mode: Mode, t: Tree, c: Copy)
    requires WellNamed(t) && c in Copies(mode, t) && c.names != []
    ensures (exists dir :: Copy(c.names[..|c.names| - 1], dir) in Copies(mode, t) && dir.IsDir())
      <==> !mode.ToRemoteMode? || |c.names| == 1
  {
    PlanHolds(mode, t, c);
    var up := c.names[..|c.names| - 1];
    var dir := ParentIsDir(t, c.names, c.node);
    PlanHolds(mode, t, Copy(up, dir));
    forall d | Copy(up, d) in Copies(mode, t) ensures d == dir {
      PlanHolds(mode, t, Copy(up, d));
      UniqueAt(t, up, dir, d);
    }
    assert dir.IsDir();
    if up == [] || !mode.ToRemoteMode? {
      assert Copy(up, dir) in Copies(mode, t);
    } else {
      assert Copy(up, dir) !in Copies(mode, t);
    }
  }

  // ----- the same tree copied by two walks -----

  ghost predicate SpecialBelow(t: Tree) {
    exists names, node :: names != [] && IsAt(t, names, node) && node.Special?
  }

  lemma {:induction false} SameCopies(t: Tree)
    requires !SpecialBelow(t) && !t.Special?
    ensures CopiesOf(ProviderMode, t) == CopiesOf(ToLocalMode, t)
    decreases t
  {
    if t.Dir? { SameCopiesIn(t, |t.children|); }
  }

  lemma {:induction false} SameCopiesIn(t: Tree, n: nat)
    requires t.Dir? && !SpecialBelow(t) && n <= |t.children|
    ensures CopiesIn(ProviderMode, t.children[..n]) == CopiesIn(ToLocalMode, t.children[..n])
    ensures t.children[..|t.children|] == t.children
    decreases t, n
  {
    if n > 0 {
      var child := t.children[n - 1];
      assert t.children[..n][..n - 1] == t.children[..n - 1];
      SameCopiesIn(t, n - 1);
      forall names, node | IsAt(child.tree, names, node) ensures IsAt(t, [child.name] + names, node) {
        assert ([child.name] + names)[1..] == names;
      }
      assert IsAt(child.tree, [], child.tree);
      SameCopies(child.tree);
    }
  }

  /** Copying within a provider and copying to the local file system plan the same items exactly
      if there is nothing special below the top and the source path has a last name: only the
      first plan has a substitute for a missing name, and only the second plans special nodes. */
  lemma SamePlanIff(t: Tree, source: string, intoDir: string)
    requires WellNamed(t)
    ensures ItemsOf(Copies(ProviderMode, t), source, JoinRemote(intoDir, RemoteBasename(source, "source")))
         == ItemsOf(Copies(ToLocalMode, t), source, JoinRemote(intoDir, LastName(source)))
      <==> !SpecialBelow(t) && exists i :: 0 <= i < |source| && source[i] != '/'
  {
    hide CopiesIn, LastName, IsAt;
    var d1, d2 := JoinRemote(intoDir, RemoteBasename(source, "source")), JoinRemote(intoDir, LastName(source));
    var p, q := ItemsOf(Copies(ProviderMode, t), source, d1), ItemsOf(Copies(ToLocalMode, t), source, d2);
    LastNameEmpty(source);
    assert p[0].destination == d1 && q[0].destination == d2;
    if LastName(source) == "" { assert |d1| != |d2|; }
    if !SpecialBelow(t) && t.Dir? { SameCopiesIn(t, |t.children|); }
    if p == q && SpecialBelow(t) {
      var names, node :| names != [] && IsAt(t, names, node) && node.Special?;
      PlanHolds(ToLocalMode, t, Copy(names, node));
      var k :| 0 <= k < |q| && Copies(ToLocalMode, t)[k] == Copy(names, node);
      var c := Copies(ProviderMode, t)[k];
      PlanHolds(ProviderMode, t, c);
      NamesProper(t, names, node);
      NamesProper(t, c.names, c.node);
      assert p[k] == q[k];
      JoinAllInjective(source, names, c.names);
      UniqueAt(t, names, node, c.node);
    }
  }
}
