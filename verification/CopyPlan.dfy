/** The plans for copying a tree: within one provider, from a provider to the local file system,
    and from there to a provider. */
module CopyPlan {
  import opened Basics
  import opened RemotePaths

  /** What is found at a path. `Unlistable` is a directory whose listing fails; `Special` is
      neither a directory nor a regular file. */
  datatype Tree =
    | Dir(children: seq<Child>)
    | Unlistable(error: string)
    | File(size: Option<nat>)
    | Special(size: Option<nat>)
  {
    predicate IsDir() {
      Dir? || Unlistable?
    }

    function Size(): Option<nat> {
      if File? || Special? then this.size else None
    }
  }

  datatype Child = Child(name: string, tree: Tree)

  datatype Item = Item(source: string, destination: string, isDir: bool, size: Option<nat>)

  /** All directories can be listed. */
  predicate Listable(t: Tree) {
    !t.Unlistable? && (t.Dir? ==> forall i :: 0 <= i < |t.children| ==> Listable(t.children[i].tree))
  }

  /** Names are proper and different within a directory. */
  predicate WellNamed(t: Tree) {
    t.Dir? ==>
      && (forall i :: 0 <= i < |t.children| ==> Name(t.children[i].name) && WellNamed(t.children[i].tree))
      && (forall i, k :: 0 <= i < k < |t.children| ==> t.children[i].name != t.children[k].name)
  }

  // ----- which nodes are copied -----

  datatype Mode = ProviderMode | ToLocalMode | ToRemoteMode

  /** What each walk puts into the plan below the top. */
  predicate Selected(mode: Mode, t: Tree) {
    match mode
    case ProviderMode => !t.Special?
    case ToLocalMode => true
    case ToRemoteMode => t.File?
  }

  /** A copied node: the names that lead to it from the top, and what is there. */
  datatype Copy = Copy(names: seq<string>, node: Tree)

  function Under(name: string, copies: seq<Copy>): (r: seq<Copy>)
    ensures |r| == |copies|
    ensures forall k :: 0 <= k < |r| ==> r[k] == Copy([name] + copies[k].names, copies[k].node)
  {
    seq(|copies|, k requires 0 <= k < |copies| => Copy([name] + copies[k].names, copies[k].node))
  }

  function CopiesIn(mode: Mode, children: seq<Child>): seq<Copy>
    decreases children
  {
    if children == [] then []
    else
      var last := children[|children| - 1];
      CopiesIn(mode, children[..|children| - 1]) + Under(last.name, CopiesOf(mode, last.tree))
  }

  /** A node below the top: itself if it is selected, then what it contains. */
  function CopiesOf(mode: Mode, t: Tree): seq<Copy>
    decreases t
  {
    (if Selected(mode, t) then [Copy([], t)] else []) + Contained(mode, t)
  }

  function Contained(mode: Mode, t: Tree): seq<Copy>
    decreases t, 0
  {
    if t.Dir? then CopiesIn(mode, t.children) else []
  }

  /** A whole plan: the top always belongs to it. */
  function Copies(mode: Mode, t: Tree): seq<Copy> {
    [Copy([], t)] + Contained(mode, t)
  }

  function ItemOf(c: Copy, source: string, destination: string): Item {
    Item(JoinAll(source, c.names), JoinAll(destination, c.names), c.node.IsDir(), c.node.Size())
  }

  function ItemsOf(copies: seq<Copy>, source: string, destination: string): (r: seq<Item>)
    ensures |r| == |copies|
    ensures forall k :: 0 <= k < |r| ==> r[k] == ItemOf(copies[k], source, destination)
  {
    seq(|copies|, k requires 0 <= k < |copies| => ItemOf(copies[k], source, destination))
  }

  /** Planning below a name is planning with the name joined to both ends. */
  lemma ItemsUnder(name: string, copies: seq<Copy>, source: string, destination: string)
    ensures ItemsOf(Under(name, copies), source, destination) == ItemsOf(copies, JoinRemote(source, name), JoinRemote(destination, name))
  {
    forall k | 0 <= k < |copies|
      ensures ItemOf(Under(name, copies)[k], source, destination) == ItemOf(copies[k], JoinRemote(source, name), JoinRemote(destination, name))
    {
      assert ([name] + copies[k].names)[1..] == copies[k].names;
    }
  }

  lemma ItemsAppend(a: seq<Copy>, b: seq<Copy>, source: string, destination: string)
    ensures ItemsOf(a + b, source, destination) == ItemsOf(a, source, destination) + ItemsOf(b, source, destination)
  {
  }

  lemma CopiesInStep(mode: Mode, children: seq<Child>, i: nat)
    requires i < |children|
    ensures CopiesIn(mode, children[..i + 1]) == CopiesIn(mode, children[..i]) + Under(children[i].name, CopiesOf(mode, children[i].tree))
    ensures CopiesIn(mode, children[..0]) == []
  {
    assert children[..i + 1][..i] == children[..i];
  }

  /** The plan of a directory, child by child. */
  lemma PlanStep(mode: Mode, children: seq<Child>, i: nat, source: string, destination: string)
    requires i < |children|
    ensures ItemsOf(CopiesIn(mode, children[..i + 1]), source, destination) ==
      ItemsOf(CopiesIn(mode, children[..i]), source, destination)
      + ItemsOf(CopiesOf(mode, children[i].tree), JoinRemote(source, children[i].name), JoinRemote(destination, children[i].name))
  {
    hide CopiesIn, CopiesOf, Under, JoinRemote, ItemsOf;
    var child := children[i];
    CopiesInStep(mode, children, i);
    ItemsUnder(child.name, CopiesOf(mode, child.tree), source, destination);
    ItemsAppend(CopiesIn(mode, children[..i]), Under(child.name, CopiesOf(mode, child.tree)), source, destination);
  }

  lemma PlanStart(mode: Mode, children: seq<Child>, source: string, destination: string)
    ensures ItemsOf(CopiesIn(mode, children[..0]), source, destination) == []
    ensures children[..|children|] == children
  {
  }

  /** The plan of a node below the top. */
  lemma PlanNode(mode: Mode, t: Tree, source: string, destination: string)
    ensures mode.ToLocalMode? || (mode.ProviderMode? && t.IsDir()) ==> CopiesOf(mode, t) == Copies(mode, t)
    ensures mode.ToRemoteMode? && t.IsDir() ==> CopiesOf(mode, t) == Contained(mode, t)
    ensures !mode.ToLocalMode? && t.Special? ==> ItemsOf(CopiesOf(mode, t), source, destination) == []
    ensures t.File? ==> ItemsOf(CopiesOf(mode, t), source, destination) == [Item(source, destination, false, t.size)]
  {
  }

  /** The plan of the top. */
  lemma PlanTop(mode: Mode, t: Tree, source: string, destination: string)
    ensures t.Dir? ==>
      && ItemsOf(Copies(mode, t), source, destination)
         == [Item(source, destination, true, None)] + ItemsOf(CopiesIn(mode, t.children), source, destination)
    ensures !t.IsDir() ==> ItemsOf(Copies(mode, t), source, destination) == [Item(source, destination, false, t.Size())]
  {
    var top := ItemOf(Copy([], t), source, destination);
    assert top == Item(source, destination, t.IsDir(), t.Size());
    if t.Dir? { ItemsAppend([Copy([], t)], CopiesIn(mode, t.children), source, destination); }
  }

  // ----- destinations on the local file system -----

  /** The walk to the local file system takes each name from the end of the source path that it
      has just put together. */
  function LocalPath(source: string, into: string, names: seq<string>): string
    decreases |names|
  {
    var here := JoinRemote(into, LastName(source));
    if names == [] then here else LocalPath(JoinRemote(source, names[0]), here, names[1..])
  }

  function LocalItem(c: Copy, source: string, into: string): Item {
    Item(JoinAll(source, c.names), LocalPath(source, into, c.names), c.node.IsDir(), c.node.Size())
  }

  function LocalItems(copies: seq<Copy>, source: string, into: string): (r: seq<Item>)
    ensures |r| == |copies|
    ensures forall k :: 0 <= k < |r| ==> r[k] == LocalItem(copies[k], source, into)
  {
    seq(|copies|, k requires 0 <= k < |copies| => LocalItem(copies[k], source, into))
  }

  lemma LocalUnder(name: string, copies: seq<Copy>, source: string, into: string)
    ensures LocalItems(Under(name, copies), source, into)
         == LocalItems(copies, JoinRemote(source, name), JoinRemote(into, LastName(source)))
  {
    hide JoinRemote, LastName;
    forall k | 0 <= k < |copies|
      ensures LocalItem(Under(name, copies)[k], source, into)
           == LocalItem(copies[k], JoinRemote(source, name), JoinRemote(into, LastName(source)))
    {
      assert ([name] + copies[k].names)[1..] == copies[k].names;
    }
  }

  lemma LocalStep(children: seq<Child>, i: nat, source: string, into: string)
    requires i < |children|
    ensures LocalItems(CopiesIn(ToLocalMode, children[..i + 1]), source, into)
         == LocalItems(CopiesIn(ToLocalMode, children[..i]), source, into)
          + LocalItems(Copies(ToLocalMode, children[i].tree), JoinRemote(source, children[i].name), JoinRemote(into, LastName(source)))
  {
    hide CopiesIn, Under, JoinRemote, LastName, LocalItem;
    var child := children[i];
    CopiesInStep(ToLocalMode, children, i);
    LocalUnder(child.name, CopiesOf(ToLocalMode, child.tree), source, into);
    assert CopiesOf(ToLocalMode, child.tree) == Copies(ToLocalMode, child.tree);
  }

  lemma LocalStart(children: seq<Child>, source: string, into: string)
    ensures LocalItems(CopiesIn(ToLocalMode, children[..0]), source, into) == []
    ensures children[..|children|] == children
  {
  }

  lemma LocalTop(t: Tree, source: string, into: string)
    ensures t.Dir? ==>
      && LocalItems(Copies(ToLocalMode, t), source, into)
         == [Item(source, JoinRemote(into, LastName(source)), true, None)] + LocalItems(CopiesIn(ToLocalMode, t.children), source, into)
    ensures !t.IsDir() ==>
      LocalItems(Copies(ToLocalMode, t), source, into) == [Item(source, JoinRemote(into, LastName(source)), false, t.Size())]
  {
    hide JoinRemote, LastName;
    assert LocalItem(Copy([], t), source, into) == Item(source, JoinRemote(into, LastName(source)), t.IsDir(), t.Size());
  }

  /** For proper names that comes to joining the names, because taking the last name undoes the
      join. */
  lemma {:induction false} LocalPathJoins(source: string, into: string, names: seq<string>)
    requires Names(names)
    ensures LocalPath(source, into, names) == JoinAll(JoinRemote(into, LastName(source)), names)
    decreases |names|
  {
    hide JoinRemote, LastName;
    if names != [] {
      assert Name(names[0]);
      BasenameUndoesJoin(source, names[0], "");
      LocalPathJoins(JoinRemote(source, names[0]), JoinRemote(into, LastName(source)), names[1..]);
    }
  }

  predicate AllNamed(copies: seq<Copy>) {
    forall k :: 0 <= k < |copies| ==> Names(copies[k].names)
  }

  lemma {:induction false} CopiesNamed(mode: Mode, t: Tree)
    requires WellNamed(t)
    ensures AllNamed(Contained(mode, t)) && AllNamed(Copies(mode, t))
    decreases t
  {
    if t.Dir? {
      for i := 0 to |t.children|
        invariant AllNamed(CopiesIn(mode, t.children[..i]))
      {
        var child := t.children[i];
        CopiesInStep(mode, t.children, i);
        CopiesNamed(mode, child.tree);
        assert AllNamed(CopiesOf(mode, child.tree));
        UnderNamed(child.name, CopiesOf(mode, child.tree));
      }
      assert t.children[..|t.children|] == t.children;
    }
  }

  lemma UnderNamed(name: string, copies: seq<Copy>)
    requires Name(name) && AllNamed(copies)
    ensures AllNamed(Under(name, copies))
  {
    hide Name;
  }

  lemma LocalItemsJoined(t: Tree, source: string, into: string)
    requires WellNamed(t)
    ensures LocalItems(Copies(ToLocalMode, t), source, into)
         == ItemsOf(Copies(ToLocalMode, t), source, JoinRemote(into, LastName(source)))
  {
    hide Copies, WellNamed, JoinRemote, LastName;
    var copies := Copies(ToLocalMode, t);
    CopiesNamed(ToLocalMode, t);
    forall k | 0 <= k < |copies|
      ensures LocalItem(copies[k], source, into) == ItemOf(copies[k], source, JoinRemote(into, LastName(source)))
    {
      LocalPathJoins(source, into, copies[k].names);
    }
  }

  // ----- the walks -----

  class Planner {
    var items: seq<Item>

    constructor ()
      ensures items == []
    {
      items := [];
    }

    method Push(item: Item)
      modifies this
      ensures items == old(items) + [item]
    {
      items := items + [item];
    }

    /** Within a provider: special entries of a directory are passed over. */
    method WalkProvider(t: Tree, source: string, destination: string) returns (r: Result<(), string>)
      modifies this
      ensures r.Success? <==> Listable(t)
      ensures r.Success? ==> items == old(items) + ItemsOf(Copies(ProviderMode, t), source, destination)
      decreases t
    {
      hide CopiesIn, CopiesOf, Copies, Contained, ItemsOf, JoinRemote;
      PlanTop(ProviderMode, t, source, destination);
      if t.IsDir() {
        if t.Unlistable? { return Failure(t.error); }
        PlanStart(ProviderMode, t.children, source, destination);
        Push(Item(source, destination, true, None));
        for i := 0 to |t.children|
          invariant forall k :: 0 <= k < i ==> Listable(t.children[k].tree)
          invariant items == old(items) + [Item(source, destination, true, None)] + ItemsOf(CopiesIn(ProviderMode, t.children[..i]), source, destination)
        {
          var child := t.children[i];
          PlanStep(ProviderMode, t.children, i, source, destination);
          var from, to := JoinRemote(source, child.name), JoinRemote(destination, child.name);
          PlanNode(ProviderMode, child.tree, from, to);
          if child.tree.IsDir() {
            r := WalkProvider(child.tree, from, to);
            if r.Failure? { return r; }
          } else if child.tree.File? {
            Push(Item(from, to, false, child.tree.size));
          }
        }
      } else {
        Push(Item(source, destination, false, t.Size()));
      }
      r := Success(());
    }

    /** From a provider to the local file system. Each node is put below `into` under the last
        name of its own path; special nodes are planned like files. */
    method WalkToLocal(t: Tree, source: string, into: string) returns (r: Result<(), string>)
      modifies this
      ensures r.Success? <==> Listable(t)
      ensures r.Success? ==> items == old(items) + LocalItems(Copies(ToLocalMode, t), source, into)
      decreases t
    {
      hide CopiesIn, CopiesOf, Copies, Contained, LocalItems, JoinRemote, LastName;
      var destination := JoinRemote(into, LastName(source));
      LocalTop(t, source, into);
      if t.IsDir() {
        Push(Item(source, destination, true, None));
        if t.Unlistable? { return Failure(t.error); }
        LocalStart(t.children, source, into);
        for i := 0 to |t.children|
          invariant forall k :: 0 <= k < i ==> Listable(t.children[k].tree)
          invariant items == old(items) + [Item(source, destination, true, None)] + LocalItems(CopiesIn(ToLocalMode, t.children[..i]), source, into)
        {
          var child := t.children[i];
          LocalStep(t.children, i, source, into);
          r := WalkToLocal(child.tree, JoinRemote(source, child.name), destination);
          if r.Failure? { return r; }
        }
      } else {
        Push(Item(source, destination, false, t.Size()));
      }
      r := Success(());
    }

    /** From the local file system to a provider: below the top only regular files are planned. */
    method WalkToRemote(t: Tree, source: string, destination: string) returns (r: Result<(), string>)
      requires t.IsDir()
      modifies this
      ensures r.Success? <==> Listable(t)
      ensures r.Success? ==> items == old(items) + ItemsOf(Contained(ToRemoteMode, t), source, destination)
      decreases t
    {
      hide CopiesIn, CopiesOf, Copies, ItemsOf, JoinRemote;
      if t.Unlistable? { return Failure(t.error); }
      PlanStart(ToRemoteMode, t.children, source, destination);
      for i := 0 to |t.children|
        invariant forall k :: 0 <= k < i ==> Listable(t.children[k].tree)
        invariant items == old(items) + ItemsOf(CopiesIn(ToRemoteMode, t.children[..i]), source, destination)
      {
        var child := t.children[i];
        var from, to := JoinRemote(source, child.name), JoinRemote(destination, child.name);
        PlanStep(ToRemoteMode, t.children, i, source, destination);
        PlanNode(ToRemoteMode, child.tree, from, to);
        if child.tree.IsDir() {
          r := WalkToRemote(child.tree, from, to);
          if r.Failure? { return r; }
        } else if child.tree.File? {
          Push(Item(from, to, false, child.tree.size));
        }
      }
      r := Success(());
    }
  }

  // ----- the operations -----

  datatype PlanError = InvalidPath | Io(error: string)

  /** `source` and `intoDir` are the remote paths of the two addresses. */
  method CollectProvider(t: Tree, source: string, intoDir: string) returns (r: Result<seq<Item>, PlanError>)
    ensures r.Success? <==> source != "" && intoDir != "" && Listable(t)
    ensures r.Success? ==> r.value == ItemsOf(Copies(ProviderMode, t), source, JoinRemote(intoDir, RemoteBasename(source, "source")))
  {
    if source == "" || intoDir == "" { return Failure(InvalidPath); }
    var planner := new Planner();
    var done := planner.WalkProvider(t, source, JoinRemote(intoDir, RemoteBasename(source, "source")));
    if done.Failure? { return Failure(Io(done.error)); }
    r := Success(planner.items);
  }

  method CollectToLocal(t: Tree, source: string, intoDir: string) returns (r: Result<seq<Item>, PlanError>)
    ensures r.Success? <==> source != "" && Listable(t)
    ensures r.Success? ==> r.value == LocalItems(Copies(ToLocalMode, t), source, intoDir)
    ensures r.Success? && WellNamed(t) ==> r.value == ItemsOf(Copies(ToLocalMode, t), source, JoinRemote(intoDir, LastName(source)))
  {
    if source == "" { return Failure(InvalidPath); }
    var planner := new Planner();
    var done := planner.WalkToLocal(t, source, intoDir);
    if done.Failure? { return Failure(Io(done.error)); }
    if WellNamed(t) { LocalItemsJoined(t, source, intoDir); }
    r := Success(planner.items);
  }

  /** A directory is unpacked into the destination itself; anything else is put below it. */
  method CollectToRemote(t: Tree, source: string, fileName: Option<string>, intoDir: string) returns (r: Result<seq<Item>, PlanError>)
    ensures r.Success? <==> intoDir != "" && Listable(t)
    ensures r.Success? ==> r.value == ItemsOf(Copies(ToRemoteMode, t), source,
      if t.IsDir() then intoDir else JoinRemote(intoDir, if fileName.Some? then fileName.value else "file"))
  {
    if intoDir == "" { return Failure(InvalidPath); }
    var planner := new Planner();
    if t.IsDir() {
      planner.Push(Item(source, intoDir, true, None));
      var done := planner.WalkToRemote(t, source, intoDir);
      if done.Failure? { return Failure(Io(done.error)); }
      PlanTop(ToRemoteMode, t, source, intoDir);
    } else {
      var destination := JoinRemote(intoDir, if fileName.Some? then fileName.value else "file");
      planner.Push(Item(source, destination, false, t.Size()));
      PlanTop(ToRemoteMode, t, source, destination);
    }
    r := Success(planner.items);
  }
}
