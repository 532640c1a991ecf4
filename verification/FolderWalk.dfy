/** The folder size walk. Directories are known by their canonical path; different paths may lead
    to the same one, and a path may lead back to a directory above it. */
module FolderWalk {
  import opened Basics
  import opened Cancellation

  /** A canonical directory. */
  type Dir(==, !new) = nat

  /** What reading a directory yields. `Directory` carries what canonicalizing its path gives. */
  datatype Entry =
    | Broken(error: string)
    | Symlink
    | Special
    | File(size: nat)
    | Directory(target: Result<Dir, string>)

  type Listing = Result<seq<Entry>, string>

  /** A finite directory graph, with any cycles and aliases. */
  datatype Graph = Graph(listing: map<Dir, Listing>) {
    ghost predicate Closed() {
      forall d :: d in listing && listing[d].Success? ==> ClosedListing(listing[d].value)
    }

    ghost predicate ClosedListing(entries: seq<Entry>) {
      forall i :: 0 <= i < |entries| ==> ClosedEntry(entries[i])
    }

    predicate ClosedEntry(e: Entry) {
      e.Directory? && e.target.Success? ==> e.target.value in listing
    }

    /** The entries of a directory, none if it cannot be read. */
    function Entries(d: Dir): seq<Entry>
      requires d in listing
    {
      if listing[d].Success? then listing[d].value else []
    }

    ghost predicate Edge(d: Dir, e: Dir) {
      d in listing && exists i :: 0 <= i < |Entries(d)| && Entries(d)[i] == Directory(Success(e))
    }

    lemma EntryClosed(d: Dir, i: nat)
      requires Closed() && d in listing && i < |Entries(d)|
      ensures ClosedEntry(Entries(d)[i])
    {
    }

    /** A chain of directories, each an entry of the one before. */
    ghost predicate Chain(from: Dir, path: seq<Dir>, to: Dir)
      decreases |path|
    {
      if path == [] then from == to else Edge(from, path[0]) && Chain(path[0], path[1..], to)
    }

    ghost predicate Reachable(from: Dir, to: Dir) {
      exists path :: Chain(from, path, to)
    }
  }

  datatype Summary = Summary(totalSize: nat, itemCount: nat, fileCount: nat, directoryCount: nat, warnings: seq<string>, incomplete: bool)

  datatype WalkError = Cancelled | Io(error: string)

  // ----- what a directory contributes -----

  /** Sizes and numbers found: items, files, directories, errors, and calls of the callback. */
  datatype Tally = Tally(size: nat, items: nat, files: nat, dirs: nat, errors: multiset<string>, calls: nat) {
    function Plus(t: Tally): Tally {
      Tally(size + t.size, items + t.items, files + t.files, dirs + t.dirs, errors + t.errors, calls + t.calls)
    }
  }

  const Nothing := Tally(0, 0, 0, 0, multiset{}, 0)

  function OneError(error: string): Tally {
    Tally(0, 0, 0, 0, multiset{error}, 0)
  }

  /** What an entry adds: symbolic links do not count at all, special files only as items. */
  function OfEntry(e: Entry): Tally {
    match e
    case Broken(error) => OneError(error)
    case Symlink => Nothing
    case Special => Tally(0, 1, 0, 0, multiset{}, 0)
    case File(size) => Tally(size, 1, 1, 0, multiset{}, 1)
    case Directory(target) => Tally(0, 1, 0, 1, if target.Success? then multiset{} else multiset{target.error}, 1)
  }

  function OfEntries(entries: seq<Entry>): Tally {
    if entries == [] then Nothing else OfEntries(entries[..|entries| - 1]).Plus(OfEntry(entries[|entries| - 1]))
  }

  /** What a directory adds by itself, without the directories in it. */
  function OfDir(g: Graph, d: Dir): Tally {
    if d !in g.listing then Nothing
    else
      match g.listing[d]
      case Success(entries) => OfEntries(entries)
      case Failure(error) => OneError(error)
  }

  function OfDirs(g: Graph, dirs: seq<Dir>): Tally {
    if dirs == [] then Nothing else OfDirs(g, dirs[..|dirs| - 1]).Plus(OfDir(g, dirs[|dirs| - 1]))
  }

  predicate Distinct(dirs: seq<Dir>) {
    forall i, k :: 0 <= i < k < |dirs| ==> dirs[i] != dirs[k]
  }

  lemma PlusLaws(a: Tally, b: Tally, c: Tally)
    ensures a.Plus(b).Plus(c) == a.Plus(b.Plus(c))
    ensures a.Plus(Nothing) == a && Nothing.Plus(a) == a
  {
  }

  lemma PlusOne(a: Tally, error: string)
    ensures a.Plus(OneError(error)).Plus(Nothing) == a.Plus(Nothing).Plus(OneError(error)) == a.Plus(OneError(error))
  {
  }

  lemma Regroup(t: Tally, e: Tally, d: Tally, e': Tally, d': Tally)
    ensures t.Plus(e).Plus(d).Plus(e').Plus(d') == t.Plus(e.Plus(e')).Plus(d.Plus(d'))
  {
  }

  lemma OfUnreadable(g: Graph, d: Dir)
    requires d in g.listing && g.listing[d].Failure?
    ensures OfDir(g, d) == OneError(g.listing[d].error)
  {
    hide OfEntries;
  }

  lemma OfReadable(g: Graph, d: Dir)
    requires d in g.listing && g.listing[d].Success?
    ensures OfDir(g, d) == OfEntries(g.listing[d].value)
  {
  }

  lemma DistinctSnoc(dirs: seq<Dir>, d: Dir)
    requires Distinct(dirs) && d !in dirs
    ensures Distinct(dirs + [d])
  {
  }

  lemma OfDirsSnoc(g: Graph, dirs: seq<Dir>, d: Dir)
    ensures OfDirs(g, []) == Nothing
    ensures OfDirs(g, dirs + [d]) == OfDirs(g, dirs).Plus(OfDir(g, d))
  {
    hide OfDir, Tally.Plus;
    assert (dirs + [d])[..|dirs|] == dirs;
  }

  lemma {:induction false} OfDirsAppend(g: Graph, a: seq<Dir>, b: seq<Dir>)
    ensures OfDirs(g, a + b) == OfDirs(g, a).Plus(OfDirs(g, b))
  {
    hide OfDirs, OfDir, Tally.Plus;
    if b == [] {
      assert a + b == a;
      OfDirsSnoc(g, [], 0);
      PlusLaws(OfDirs(g, a), Nothing, Nothing);
    } else {
      var init, last := b[..|b| - 1], b[|b| - 1];
      OfDirsAppend(g, a, init);
      assert b == init + [last] && a + b == (a + init) + [last];
      OfDirsSnoc(g, init, last);
      OfDirsSnoc(g, a + init, last);
      PlusLaws(OfDirs(g, a), OfDirs(g, init), OfDir(g, last));
    }
  }

  lemma OfEntriesStep(entries: seq<Entry>, i: nat)
    requires i < |entries|
    ensures OfEntries(entries[..i + 1]) == OfEntries(entries[..i]).Plus(OfEntry(entries[i]))
  {
    assert entries[..i + 1][..i] == entries[..i];
  }

  // ----- reachability -----

  lemma {:induction false} ChainSnoc(g: Graph, from: Dir, path: seq<Dir>, mid: Dir, to: Dir)
    requires g.Chain(from, path, mid) && g.Edge(mid, to)
    ensures g.Chain(from, path + [to], to)
    decreases |path|
  {
    if path == [] {
      assert ([] + [to])[1..] == [];
    } else {
      ChainSnoc(g, path[0], path[1..], mid, to);
      assert (path + [to])[1..] == path[1..] + [to];
    }
  }

  lemma {:induction false} ChainJoin(g: Graph, from: Dir, p: seq<Dir>, mid: Dir, q: seq<Dir>, to: Dir)
    requires g.Chain(from, p, mid) && g.Chain(mid, q, to)
    ensures g.Chain(from, p + q, to)
    decreases |p|
  {
    if p == [] {
      assert p + q == q;
    } else {
      ChainJoin(g, p[0], p[1..], mid, q, to);
      assert (p + q)[1..] == p[1..] + q;
    }
  }

  lemma ReachableStep(g: Graph, a: Dir, b: Dir, c: Dir)
    requires g.Edge(a, b) && g.Reachable(b, c)
    ensures g.Reachable(a, c)
  {
    var p :| g.Chain(b, p, c);
    assert ([b] + p)[1..] == p;
    assert g.Chain(a, [b] + p, c);
  }

  /** All directories in the entries of d belong to `dirs`. */
  ghost predicate Covered(g: Graph, d: Dir, dirs: set<Dir>) {
    forall e :: g.Edge(d, e) ==> e in dirs
  }

  lemma {:induction false} ClosedUnderChains(g: Graph, dirs: set<Dir>, from: Dir, path: seq<Dir>, to: Dir)
    requires forall d :: d in dirs ==> Covered(g, d, dirs)
    requires from in dirs && g.Chain(from, path, to)
    ensures to in dirs
    decreases |path|
  {
    if path != [] { ClosedUnderChains(g, dirs, path[0], path[1..], to); }
  }

  lemma EdgeAt(g: Graph, d: Dir, i: nat)
    requires d in g.listing && i < |g.Entries(d)|
    ensures match g.Entries(d)[i] case Directory(Success(e)) => g.Edge(d, e) case _ => true
  {
  }

  lemma CoveredByEntries(g: Graph, d: Dir, dirs: set<Dir>)
    requires d in g.listing
    requires forall i :: 0 <= i < |g.Entries(d)| ==> EntryIn(g.Entries(d)[i], dirs)
    ensures Covered(g, d, dirs)
  {
  }

  predicate EntryIn(e: Entry, dirs: set<Dir>) {
    e.Directory? && e.target.Success? ==> e.target.value in dirs
  }

  lemma EntryInMeaning(e: Entry)
    ensures forall dirs :: EntryIn(e, dirs) <==> (e.Directory? && e.target.Success? ==> e.target.value in dirs)
  {
  }

  lemma CoveredByMore(g: Graph, d: Dir, dirs: set<Dir>, more: set<Dir>)
    requires Covered(g, d, dirs) && dirs <= more
    ensures Covered(g, d, more)
  {
  }

  lemma ReachableSelf(g: Graph, d: Dir)
    ensures g.Reachable(d, d)
  {
    assert g.Chain(d, [], d);
  }

  lemma OfNone(g: Graph)
    ensures OfDirs(g, []) == Nothing && OfEntries([]) == Nothing
  {
    OfDirsSnoc(g, [], 0);
  }

  lemma OfFirst(g: Graph, d: Dir, rest: seq<Dir>)
    ensures OfDirs(g, [d] + rest) == OfDir(g, d).Plus(OfDirs(g, rest))
  {
    hide OfDirs, OfDir, Tally.Plus;
    OfDirsSnoc(g, [], d);
    assert [] + [d] == [d];
    PlusLaws(OfDir(g, d), Nothing, Nothing);
    OfDirsAppend(g, [d], rest);
  }

  // ----- the walk -----

  function TallyOf(s: Summary, calls: nat): Tally {
    Tally(s.totalSize, s.itemCount, s.fileCount, s.directoryCount, multiset(s.warnings), calls)
  }

  /** The callback is made once for every file and directory counted, right after counting it. */
  predicate CallsOk(s: Summary, calls: seq<Summary>) {
    && |calls| == s.fileCount + s.directoryCount
    && forall i :: 0 <= i < |calls| ==> calls[i].fileCount + calls[i].directoryCount == i + 1
  }

  function Warned(s: Summary, error: string): Summary {
    s.(incomplete := true, warnings := s.warnings + [error])
  }

  function WithItem(s: Summary): Summary {
    s.(itemCount := s.itemCount + 1)
  }

  function WithFile(s: Summary, size: nat): Summary {
    s.(itemCount := s.itemCount + 1, fileCount := s.fileCount + 1, totalSize := s.totalSize + size)
  }

  function WithDirectory(s: Summary): Summary {
    s.(itemCount := s.itemCount + 1, directoryCount := s.directoryCount + 1)
  }

  lemma TallyWarned(s: Summary, n: nat, error: string)
    ensures TallyOf(Warned(s, error), n) == TallyOf(s, n).Plus(OneError(error))
  {
  }

  /** What each kind of entry does to the summary, in sums. */
  lemma TallyEntry(s: Summary, n: nat)
    ensures forall error :: TallyOf(Warned(s, error), n) == TallyOf(s, n).Plus(OfEntry(Broken(error)))
    ensures TallyOf(s, n) == TallyOf(s, n).Plus(OfEntry(Symlink))
    ensures TallyOf(WithItem(s), n) == TallyOf(s, n).Plus(OfEntry(Special))
    ensures forall size :: TallyOf(WithFile(s, size), n + 1) == TallyOf(s, n).Plus(OfEntry(File(size)))
  {
  }

  /** A directory is counted first, and its error, if any, after what is in it. */
  lemma TallyDirectory(s: Summary, n: nat, target: Result<Dir, string>, inside: Tally)
    ensures TallyOf(WithDirectory(s), n + 1).Plus(inside).Plus(if target.Failure? then OneError(target.error) else Nothing)
         == TallyOf(s, n).Plus(OfEntry(Directory(target))).Plus(inside)
  {
  }

  lemma CallsStay(s: Summary, calls: seq<Summary>)
    requires CallsOk(s, calls)
    ensures forall error :: CallsOk(Warned(s, error), calls)
    ensures CallsOk(WithItem(s), calls)
    ensures forall size :: CallsOk(WithFile(s, size), calls + [WithFile(s, size)])
    ensures CallsOk(WithDirectory(s), calls + [WithDirectory(s)])
  {
  }

  class FolderWalker {
    const graph: Graph
    const cancel: CancellationToken
    var visited: set<Dir>
    var summary: Summary
    /** The calls of the progress callback: the summary it was shown. */
    var calls: seq<Summary>
    /** The directories expanded so far, in order. */
    ghost var expanded: seq<Dir>

    constructor (graph: Graph, cancel: CancellationToken)
      requires graph.Closed()
      ensures this.graph == graph && this.cancel == cancel && Valid()
      ensures visited == {} && expanded == [] && calls == []
      ensures summary == Summary(0, 0, 0, 0, [], false)
    {
      this.graph := graph;
      this.cancel := cancel;
      visited := {};
      summary := Summary(0, 0, 0, 0, [], false);
      calls := [];
      expanded := [];
    }

    /** Each visited directory was expanded exactly once. */
    ghost predicate Valid()
      reads this
    {
      && graph.Closed()
      && (forall d :: d in visited <==> d in expanded)
      && Distinct(expanded)
      && (forall k :: 0 <= k < |expanded| ==> expanded[k] in graph.listing)
      && (summary.incomplete <==> summary.warnings != [])
      && CallsOk(summary, calls)
    }

    function Totals(): Tally
      reads this
    {
      TallyOf(summary, |calls|)
    }

    method Warn(error: string)
      modifies this`summary
      ensures summary == Warned(old(summary), error)
    {
      summary := summary.(incomplete := true, warnings := summary.warnings + [error]);
    }

    method Progress()
      modifies this`calls
      ensures calls == old(calls) + [summary]
    {
      calls := calls + [summary];
    }

    /** What one visit leaves behind, wherever it ends: nothing is forgotten. */
    twostate predicate Grown()
      reads this
    {
      && old(visited) <= visited
      && |old(expanded)| <= |expanded| && expanded[..|old(expanded)|] == old(expanded)
    }

    /** All visited directories but the grey ones are done. */
    ghost predicate DoneBut(grey: set<Dir>)
      reads this
    {
      forall d :: d in visited && d !in grey ==> Covered(graph, d, visited)
    }

    /** Visits the directory a path leads to. `grey` are the directories whose entries are still
        being read further up; all other visited ones are done. */
    method VisitFolder(target: Result<Dir, string>, ghost grey: set<Dir>) returns (r: Result<(), WalkError>)
      requires Valid() && graph.ClosedEntry(Directory(target))
      requires grey <= visited && DoneBut(grey)
      modifies this, cancel
      ensures Valid() && Grown()
      ensures r.Failure? ==> r.error == Cancelled && cancel.Cancelled()
      ensures r.Success? ==>
        && (target.Success? ==> target.value in visited)
        && DoneBut(grey)
        && (forall d :: d in visited && d !in old(visited) ==> target.Success? && graph.Reachable(target.value, d))
        && Totals() == old(Totals()).Plus(OfDirs(graph, expanded[|old(expanded)|..])).Plus(
             if target.Failure? then OneError(target.error) else Nothing)
      decreases graph.listing.Keys - visited, 1
    {
      hide OfDirs, OfDir, OfEntries, Covered, Distinct, Tally.Plus, TallyOf, CallsOk, OneError;
      hide Graph.Reachable, Graph.Edge;
      OfNone(graph);
      PlusLaws(Totals(), Nothing, Nothing);
      CallsStay(summary, calls);
      assert expanded[|expanded|..] == [];
      var cancelled := cancel.IsCancelled();
      if cancelled { return Failure(Cancelled); }
      if target.Failure? {
        TallyWarned(summary, |calls|, target.error);
        Warn(target.error);
        PlusOne(old(Totals()), target.error);
        return Success(());
      }
      var dir := target.value;
      if dir in visited { return Success(()); }
      var listing := graph.listing[dir];
      DistinctSnoc(expanded, dir);
      visited := visited + {dir};
      expanded := expanded + [dir];
      forall d | d in visited && d !in grey + {dir} ensures Covered(graph, d, visited) {
        CoveredByMore(graph, d, old(visited), visited);
      }
      ReachableSelf(graph, dir);
      assert expanded[|old(expanded)|..] == [dir] + [] && expanded[|expanded|..] == [];
      OfFirst(graph, dir, []);
      if listing.Failure? {
        TallyWarned(summary, |calls|, listing.error);
        Warn(listing.error);
        CoveredByEntries(graph, dir, visited);
        OfUnreadable(graph, dir);
        PlusOne(old(Totals()), listing.error);
        PlusLaws(OneError(listing.error), Nothing, Nothing);
        return Success(());
      }
      ghost var was := expanded;
      r := VisitEntries(dir, grey + {dir});
      assert expanded[..|old(expanded)|] == was[..|old(expanded)|];
      if r.Failure? { return r; }
      ghost var rest := expanded[|was|..];
      assert expanded[|old(expanded)|..] == [dir] + rest;
      OfFirst(graph, dir, rest);
      PlusLaws(old(Totals()), OfEntries(listing.value), OfDirs(graph, rest));
      PlusLaws(Totals(), Nothing, Nothing);
      OfReadable(graph, dir);
      CoveredByEntries(graph, dir, visited);
    }

    /** The loop over the entries of a directory. */
    method VisitEntries(dir: Dir, ghost grey: set<Dir>) returns (r: Result<(), WalkError>)
      requires Valid() && dir in graph.listing
      requires dir in grey && grey <= visited && DoneBut(grey)
      modifies this, cancel
      ensures Valid() && Grown()
      ensures r.Failure? ==> r.error == Cancelled && cancel.Cancelled()
      ensures r.Success? ==>
        && DoneBut(grey)
        && (forall i :: 0 <= i < |graph.Entries(dir)| ==> EntryIn(graph.Entries(dir)[i], visited))
        && (forall d :: d in visited && d !in old(visited) ==> graph.Reachable(dir, d))
        && Totals() == old(Totals()).Plus(OfEntries(graph.Entries(dir))).Plus(OfDirs(graph, expanded[|old(expanded)|..]))
      decreases graph.listing.Keys - visited, 3
    {
      hide OfDirs, OfDir, OfEntry, OfEntries, Covered, Distinct, Tally.Plus, TallyOf;
      hide Graph.Reachable, Graph.Edge, Graph.Entries, Graph.Closed;
      OfNone(graph);
      PlusLaws(Totals(), Nothing, Nothing);
      assert expanded[|expanded|..] == [];
      var entries := graph.Entries(dir);
      for i := 0 to |entries|
        invariant Valid() && Grown() && DoneBut(grey)
        invariant forall d :: d in visited && d !in old(visited) ==> graph.Reachable(dir, d)
        invariant forall m :: 0 <= m < i ==> EntryIn(entries[m], visited)
        invariant Totals() == old(Totals()).Plus(OfEntries(entries[..i])).Plus(OfDirs(graph, expanded[|old(expanded)|..]))
      {
        ghost var was, n := expanded, |old(expanded)|;
        r := VisitEntry(dir, i, grey);
        StillThere(was, expanded, n);
        if r.Failure? { return r; }
        OfEntriesStep(entries, i);
        OfDirsAppend(graph, was[n..], expanded[|was|..]);
        Regroup(old(Totals()), OfEntries(entries[..i]), OfDirs(graph, was[n..]), OfEntry(entries[i]), OfDirs(graph, expanded[|was|..]));
      }
      assert entries[..|entries|] == entries;
      r := Success(());
    }

    /** One entry of a directory that is being read. */
    method VisitEntry(dir: Dir, i: nat, ghost grey: set<Dir>) returns (r: Result<(), WalkError>)
      requires Valid() && dir in graph.listing && i < |graph.Entries(dir)|
      requires dir in grey && grey <= visited && DoneBut(grey)
      modifies this, cancel
      ensures Valid() && Grown()
      ensures r.Failure? ==> r.error == Cancelled && cancel.Cancelled()
      ensures var e := graph.Entries(dir)[i];
        r.Success? ==>
          && EntryIn(e, visited)
          && DoneBut(grey)
          && (forall d :: d in visited && d !in old(visited) ==> graph.Reachable(dir, d))
          && Totals() == old(Totals()).Plus(OfEntry(e)).Plus(OfDirs(graph, expanded[|old(expanded)|..]))
      decreases graph.listing.Keys - visited, 2
    {
      hide OfDirs, OfDir, OfEntries, OfEntry, Covered, Distinct, EntryIn, TallyOf, Tally.Plus, CallsOk;
      hide Graph.Reachable, Graph.Edge, Graph.Closed;
      EntryInMeaning(graph.Entries(dir)[i]);
      TallyEntry(summary, |calls|);
      CallsStay(summary, calls);
      ghost var was, n := summary, |calls|;
      OfNone(graph);
      PlusLaws(Totals().Plus(OfEntry(graph.Entries(dir)[i])), Nothing, Nothing);
      assert expanded[|expanded|..] == [];
      var cancelled := cancel.IsCancelled();
      if cancelled { return Failure(Cancelled); }
      match graph.Entries(dir)[i] {
        case Broken(error) =>
          Warn(error);
        case Symlink =>
        case Special =>
          summary := WithItem(summary);
        case File(size) =>
          summary := WithFile(summary, size);
          Progress();
        case Directory(child) =>
          summary := WithDirectory(summary);
          Progress();
          graph.EntryClosed(dir, i);
          r := VisitFolder(child, grey);
          if r.Failure? { return r; }
          TallyDirectory(was, n, child, OfDirs(graph, expanded[|old(expanded)|..]));
          EdgeAt(graph, dir, i);
          forall d | d in visited && d !in old(visited) ensures graph.Reachable(dir, d) {
            ReachableStep(graph, dir, child.value, d);
          }
      }
      r := Success(());
    }
  }

  // ----- the operation -----

  /** What the requested path is: a directory, or something else with its size if it is a regular
      file, or nothing that can be looked at. */
  datatype Root = AtDirectory(target: Result<Dir, string>) | Elsewhere(file: Result<Option<nat>, string>)

  /** `dirs` lists the directories that can be reached, each once. */
  ghost predicate Lists(g: Graph, root: Dir, dirs: seq<Dir>) {
    Distinct(dirs) && forall d :: d in dirs <==> g.Reachable(root, d)
  }

  /** The visit of a root ends with exactly the reachable directories expanded. */
  lemma VisitedIsReachable(g: Graph, root: Dir, dirs: seq<Dir>, visited: set<Dir>)
    requires Distinct(dirs) && forall d :: d in visited <==> d in dirs
    requires root in visited && forall d :: d in visited ==> g.Reachable(root, d)
    requires forall d :: d in visited ==> Covered(g, d, visited)
    ensures Lists(g, root, dirs)
  {
    forall d | g.Reachable(root, d) ensures d in visited {
      var path :| g.Chain(root, path, d);
      ClosedUnderChains(g, visited, root, path, d);
    }
  }

  // ----- what the totals are, said of the graph alone -----

  /** The place of an entry: its directory and its index there. */
  predicate IsPlace(g: Graph, p: (Dir, nat)) {
    p.0 in g.listing && p.1 < |g.Entries(p.0)|
  }

  function At(g: Graph, p: (Dir, nat)): Entry
    requires IsPlace(g, p)
  {
    g.Entries(p.0)[p.1]
  }

  /** The places in some directories. */
  function Places(g: Graph, dirs: set<Dir>): set<(Dir, nat)> {
    set d, i: nat | d in dirs && d in g.listing && i < |g.Entries(d)| :: (d, i)
  }

  function FileSize(g: Graph, p: (Dir, nat)): nat
    requires IsPlace(g, p)
  {
    if At(g, p).File? then At(g, p).size else 0
  }

  /** The sum of the sizes over a set of places. */
  ghost function SumOfSizes(g: Graph, places: set<(Dir, nat)>): nat
    requires forall p :: p in places ==> IsPlace(g, p)
  {
    if places == {} then 0
    else
      var p :| p in places;
      FileSize(g, p) + SumOfSizes(g, places - {p})
  }

  /** Directories that can be reached; this says nothing of the order of a walk. */
  ghost function Below(g: Graph, root: Dir): set<Dir> {
    set d | d in g.listing && g.Reachable(root, d)
  }

  /** The summary gives the numbers of the files, directories and items in the given directories,
      the sum of the sizes of the files, and every error as often as it is met. */
  ghost predicate Amounts(g: Graph, dirs: set<Dir>, s: Summary) {
    var places := Places(g, dirs);
    && s.fileCount == |set p | p in places && At(g, p).File?|
    && s.directoryCount == |set p | p in places && At(g, p).Directory?|
    && s.itemCount == |set p | p in places && !At(g, p).Broken? && !At(g, p).Symlink?|
    && s.totalSize == SumOfSizes(g, set p | p in places && At(g, p).File?)
    && forall error :: multiset(s.warnings)[error] ==
         |set p | p in places && (At(g, p) == Broken(error) || At(g, p) == Directory(Failure(error)))|
         + |set d | d in dirs && d in g.listing && g.listing[d] == Failure(error)|
  }

  datatype What = Files | Folders | Items | Errors(error: string)

  predicate Is(e: Entry, what: What) {
    match what
    case Files => e.File?
    case Folders => e.Directory?
    case Items => !e.Broken? && !e.Symlink?
    case Errors(error) => e == Broken(error) || e == Directory(Failure(error))
  }

  function Those(g: Graph, places: set<(Dir, nat)>, what: What): (those: set<(Dir, nat)>)
    ensures forall p :: p in those ==> IsPlace(g, p)
  {
    set p | p in places && IsPlace(g, p) && Is(At(g, p), what)
  }

  function Unlisted(g: Graph, dirs: set<Dir>, what: What): set<Dir> {
    set d | d in dirs && d in g.listing && what.Errors? && g.listing[d] == Failure(what.error)
  }

  function Number(t: Tally, what: What): nat {
    match what
    case Files => t.files
    case Folders => t.dirs
    case Items => t.items
    case Errors(error) => t.errors[error]
  }

  lemma NumberPlus(a: Tally, b: Tally, what: What)
    ensures Number(a.Plus(b), what) == Number(a, what) + Number(b, what) && a.Plus(b).size == a.size + b.size
    ensures Number(Nothing, what) == 0
  {
  }

  lemma NumberOfEntry(e: Entry, what: What)
    ensures Number(OfEntry(e), what) == (if Is(e, what) then 1 else 0)
    ensures OfEntry(e).size == if e.File? then e.size else 0
  {
  }

  lemma {:induction false} SumWithout(g: Graph, places: set<(Dir, nat)>, p: (Dir, nat))
    requires p in places && forall q :: q in places ==> IsPlace(g, q)
    ensures SumOfSizes(g, places) == FileSize(g, p) + SumOfSizes(g, places - {p})
    decreases places
  {
    hide FileSize;
    var q :| q in places && SumOfSizes(g, places) == FileSize(g, q) + SumOfSizes(g, places - {q});
    if p != q {
      SumWithout(g, places - {q}, p);
      SumWithout(g, places - {p}, q);
      assert places - {q} - {p} == places - {p} - {q};
    }
  }

  lemma {:induction false} SumUnion(g: Graph, a: set<(Dir, nat)>, b: set<(Dir, nat)>)
    requires a !! b && forall q :: q in a + b ==> IsPlace(g, q)
    ensures SumOfSizes(g, a + b) == SumOfSizes(g, a) + SumOfSizes(g, b)
    decreases b
  {
    hide FileSize;
    if b == {} {
      assert a + b == a;
    } else {
      var p :| p in b;
      SumUnion(g, a, b - {p});
      SumWithout(g, a + b, p);
      SumWithout(g, b, p);
      assert a + b - {p} == a + (b - {p});
    }
  }

  function Front(d: Dir, n: nat): set<(Dir, nat)> {
    set i: nat | i < n :: (d, i)
  }

  lemma {:induction false} EntriesCounted(g: Graph, d: Dir, n: nat, what: What)
    requires d in g.listing && n <= |g.Entries(d)|
    ensures Number(OfEntries(g.Entries(d)[..n]), what) == |Those(g, Front(d, n), what)|
    ensures OfEntries(g.Entries(d)[..n]).size == SumOfSizes(g, Those(g, Front(d, n), Files))
  {
    hide Tally.Plus, OfEntry, OfEntries, OfDirs, Is, Number, Graph.Entries, Those, Front, SumOfSizes;
    NumberPlus(Nothing, Nothing, what);
    var entries := g.Entries(d);
    if n == 0 {
      OfNone(g);
      NoneInFront(g, d, what);
      NoneInFront(g, d, Files);
      NoDirs(g, what);
      assert entries[..n] == [];
    } else {
      var p := (d, n - 1);
      EntriesCounted(g, d, n - 1, what);
      OfEntriesStep(entries, n - 1);
      NumberPlus(OfEntries(entries[..n - 1]), OfEntry(entries[n - 1]), what);
      NumberOfEntry(entries[n - 1], what);
      assert At(g, p) == entries[n - 1];
      FrontStep(g, d, n - 1, what);
      FrontSize(g, d, n - 1);
    }
  }

  lemma FrontStep(g: Graph, d: Dir, n: nat, what: What)
    requires d in g.listing && n < |g.Entries(d)|
    ensures |Those(g, Front(d, n + 1), what)| == |Those(g, Front(d, n), what)| + if Is(At(g, (d, n)), what) then 1 else 0
  {
    hide Is;
    FrontIs(g, d, n, what);
    var more := Those(g, Front(d, n + 1), what);
    if (d, n) !in more { assert more - {(d, n)} == more; }
  }

  lemma FrontSize(g: Graph, d: Dir, n: nat)
    requires d in g.listing && n < |g.Entries(d)|
    ensures SumOfSizes(g, Those(g, Front(d, n + 1), Files)) == SumOfSizes(g, Those(g, Front(d, n), Files)) + FileSize(g, (d, n))
  {
    hide SumOfSizes, Front, Those;
    FrontIs(g, d, n, Files);
    IsFile(g, (d, n));
    var more := Those(g, Front(d, n + 1), Files);
    if (d, n) in more { SumWithout(g, more, (d, n)); } else { assert more - {(d, n)} == more; }
  }

  lemma NoneInFront(g: Graph, d: Dir, what: What)
    ensures Those(g, Front(d, 0), what) == {}
  {
  }

  lemma IsFile(g: Graph, p: (Dir, nat))
    requires IsPlace(g, p)
    ensures Is(At(g, p), Files) <==> At(g, p).File?
    ensures FileSize(g, p) == if At(g, p).File? then At(g, p).size else 0
  {
  }


  lemma FrontIs(g: Graph, d: Dir, n: nat, what: What)
    requires d in g.listing && n < |g.Entries(d)|
    ensures var more := Those(g, Front(d, n + 1), what);
      && Those(g, Front(d, n), what) == more - {(d, n)}
      && ((d, n) in more <==> Is(At(g, (d, n)), what))
  {
    hide Is;
    assert (d, n) in Front(d, n + 1);
  }

  /** A directory on its own. */
  lemma DirCounted(g: Graph, d: Dir, what: What)
    requires d in g.listing
    ensures Number(OfDir(g, d), what) == |Those(g, Places(g, {d}), what)| + |Unlisted(g, {d}, what)|
    ensures OfDir(g, d).size == SumOfSizes(g, Those(g, Places(g, {d}), Files))
  {
    hide OfEntries, Is;
    var n := |g.Entries(d)|;
    assert Places(g, {d}) == Front(d, n);
    EntriesCounted(g, d, n, what);
    assert g.Entries(d)[..n] == g.Entries(d);
    if g.listing[d].Success? {
      OfReadable(g, d);
      assert Unlisted(g, {d}, what) == {};
    } else {
      OfUnreadable(g, d);
      assert Front(d, n) == {};
      var found := Unlisted(g, {d}, what);
      assert found == if what == Errors(g.listing[d].error) then {d} else {};
    }
  }

  function Members(dirs: seq<Dir>): set<Dir> {
    set d | d in dirs
  }

  lemma {:induction false} DirsCounted(g: Graph, dirs: seq<Dir>, what: What)
    requires Distinct(dirs) && forall d :: d in dirs ==> d in g.listing
    ensures var all := Members(dirs);
      && Number(OfDirs(g, dirs), what) == |Those(g, Places(g, all), what)| + |Unlisted(g, all, what)|
      && OfDirs(g, dirs).size == SumOfSizes(g, Those(g, Places(g, all), Files))
  {
    hide Tally.Plus, OfDir, OfDirs, Is, Number, Graph.Entries, Those, Places, Unlisted, SumOfSizes;
    NumberPlus(Nothing, Nothing, what);
    hide Members;
    NoMembers();
    if dirs == [] {
      OfNone(g);
      NoDirs(g, what);
      NoDirs(g, Files);
    } else {
      var init, last := dirs[..|dirs| - 1], dirs[|dirs| - 1];
      var most := Members(init);
      DirsCounted(g, init, what);
      DirCounted(g, last, what);
      assert dirs == init + [last];
      OfDirsSnoc(g, init, last);
      NumberPlus(OfDirs(g, init), OfDir(g, last), what);
      MembersSnoc(init, last);
      Apart(g, most, last, what);
      Apart(g, most, last, Files);
      CountUnion(Those(g, Places(g, most), what), Those(g, Places(g, {last}), what));
      CountUnion(Unlisted(g, most, what), Unlisted(g, {last}, what));
      SumUnion(g, Those(g, Places(g, most), Files), Those(g, Places(g, {last}), Files));
    }
  }

  lemma NoMembers()
    ensures Members([]) == {}
  {
  }

  lemma MembersSnoc(dirs: seq<Dir>, d: Dir)
    ensures Members(dirs + [d]) == Members(dirs) + {d} && (d in Members(dirs) <==> d in dirs)
  {
  }

  lemma NoDirs(g: Graph, what: What)
    ensures Those(g, Places(g, {}), what) == {} && Unlisted(g, {}, what) == {} && SumOfSizes(g, {}) == 0
  {
  }

  lemma CountUnion<A>(a: set<A>, b: set<A>)
    requires a !! b
    ensures |a + b| == |a| + |b|
  {
  }

  lemma Apart(g: Graph, dirs: set<Dir>, d: Dir, what: What)
    requires d !in dirs
    ensures Those(g, Places(g, dirs + {d}), what) == Those(g, Places(g, dirs), what) + Those(g, Places(g, {d}), what)
    ensures Those(g, Places(g, dirs), what) !! Those(g, Places(g, {d}), what)
    ensures Unlisted(g, dirs + {d}, what) == Unlisted(g, dirs, what) + Unlisted(g, {d}, what)
    ensures Unlisted(g, dirs, what) !! Unlisted(g, {d}, what)
  {
    hide Is, Graph.Entries;
  }

  /** The sums over the directories met, whatever their order, are these amounts. */
  lemma TotalsAreAmounts(g: Graph, root: Dir, dirs: seq<Dir>, s: Summary, calls: nat)
    requires g.Closed() && root in g.listing && Lists(g, root, dirs)
    requires TallyOf(s, calls) == OfDirs(g, dirs)
    ensures Amounts(g, Below(g, root), s)
  {
    hide OfDirs, Graph.Reachable, Graph.Closed, Graph.Entries, Those, Unlisted, SumOfSizes, Places, Is;
    ReachableListed(g, root);
    var all := Below(g, root);
    assert all == Members(dirs);
    forall what: What
      ensures Number(TallyOf(s, calls), what) == |Those(g, Places(g, all), what)| + |Unlisted(g, all, what)|
      ensures s.totalSize == SumOfSizes(g, Those(g, Places(g, all), Files))
    {
      DirsCounted(g, dirs, what);
    }
    NumbersAre(g, all, s, calls);
    ErrorsAre(g, all, s, calls);
  }

  lemma NumbersAre(g: Graph, dirs: set<Dir>, s: Summary, calls: nat)
    requires forall what: What :: Number(TallyOf(s, calls), what) == |Those(g, Places(g, dirs), what)| + |Unlisted(g, dirs, what)|
    ensures var places := Places(g, dirs);
      && s.fileCount == |set p | p in places && At(g, p).File?|
      && s.directoryCount == |set p | p in places && At(g, p).Directory?|
      && s.itemCount == |set p | p in places && !At(g, p).Broken? && !At(g, p).Symlink?|
      && Those(g, places, Files) == set p | p in places && At(g, p).File?
  {
    hide Graph.Entries;
    var places := Places(g, dirs);
    assert Those(g, places, Files) == set p | p in places && At(g, p).File?;
    assert Those(g, places, Folders) == set p | p in places && At(g, p).Directory?;
    assert Those(g, places, Items) == set p | p in places && !At(g, p).Broken? && !At(g, p).Symlink?;
    assert forall what :: what in {Files, Folders, Items} ==> Unlisted(g, dirs, what) == {};
    assert Number(TallyOf(s, calls), Files) == s.fileCount;
    assert Number(TallyOf(s, calls), Folders) == s.directoryCount;
    assert Number(TallyOf(s, calls), Items) == s.itemCount;
  }

  lemma ErrorsAre(g: Graph, dirs: set<Dir>, s: Summary, calls: nat)
    requires forall what: What :: Number(TallyOf(s, calls), what) == |Those(g, Places(g, dirs), what)| + |Unlisted(g, dirs, what)|
    ensures var places := Places(g, dirs);
      forall error :: multiset(s.warnings)[error] ==
        |set p | p in places && (At(g, p) == Broken(error) || At(g, p) == Directory(Failure(error)))|
        + |set d | d in dirs && d in g.listing && g.listing[d] == Failure(error)|
  {
    hide Graph.Entries;
    var places := Places(g, dirs);
    forall error
      ensures multiset(s.warnings)[error] ==
        |set p | p in places && (At(g, p) == Broken(error) || At(g, p) == Directory(Failure(error)))|
        + |set d | d in dirs && d in g.listing && g.listing[d] == Failure(error)|
    {
      assert Number(TallyOf(s, calls), Errors(error)) == multiset(s.warnings)[error];
      assert Those(g, places, Errors(error)) ==
        set p | p in places && (At(g, p) == Broken(error) || At(g, p) == Directory(Failure(error)));
      assert Unlisted(g, dirs, Errors(error)) == set d | d in dirs && d in g.listing && g.listing[d] == Failure(error);
    }
  }

  /** In a closed graph nothing is reached that is not listed. */
  lemma ReachableListed(g: Graph, root: Dir)
    requires g.Closed() && root in g.listing
    ensures forall d :: g.Reachable(root, d) ==> d in g.listing
  {
    var all := g.listing.Keys;
    forall d, e | d in all && g.Edge(d, e) ensures e in all {
      var i :| 0 <= i < |g.Entries(d)| && g.Entries(d)[i] == Directory(Success(e));
      g.EntryClosed(d, i);
    }
    forall d | g.Reachable(root, d) ensures d in all {
      var path :| g.Chain(root, path, d);
      ClosedUnderChains(g, all, root, path, d);
    }
  }

  lemma OneWarning(s: Summary, calls: nat, error: string)
    requires TallyOf(s, calls) == OneError(error) && (s.incomplete <==> s.warnings != [])
    ensures s == Summary(0, 0, 0, 0, [error], true)
  {
    assert |multiset(s.warnings)| == |s.warnings|;
    assert error in multiset(s.warnings);
  }

  /** Without cancellation every finite graph is walked to the end, cycles or not. Every reachable
      directory is expanded exactly once, and the totals are the sums over them. */
  method CalculateFolderSize(g: Graph, root: Root, cancel: CancellationToken)
    returns (r: Result<Summary, WalkError>, calls: seq<Summary>, ghost dirs: seq<Dir>)
    requires g.Closed() && (root.AtDirectory? ==> g.ClosedEntry(Directory(root.target)))
    modifies cancel
    ensures r.Failure? <==> r == Failure(Cancelled) || (root.Elsewhere? && root.file.Failure? && r == Failure(Io(root.file.error)))
    ensures r == Failure(Cancelled) ==> cancel.Cancelled()
    ensures r.Success? && root.Elsewhere? ==>
      && root.file.Success? && calls == []
      && r.value == (match root.file.value case None => Summary(0, 1, 0, 0, [], false) case Some(size) => Summary(size, 1, 1, 0, [], false))
    ensures r.Success? && root.AtDirectory? ==>
      && (r.value.incomplete <==> r.value.warnings != []) && CallsOk(r.value, calls)
      && match root.target
         case Success(d) => Lists(g, d, dirs) && TallyOf(r.value, |calls|) == OfDirs(g, dirs) && Amounts(g, Below(g, d), r.value)
         case Failure(error) => r.value == Summary(0, 0, 0, 0, [error], true)
  {
    calls, dirs := [], [];
    if root.Elsewhere? {
      var cancelled := cancel.IsCancelled();
      if cancelled { return Failure(Cancelled), [], []; }
      match root.file {
        case Failure(error) => r := Failure(Io(error));
        case Success(None) => r := Success(Summary(0, 1, 0, 0, [], false));
        case Success(Some(size)) => r := Success(Summary(size, 1, 1, 0, [], false));
      }
      return;
    }
    r, calls, dirs := WalkFrom(g, root.target, cancel);
  }

  method WalkFrom(g: Graph, target: Result<Dir, string>, cancel: CancellationToken)
    returns (r: Result<Summary, WalkError>, calls: seq<Summary>, ghost dirs: seq<Dir>)
    requires g.Closed() && g.ClosedEntry(Directory(target))
    modifies cancel
    ensures r.Failure? ==> r == Failure(Cancelled) && cancel.Cancelled()
    ensures r.Success? ==>
      && (r.value.incomplete <==> r.value.warnings != []) && CallsOk(r.value, calls)
      && match target
         case Success(d) => Lists(g, d, dirs) && TallyOf(r.value, |calls|) == OfDirs(g, dirs) && Amounts(g, Below(g, d), r.value)
         case Failure(error) => r.value == Summary(0, 0, 0, 0, [error], true)
  {
    hide OfDirs, OfDir, OfEntries, Covered, Distinct, Tally.Plus, Lists, CallsOk, OneError, Amounts, Below;
    hide Graph.Reachable, Graph.Edge, Graph.Closed;
    var walker := new FolderWalker(g, cancel);
    assert walker.Totals() == Nothing;
    var done := walker.VisitFolder(target, {});
    calls, dirs := walker.calls, walker.expanded;
    if done.Failure? { return Failure(Cancelled), calls, dirs; }
    assert dirs[0..] == dirs;
    FromNothing(OfDirs(g, dirs), if target.Failure? then target.error else "");
    if target.Success? {
      VisitedIsReachable(g, target.value, dirs, walker.visited);
    } else {
      HasElement(dirs);
      OfNone(g);
    }
    if target.Success? {
      TotalsAreAmounts(g, target.value, dirs, walker.summary, |calls|);
    } else {
      OneWarning(walker.summary, |calls|, target.error);
    }
    r := Success(walker.summary);
  }

  lemma StillThere(was: seq<Dir>, now: seq<Dir>, n: nat)
    requires n <= |was| && was <= now
    ensures now[..n] == was[..n] && now[n..] == was[n..] + now[|was|..]
  {
  }

  lemma HasElement(dirs: seq<Dir>)
    ensures dirs == [] || exists d :: d in dirs
  {
    if dirs != [] { assert dirs[0] in dirs; }
  }

  lemma FromNothing(t: Tally, error: string)
    ensures Nothing.Plus(t).Plus(Nothing) == t && Nothing.Plus(Nothing).Plus(OneError(error)) == OneError(error)
  {
    hide Tally.Plus, OneError;
    PlusLaws(t, Nothing, Nothing);
    PlusLaws(OneError(error), Nothing, Nothing);
    PlusLaws(Nothing, Nothing, Nothing);
  }

  // ----- the result depends on the graph alone -----

  lemma RemoveOne(g: Graph, dirs: seq<Dir>, k: nat)
    requires k < |dirs| && Distinct(dirs)
    ensures var rest := dirs[..k] + dirs[k + 1..];
      && Distinct(rest) && (forall d :: d in rest <==> d in dirs && d != dirs[k])
      && OfDirs(g, dirs) == OfDirs(g, rest).Plus(OfDir(g, dirs[k]))
  {
    hide OfDir, OfDirs, Tally.Plus;
    var front, back := dirs[..k], dirs[k + 1..];
    Without(dirs, k);
    OfDirsAppend(g, front, [dirs[k]] + back);
    OfFirst(g, dirs[k], back);
    OfDirsAppend(g, front, back);
    PlusSwap(OfDirs(g, front), OfDir(g, dirs[k]), OfDirs(g, back));
  }

  lemma Without(dirs: seq<Dir>, k: nat)
    requires k < |dirs| && Distinct(dirs)
    ensures dirs == dirs[..k] + ([dirs[k]] + dirs[k + 1..])
    ensures var rest := dirs[..k] + dirs[k + 1..];
      Distinct(rest) && (forall d :: d in rest <==> d in dirs && d != dirs[k])
  {
    var rest := dirs[..k] + dirs[k + 1..];
    forall d | d in dirs && d != dirs[k] ensures d in rest {
      var m :| 0 <= m < |dirs| && dirs[m] == d;
      assert rest[if m < k then m else m - 1] == d;
    }
  }

  lemma PlusSwap(a: Tally, b: Tally, c: Tally)
    ensures a.Plus(b.Plus(c)) == a.Plus(c).Plus(b)
  {
  }

  /** The order in which the directories are met does not matter: the totals are those of the
      set of reachable directories. */
  lemma {:induction false} OrderIrrelevant(g: Graph, a: seq<Dir>, b: seq<Dir>)
    requires Distinct(a) && Distinct(b) && forall d :: d in a <==> d in b
    ensures OfDirs(g, a) == OfDirs(g, b)
    decreases |a|
  {
    hide OfDir, OfDirs, Tally.Plus;
    if a == [] {
      HasElement(b);
    } else {
      var n := |a| - 1;
      assert a[n] in b;
      var k :| 0 <= k < |b| && b[k] == a[n];
      RemoveOne(g, a, n);
      RemoveOne(g, b, k);
      assert a[..n] + a[n + 1..] == a[..n];
      OrderIrrelevant(g, a[..n], b[..k] + b[k + 1..]);
    }
  }

  /** A warning is given exactly if it comes from some expanded directory. */
  lemma {:induction false} ErrorsSomewhere(g: Graph, dirs: seq<Dir>, error: string)
    ensures error in OfDirs(g, dirs).errors <==> exists k :: 0 <= k < |dirs| && error in OfDir(g, dirs[k]).errors
  {
    hide OfDir;
    if dirs != [] {
      var n := |dirs| - 1;
      ErrorsSomewhere(g, dirs[..n], error);
      assert OfDirs(g, dirs).errors == OfDirs(g, dirs[..n]).errors + OfDir(g, dirs[n]).errors;
      if k :| 0 <= k < n && error in OfDir(g, dirs[..n][k]).errors { assert dirs[k] == dirs[..n][k]; }
      if k :| 0 <= k < |dirs| && error in OfDir(g, dirs[k]).errors && k < n { assert dirs[k] == dirs[..n][k]; }
    }
  }
}
