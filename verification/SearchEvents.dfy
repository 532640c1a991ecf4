/** The trees that are searched, what an unlimited depth-first search reports about them, and
    where a limit cuts that report off. */
module SearchEvents {
  import opened Basics

  datatype Match =
    | NameMatch(uri: string, parentUri: string, name: string, size: Option<nat>)
    | LineMatch(uri: string, parentUri: string, name: string, lineNumber: nat, line: string, start: nat, end: nat)

  /** What opening and reading a file yields; a line that cannot be decoded is None. */
  datatype FileContent = Unopenable(error: string) | NoMetadata | Lines(lines: seq<Option<string>>)

  datatype Folder = Unreadable(error: string) | Readable(entries: seq<Entry>)

  /** An entry that cannot be read or looked at, or an item. A symbolic link is `Other`. */
  datatype Entry =
    | Broken(error: string)
    | Item(name: string, lowerName: string, uri: Option<string>, parentUri: Option<string>, kind: Kind)

  datatype Kind = Subfolder(folder: Folder) | File(size: nat, content: FileContent) | Other

  // ----- events -----

  datatype Event = Hit(found: Match) | Warn(error: string)

  function Hits(events: seq<Event>): seq<Match> {
    if events == [] then []
    else (if events[0].Hit? then [events[0].found] else []) + Hits(events[1..])
  }

  function Warnings(events: seq<Event>): seq<string> {
    if events == [] then []
    else (if events[0].Warn? then [events[0].error] else []) + Warnings(events[1..])
  }

  /** The events up to and including the n-th hit, or all of them if there are fewer. */
  function Cut(events: seq<Event>, n: nat): seq<Event> {
    if events == [] || n == 0 then []
    else [events[0]] + Cut(events[1..], if events[0].Hit? then n - 1 else n)
  }

  lemma {:induction false} HitsAppend(a: seq<Event>, b: seq<Event>)
    ensures Hits(a + b) == Hits(a) + Hits(b)
  {
    if a == [] {
      assert a + b == b;
    } else {
      var first: seq<Match>, rest := if a[0].Hit? then [a[0].found] else [], a[1..];
      assert (a + b)[1..] == rest + b && (a + b)[0] == a[0];
      HitsAppend(rest, b);
      assert first + (Hits(rest) + Hits(b)) == first + Hits(rest) + Hits(b);
    }
  }

  lemma {:induction false} WarningsAppend(a: seq<Event>, b: seq<Event>)
    ensures Warnings(a + b) == Warnings(a) + Warnings(b)
  {
    if a == [] {
      assert a + b == b;
    } else {
      var first: seq<string>, rest := if a[0].Warn? then [a[0].error] else [], a[1..];
      assert (a + b)[1..] == rest + b && (a + b)[0] == a[0];
      WarningsAppend(rest, b);
      assert first + (Warnings(rest) + Warnings(b)) == first + Warnings(rest) + Warnings(b);
    }
  }

  lemma ReportAppend(a: seq<Event>, b: seq<Event>)
    ensures Hits(a + b) == Hits(a) + Hits(b)
    ensures Warnings(a + b) == Warnings(a) + Warnings(b)
  {
    HitsAppend(a, b);
    WarningsAppend(a, b);
  }

  lemma NoHits()
    ensures Hits([]) == []
  {
  }

  lemma HitsFirst(a: seq<Event>)
    requires a != []
    ensures |Hits(a)| == |Hits(a[1..])| + if a[0].Hit? then 1 else 0
  {
  }

  lemma ReportOne(e: Event)
    ensures Hits([e]) == (if e.Hit? then [e.found] else []) && Warnings([e]) == (if e.Warn? then [e.error] else [])
  {
  }

  /** A limited search is a first part of the unlimited one, with the first n of its matches. */
  lemma {:induction false} CutMeaning(events: seq<Event>, n: nat)
    ensures Cut(events, n) <= events
    ensures Hits(Cut(events, n)) <= Hits(events) && Warnings(Cut(events, n)) <= Warnings(events)
    ensures |Hits(Cut(events, n))| == if |Hits(events)| < n then |Hits(events)| else n
    ensures |Hits(events)| < n ==> Cut(events, n) == events
    ensures n > 0 && |Hits(events)| >= n ==> Cut(events, n) != [] && Cut(events, n)[|Cut(events, n)| - 1].Hit?
  {
    if events != [] && n > 0 {
      var m := if events[0].Hit? then n - 1 else n;
      CutMeaning(events[1..], m);
      var rest := Cut(events[1..], m);
      assert Cut(events, n)[1..] == rest;
      assert events == [events[0]] + events[1..];
    }
  }

  /** Cutting two searches in a row: the second one is only made if the first did not fill up. */
  lemma {:induction false} CutAppend(a: seq<Event>, b: seq<Event>, n: nat)
    ensures |Hits(a)| >= n ==> Cut(a + b, n) == Cut(a, n)
    ensures |Hits(a)| < n ==> Cut(a + b, n) == a + Cut(b, n - |Hits(a)|)
  {
    hide Hits;
    if a == [] {
      assert a + b == b && |Hits(a)| == 0 by { NoHits(); }
    } else if n > 0 {
      var rest, m := a[1..], if a[0].Hit? then n - 1 else n;
      assert (a + b)[1..] == rest + b && (a + b)[0] == a[0];
      CutAppend(rest, b, m);
      HitsFirst(a);
      if |Hits(rest)| < m { assert [a[0]] + (rest + Cut(b, m - |Hits(rest)|)) == [a[0]] + rest + Cut(b, m - |Hits(rest)|); }
      assert a == [a[0]] + rest;
    }
  }

  /** The same for the cut first part. */
  lemma CutTwice(a: seq<Event>, b: seq<Event>, n: nat)
    ensures |Hits(Cut(a, n))| <= n
    ensures Cut(a + b, n) == Cut(a, n) + Cut(b, n - |Hits(Cut(a, n))|)
  {
    CutMeaning(a, n);
    CutAppend(a, b, n);
  }

  // ----- the unlimited searches -----

  predicate Contains(text: string, part: string) {
    exists i: nat | i <= |text| :: OccursAt(text, part, i)
  }

  predicate OccursAt(text: string, part: string, i: nat) {
    i + |part| <= |text| && text[i..i + |part|] == part
  }

  /** An entry whose name contains the query is reported before what is below it. */
  function NameHit(e: Entry, query: string): seq<Event>
    requires e.Item?
  {
    if Contains(e.lowerName, query) && e.uri.Some? && e.parentUri.Some? then
      [Hit(NameMatch(e.uri.value, e.parentUri.value, e.name, if e.kind.File? then Some(e.kind.size) else None))]
    else []
  }

  function NameEntry(e: Entry, query: string): seq<Event>
    decreases e
  {
    match e
    case Broken(error) => [Warn(error)]
    case Item(_, _, _, _, kind) => NameHit(e, query) + if kind.Subfolder? then NameFolder(kind.folder, query) else []
  }

  function NameEntries(entries: seq<Entry>, query: string): seq<Event>
    decreases entries
  {
    if entries == [] then [] else NameEntries(entries[..|entries| - 1], query) + NameEntry(entries[|entries| - 1], query)
  }

  function NameFolder(folder: Folder, query: string): seq<Event>
    decreases folder
  {
    match folder
    case Unreadable(error) => [Warn(error)]
    case Readable(entries) => NameEntries(entries, query)
  }

  // ----- the same for file contents -----

  /** Where a line matches: a regular expression or a plain text, with or without case. */
  type Finder = string -> Option<(nat, nat)>

  function LineEvents(e: Entry, lines: seq<Option<string>>, find: Finder): seq<Event>
    requires e.Item? && e.uri.Some?
  {
    if lines == [] then []
    else LineEvents(e, lines[..|lines| - 1], find) + LineEvent(e, lines[|lines| - 1], |lines|, find)
  }

  /** A line yields at most one match, its first; undecodable lines are passed over in silence. */
  function LineEvent(e: Entry, line: Option<string>, number: nat, find: Finder): seq<Event>
    requires e.Item? && e.uri.Some?
  {
    match line
    case None => []
    case Some(text) =>
      match find(text)
      case None => []
      case Some((start, end)) =>
        [Hit(LineMatch(e.uri.value, if e.parentUri.Some? then e.parentUri.value else "", e.name, number, text, start, end))]
  }

  function FileEvents(e: Entry, content: FileContent, find: Finder): seq<Event>
    requires e.Item?
  {
    match content
    case Unopenable(error) => [Warn(error)]
    case NoMetadata => []
    case Lines(lines) => if e.uri.Some? then LineEvents(e, lines, find) else []
  }

  /** Which files are read at all. */
  datatype Selection = Selection(maxFileSize: nat, wanted: string -> bool)

  function ContentEntry(e: Entry, sel: Selection, find: Finder): seq<Event>
    decreases e
  {
    match e
    case Broken(error) => [Warn(error)]
    case Item(name, _, _, _, kind) =>
      match kind
      case Subfolder(folder) => ContentFolder(folder, sel, find)
      case File(size, content) => if size > sel.maxFileSize || !sel.wanted(name) then [] else FileEvents(e, content, find)
      case Other => []
  }

  function ContentEntries(entries: seq<Entry>, sel: Selection, find: Finder): seq<Event>
    decreases entries
  {
    if entries == [] then []
    else ContentEntries(entries[..|entries| - 1], sel, find) + ContentEntry(entries[|entries| - 1], sel, find)
  }

  function ContentFolder(folder: Folder, sel: Selection, find: Finder): seq<Event>
    decreases folder
  {
    match folder
    case Unreadable(error) => [Warn(error)]
    case Readable(entries) => ContentEntries(entries, sel, find)
  }
}
