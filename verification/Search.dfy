/** The two recursive searches: by name and by content. */
module Search {
  import opened Basics
  import opened Cancellation
  import opened SearchEvents
  import opened SearchMeaning

  datatype SearchError = Cancelled | DestinationMissing

  /** The result that a search fills, and the calls of the match callback: each match with the
      number of matches the result held then. */
  class SearchResult {
    var matches: seq<Match>
    var warnings: seq<string>
    var incomplete: bool
    var calls: seq<(Match, nat)>
    /** Everything reported so far, in order. */
    ghost var events: seq<Event>

    constructor ()
      ensures Valid() && events == []
    {
      matches, warnings, incomplete, calls, events := [], [], false, [], [];
    }

    /** The result holds the reported events; the callback saw each match once, in order. */
    ghost predicate Valid()
      reads this
    {
      && matches == Hits(events) && warnings == SearchEvents.Warnings(events)
      && (incomplete <==> warnings != [])
      && |calls| == |matches| && forall i :: 0 <= i < |calls| ==> calls[i] == (matches[i], i + 1)
    }

    method Warn(error: string)
      requires Valid()
      modifies this
      ensures Valid() && events == old(events) + [Event.Warn(error)]
    {
      hide Hits, SearchEvents.Warnings;
      ReportAppend(events, [Event.Warn(error)]);
      ReportOne(Event.Warn(error));
      incomplete := true;
      warnings := warnings + [error];
      events := events + [Event.Warn(error)];
    }

    method Push(m: Match)
      requires Valid()
      modifies this
      ensures Valid() && events == old(events) + [Hit(m)]
    {
      hide Hits, SearchEvents.Warnings;
      ReportAppend(events, [Hit(m)]);
      ReportOne(Hit(m));
      matches := matches + [m];
      events := events + [Hit(m)];
      calls := calls + [(matches[|matches| - 1], |matches|)];
    }
  }

  /** The result is what it was, followed by what the limit leaves of `more`. */
  ghost predicate Added(before: seq<Event>, after: seq<Event>, more: seq<Event>, limit: nat) {
    |Hits(before)| <= limit && after == before + Cut(more, limit - |Hits(before)|)
  }

  /** The same, broken off somewhere. */
  ghost predicate PartAdded(before: seq<Event>, after: seq<Event>, more: seq<Event>, limit: nat) {
    |Hits(before)| <= limit && before <= after <= before + Cut(more, limit - |Hits(before)|)
  }

  /** One step after another. */
  lemma AddedTwice(e0: seq<Event>, e1: seq<Event>, e2: seq<Event>, a: seq<Event>, b: seq<Event>, limit: nat)
    requires Added(e0, e1, a, limit)
    ensures |Hits(e1)| <= limit
    ensures Added(e1, e2, b, limit) ==> Added(e0, e2, a + b, limit)
    ensures PartAdded(e1, e2, b, limit) ==> PartAdded(e0, e2, a + b, limit)
  {
    CutTwice(a, b, limit - |Hits(e0)|);
    ReportAppend(e0, Cut(a, limit - |Hits(e0)|));
  }

  /** Once the limit is reached, or after breaking off, more to report changes nothing. */
  lemma AddedStops(e0: seq<Event>, e1: seq<Event>, a: seq<Event>, b: seq<Event>, limit: nat)
    ensures Added(e0, e1, a, limit) && |Hits(e1)| >= limit ==> Added(e0, e1, a + b, limit)
    ensures PartAdded(e0, e1, a, limit) ==> PartAdded(e0, e1, a + b, limit)
    ensures Added(e0, e1, a, limit) ==> PartAdded(e0, e1, a, limit)
  {
    if |Hits(e0)| <= limit {
      var n := limit - |Hits(e0)|;
      CutTwice(a, b, n);
      ReportAppend(e0, Cut(a, n));
    }
  }

  lemma AddedNothing(e: seq<Event>, limit: nat)
    requires |Hits(e)| <= limit
    ensures Added(e, e, [], limit)
    ensures forall more :: |Hits(e)| == limit ==> Added(e, e, more, limit)
    ensures forall more :: PartAdded(e, e, more, limit)
  {
  }

  lemma AddedOne(e: seq<Event>, x: Event, limit: nat)
    requires |Hits(e)| < limit
    ensures Added(e, e + [x], [x], limit) && |Hits(e + [x])| <= limit
  {
    ReportAppend(e, [x]);
    ReportOne(x);
    assert Cut([x], limit - |Hits(e)|) == [x] + Cut([x][1..], if x.Hit? then limit - |Hits(e)| - 1 else limit - |Hits(e)|);
  }

  // ----- by name -----

  method SearchFolder(folder: Folder, query: string, limit: nat, result: SearchResult, cancel: CancellationToken) returns (r: Result<(), SearchError>)
    requires result.Valid() && |result.matches| <= limit
    modifies result, cancel
    ensures result.Valid() && |result.matches| <= limit
    ensures r.Success? ==> Added(old(result.events), result.events, NameFolder(folder, query), limit)
    ensures r.Failure? ==> r.error == Cancelled && cancel.Cancelled()
    ensures r.Failure? ==> PartAdded(old(result.events), result.events, NameFolder(folder, query), limit)
    decreases folder
  {
    hide Added, PartAdded, Hits, SearchEvents.Warnings, Cut, Contains;
    AddedNothing(result.events, limit);
    var cancelled := cancel.IsCancelled();
    if cancelled { return Failure(Cancelled); }
    if |result.matches| >= limit { return Success(()); }
    if folder.Unreadable? {
      AddedOne(result.events, Event.Warn(folder.error), limit);
      result.Warn(folder.error);
      return Success(());
    }
    var entries := folder.entries;
    for i := 0 to |entries|
      invariant result.Valid() && |result.matches| <= limit
      invariant Added(old(result.events), result.events, NameEntries(entries[..i], query), limit)
    {
      ghost var before, done := result.events, NameEntries(entries[..i], query);
      ghost var rest := NameEntriesSplit(entries, i, query);
      AddedStops(old(result.events), before, done, NameEntry(entries[i], query) + rest, limit);
      cancelled := cancel.IsCancelled();
      if cancelled { return Failure(Cancelled); }
      if |result.matches| >= limit { return Success(()); }
      r := SearchEntry(entries[i], query, limit, result, cancel);
      AddedTwice(old(result.events), before, result.events, done, NameEntry(entries[i], query), limit);
      if r.Failure? {
        AddedStops(old(result.events), result.events, done + NameEntry(entries[i], query), rest, limit);
        assert done + (NameEntry(entries[i], query) + rest) == done + NameEntry(entries[i], query) + rest;
        return r;
      }
    }
    assert entries[..|entries|] == entries;
    r := Success(());
  }

  /** One readable entry, after the checks. */
  method SearchEntry(e: Entry, query: string, limit: nat, result: SearchResult, cancel: CancellationToken) returns (r: Result<(), SearchError>)
    requires result.Valid() && |result.matches| < limit
    modifies result, cancel
    ensures result.Valid() && |result.matches| <= limit
    ensures r.Success? ==> Added(old(result.events), result.events, NameEntry(e, query), limit)
    ensures r.Failure? ==> r.error == Cancelled && cancel.Cancelled()
    ensures r.Failure? ==> PartAdded(old(result.events), result.events, NameEntry(e, query), limit)
    decreases e
  {
    hide Added, PartAdded, Hits, SearchEvents.Warnings, Cut, Contains;
    AddedNothing(result.events, limit);
    if e.Broken? {
      AddedOne(result.events, Event.Warn(e.error), limit);
      result.Warn(e.error);
      return Success(());
    }
    if Contains(e.lowerName, query) && e.uri.Some? && e.parentUri.Some? {
      var m := NameMatch(e.uri.value, e.parentUri.value, e.name, if e.kind.File? then Some(e.kind.size) else None);
      AddedOne(result.events, Hit(m), limit);
      result.Push(m);
    }
    ghost var hit := result.events;
    assert NameHit(e, query) + [] == NameHit(e, query);
    if e.kind.Subfolder? {
      r := SearchFolder(e.kind.folder, query, limit, result, cancel);
      AddedTwice(old(result.events), hit, result.events, NameHit(e, query), NameFolder(e.kind.folder, query), limit);
    } else {
      r := Success(());
    }
  }

  lemma {:induction false} NameEntriesSplit(entries: seq<Entry>, i: nat, query: string) returns (rest: seq<Event>)
    requires i < |entries|
    ensures NameEntries(entries[..i + 1], query) == NameEntries(entries[..i], query) + NameEntry(entries[i], query)
    ensures NameEntries(entries, query) == NameEntries(entries[..i], query) + (NameEntry(entries[i], query) + rest)
    decreases |entries| - i
  {
    hide NameEntry;
    assert entries[..i + 1][..i] == entries[..i];
    if i + 1 < |entries| {
      var more := NameEntriesSplit(entries, i + 1, query);
      rest := NameEntry(entries[i + 1], query) + more;
    } else {
      assert entries[..i + 1] == entries;
      rest := [];
    }
  }

  /** What the caller of a search is told. */
  datatype Found = Found(matches: seq<Match>, warnings: seq<string>, incomplete: bool, calls: seq<(Match, nat)>)

  /** The result of a limited search, said by the events of the unlimited one: the first n
      matches, the warnings met before the last of them, and one callback per match in order. */
  ghost predicate FirstOf(found: Found, all: seq<Event>, n: nat) {
    && found.matches == Hits(Cut(all, n)) && found.warnings == SearchEvents.Warnings(Cut(all, n))
    && (found.incomplete <==> found.warnings != [])
    && |found.calls| == |found.matches| && forall i :: 0 <= i < |found.calls| ==> found.calls[i] == (found.matches[i], i + 1)
  }

  /** Said plainly: the first n matches, and warnings that begin as those of the unlimited search
      and are all of them if it has fewer matches. */
  predicate FirstMatches(found: Found, all: seq<Event>, n: nat) {
    && found.matches == Hits(all)[..if |Hits(all)| < n then |Hits(all)| else n]
    && found.warnings <= SearchEvents.Warnings(all)
    && (|Hits(all)| < n ==> found.warnings == SearchEvents.Warnings(all))
  }

  lemma FirstOfMeaning(found: Found, all: seq<Event>, n: nat)
    requires FirstOf(found, all, n)
    ensures FirstMatches(found, all, n)
  {
    CutMeaning(all, n);
  }

  lemma AddedToNothing(events: seq<Event>, more: seq<Event>, limit: nat)
    requires Added([], events, more, limit)
    ensures events == Cut(more, limit)
  {
  }

  const NothingFound := Found([], [], false, [])

  function AtLeastOne(limit: nat): (n: nat)
    ensures n > 0 && (limit > 0 ==> n == limit)
  {
    if limit == 0 then 1 else limit
  }

  /** The search by name below a directory; None where the path is no directory. `query` is
      trimmed and in lower case. */
  method RecursiveSearch(root: Option<Folder>, query: string, limit: nat, cancel: CancellationToken)
    returns (r: Result<Found, SearchError>, ghost at: seq<Pos>, ghost warned: seq<Pos>)
    modifies cancel
    ensures query == "" ==> r == Success(NothingFound)
    ensures query != "" && root.None? ==> r == Failure(DestinationMissing)
    ensures query != "" && root.Some? && r.Success? ==>
      && FirstOf(r.value, NameFolder(root.value, query), AtLeastOne(limit))
      && FirstMatches(r.value, NameFolder(root.value, query), AtLeastOne(limit))
      && Told(ByName(query), root.value, AtLeastOne(limit), true, r.value.matches, r.value.warnings, at, warned)
    ensures query != "" && root.Some? && r.Failure? ==> r.error == Cancelled && cancel.Cancelled()
  {
    hide Hits, SearchEvents.Warnings, Cut, NameFolder, Told;
    at, warned := [], [];
    if query == "" { return Success(NothingFound), [], []; }
    if root.None? { return Failure(DestinationMissing), [], []; }
    var result := new SearchResult();
    NoHits();
    var done := SearchFolder(root.value, query, AtLeastOne(limit), result, cancel);
    if done.Failure? { return Failure(done.error), [], []; }
    AddedToNothing(result.events, NameFolder(root.value, query), AtLeastOne(limit));
    var found := Found(result.matches, result.warnings, result.incomplete, result.calls);
    FirstOfMeaning(found, NameFolder(root.value, query), AtLeastOne(limit));
    at, warned := CutIsTold(ByName(query), root.value, AtLeastOne(limit), |NameFolder(root.value, query)|, true);
    r := Success(found);
  }

  /** A cut walk, seen by the places of the tree. */
  lemma CutIsTold(q: Query, folder: Folder, n: nat, shown: nat, whole: bool) returns (at: seq<Pos>, warned: seq<Pos>)
    requires n > 0 && shown <= |AllEvents(q, folder)| && (whole ==> shown == |AllEvents(q, folder)|)
    ensures var events := Cut(AllEvents(q, folder)[..shown], n);
      Told(q, folder, n, whole, Hits(events), SearchEvents.Warnings(events), at, warned)
    ensures AllEvents(q, folder)[..|AllEvents(q, folder)|] == AllEvents(q, folder)
  {
    hide Hits, SearchEvents.Warnings, Cut, AllEvents, Told;
    var all := AllEvents(q, folder);
    CutMeaning(all[..shown], n);
    at, warned := ToldByWalk(q, folder, n, whole, Cut(all[..shown], n));
  }

  // ----- by content -----

  method SearchFolderContent(folder: Folder, sel: Selection, find: Finder, limit: nat, result: SearchResult, cancel: CancellationToken) returns (r: Result<(), SearchError>)
    requires result.Valid() && |result.matches| <= limit
    modifies result, cancel
    ensures result.Valid() && |result.matches| <= limit
    ensures old(cancel.Cancelled()) ==> cancel.Cancelled()
    ensures r.Success? && !cancel.Cancelled() ==> Added(old(result.events), result.events, ContentFolder(folder, sel, find), limit)
    ensures r.Failure? ==> r.error == Cancelled && cancel.Cancelled()
    ensures cancel.Cancelled() ==> PartAdded(old(result.events), result.events, ContentFolder(folder, sel, find), limit)
    decreases folder
  {
    hide Added, PartAdded, Hits, SearchEvents.Warnings, Cut, Contains;
    AddedNothing(result.events, limit);
    var cancelled := cancel.IsCancelled();
    if cancelled { return Failure(Cancelled); }
    if |result.matches| >= limit { return Success(()); }
    if folder.Unreadable? {
      AddedOne(result.events, Event.Warn(folder.error), limit);
      result.Warn(folder.error);
      AddedStops(old(result.events), result.events, [Event.Warn(folder.error)], [], limit);
      assert [Event.Warn(folder.error)] + [] == [Event.Warn(folder.error)];
      return Success(());
    }
    var entries := folder.entries;
    for i := 0 to |entries|
      invariant result.Valid() && |result.matches| <= limit
      invariant !cancel.Cancelled() ==> Added(old(result.events), result.events, ContentEntries(entries[..i], sel, find), limit)
      invariant PartAdded(old(result.events), result.events, ContentEntries(entries[..i], sel, find), limit)
    {
      ghost var before, done := result.events, ContentEntries(entries[..i], sel, find);
      ghost var rest := ContentEntriesSplit(entries, i, sel, find);
      AddedStops(old(result.events), before, done, ContentEntry(entries[i], sel, find) + rest, limit);
      AddedStops(old(result.events), before, done, ContentEntry(entries[i], sel, find), limit);
      cancelled := cancel.IsCancelled();
      if cancelled { return Failure(Cancelled); }
      if |result.matches| >= limit { return Success(()); }
      r := SearchEntryContent(entries[i], sel, find, limit, result, cancel);
      AddedTwice(old(result.events), before, result.events, done, ContentEntry(entries[i], sel, find), limit);
      AddedStops(old(result.events), result.events, done + ContentEntry(entries[i], sel, find), [], limit);
      assert done + ContentEntry(entries[i], sel, find) + [] == done + ContentEntry(entries[i], sel, find);
      if r.Failure? {
        AddedStops(old(result.events), result.events, done + ContentEntry(entries[i], sel, find), rest, limit);
        assert done + (ContentEntry(entries[i], sel, find) + rest) == done + ContentEntry(entries[i], sel, find) + rest;
        return r;
      }
    }
    assert entries[..|entries|] == entries;
    r := Success(());
  }

  /** One entry, after the checks. A file is left without a word when the search is cancelled;
      whoever comes next finds out. */
  method SearchEntryContent(e: Entry, sel: Selection, find: Finder, limit: nat, result: SearchResult, cancel: CancellationToken) returns (r: Result<(), SearchError>)
    requires result.Valid() && |result.matches| < limit
    modifies result, cancel
    ensures result.Valid() && |result.matches| <= limit
    ensures old(cancel.Cancelled()) ==> cancel.Cancelled()
    ensures r.Success? && !cancel.Cancelled() ==> Added(old(result.events), result.events, ContentEntry(e, sel, find), limit)
    ensures r.Failure? ==> r.error == Cancelled && cancel.Cancelled()
    ensures cancel.Cancelled() ==> PartAdded(old(result.events), result.events, ContentEntry(e, sel, find), limit)
    decreases e
  {
    hide Added, PartAdded, Hits, SearchEvents.Warnings, Cut, Contains, FileEvents;
    AddedNothing(result.events, limit);
    r := Success(());
    if e.Broken? {
      AddedOne(result.events, Event.Warn(e.error), limit);
      result.Warn(e.error);
      AddedStops(old(result.events), result.events, [Event.Warn(e.error)], [], limit);
      assert [Event.Warn(e.error)] + [] == [Event.Warn(e.error)];
    } else if e.kind.Subfolder? {
      r := SearchFolderContent(e.kind.folder, sel, find, limit, result, cancel);
    } else if e.kind.File? {
      if e.kind.size > sel.maxFileSize { return; }
      if !sel.wanted(e.name) { return; }
      SearchFileContent(e, e.kind.content, find, limit, result, cancel);
    }
  }

  method SearchFileContent(e: Entry, content: FileContent, find: Finder, limit: nat, result: SearchResult, cancel: CancellationToken)
    requires e.Item? && result.Valid() && |result.matches| <= limit
    modifies result, cancel
    ensures result.Valid() && |result.matches| <= limit
    ensures old(cancel.Cancelled()) ==> cancel.Cancelled()
    ensures !cancel.Cancelled() ==> Added(old(result.events), result.events, FileEvents(e, content, find), limit)
    ensures PartAdded(old(result.events), result.events, FileEvents(e, content, find), limit)
  {
    hide Added, PartAdded, Hits, SearchEvents.Warnings, Cut, Contains;
    AddedNothing(result.events, limit);
    var cancelled := cancel.IsCancelled();
    if cancelled { return; }
    if |result.matches| >= limit { return; }
    if content.Unopenable? {
      AddedOne(result.events, Event.Warn(content.error), limit);
      result.Warn(content.error);
      AddedStops(old(result.events), result.events, [Event.Warn(content.error)], [], limit);
      assert [Event.Warn(content.error)] + [] == [Event.Warn(content.error)];
      return;
    }
    if content.NoMetadata? || e.uri.None? { return; }
    var parentUri := if e.parentUri.Some? then e.parentUri.value else "";
    var lines := content.lines;
    for i := 0 to |lines|
      invariant result.Valid() && |result.matches| <= limit
      invariant Added(old(result.events), result.events, LineEvents(e, lines[..i], find), limit)
    {
      ghost var before, done := result.events, LineEvents(e, lines[..i], find);
      ghost var rest := LineEventsSplit(e, lines, i, find);
      AddedStops(old(result.events), before, done, LineEvent(e, lines[i], i + 1, find) + rest, limit);
      cancelled := cancel.IsCancelled();
      if cancelled { return; }
      if |result.matches| >= limit { return; }
      AddedNothing(before, limit);
      if lines[i].Some? {
        var at := find(lines[i].value);
        if at.Some? {
          var m := LineMatch(e.uri.value, parentUri, e.name, i + 1, lines[i].value, at.value.0, at.value.1);
          AddedOne(before, Hit(m), limit);
          result.Push(m);
        }
      }
      AddedTwice(old(result.events), before, result.events, done, LineEvent(e, lines[i], i + 1, find), limit);
    }
    assert lines[..|lines|] == lines;
    AddedStops(old(result.events), result.events, LineEvents(e, lines, find), [], limit);
    assert LineEvents(e, lines, find) + [] == LineEvents(e, lines, find);
  }

  lemma {:induction false} LineEventsSplit(e: Entry, lines: seq<Option<string>>, i: nat, find: Finder) returns (rest: seq<Event>)
    requires e.Item? && e.uri.Some? && i < |lines|
    ensures LineEvents(e, lines[..i + 1], find) == LineEvents(e, lines[..i], find) + LineEvent(e, lines[i], i + 1, find)
    ensures LineEvents(e, lines, find) == LineEvents(e, lines[..i], find) + (LineEvent(e, lines[i], i + 1, find) + rest)
    decreases |lines| - i
  {
    hide LineEvent;
    assert lines[..i + 1][..i] == lines[..i];
    if i + 1 < |lines| {
      var more := LineEventsSplit(e, lines, i + 1, find);
      rest := LineEvent(e, lines[i + 1], i + 2, find) + more;
    } else {
      assert lines[..i + 1] == lines;
      rest := [];
    }
  }

  lemma {:induction false} ContentEntriesSplit(entries: seq<Entry>, i: nat, sel: Selection, find: Finder) returns (rest: seq<Event>)
    requires i < |entries|
    ensures ContentEntries(entries[..i + 1], sel, find) == ContentEntries(entries[..i], sel, find) + ContentEntry(entries[i], sel, find)
    ensures ContentEntries(entries, sel, find) == ContentEntries(entries[..i], sel, find) + (ContentEntry(entries[i], sel, find) + rest)
    decreases |entries| - i
  {
    hide ContentEntry;
    assert entries[..i + 1][..i] == entries[..i];
    if i + 1 < |entries| {
      var more := ContentEntriesSplit(entries, i + 1, sel, find);
      rest := ContentEntry(entries[i + 1], sel, find) + more;
    } else {
      assert entries[..i + 1] == entries;
      rest := [];
    }
  }

  /** The search by content. An invalid regular expression is reported as a warning of a result
      that is not called incomplete. A search that was cancelled may still succeed, with the
      first part of what it would have found: the last file is left without a word. */
  method ContentSearch(root: Option<Folder>, query: string, sel: Selection, finder: Result<Finder, string>, limit: nat, cancel: CancellationToken)
    returns (r: Result<Found, SearchError>, ghost shown: nat, ghost at: seq<Pos>, ghost warned: seq<Pos>)
    modifies cancel
    ensures query == "" ==> r == Success(NothingFound)
    ensures query != "" && root.None? ==> r == Failure(DestinationMissing)
    ensures query != "" && root.Some? && finder.Failure? ==> r == Success(NothingFound.(warnings := [finder.error]))
    ensures query != "" && root.Some? && finder.Success? && r.Success? ==>
      && shown <= |ContentFolder(root.value, sel, finder.value)|
      && FirstOf(r.value, ContentFolder(root.value, sel, finder.value)[..shown], AtLeastOne(limit))
      && FirstMatches(r.value, ContentFolder(root.value, sel, finder.value)[..shown], AtLeastOne(limit))
      && (!cancel.Cancelled() ==> shown == |ContentFolder(root.value, sel, finder.value)|)
      && Told(ByContent(sel, finder.value), root.value, AtLeastOne(limit), !cancel.Cancelled(), r.value.matches, r.value.warnings, at, warned)
    ensures r.Failure? && root.Some? ==> r.error == Cancelled && cancel.Cancelled()
  {
    hide Hits, SearchEvents.Warnings, Cut, ContentFolder, Told, Added, PartAdded;
    shown, at, warned := 0, [], [];
    if query == "" { return Success(NothingFound), 0, [], []; }
    if root.None? { return Failure(DestinationMissing), 0, [], []; }
    if finder.Failure? { return Success(NothingFound.(warnings := [finder.error])), 0, [], []; }
    var result := new SearchResult();
    NoHits();
    var done := SearchFolderContent(root.value, sel, finder.value, AtLeastOne(limit), result, cancel);
    if done.Failure? { return Failure(done.error), 0, [], []; }
    ghost var all := ContentFolder(root.value, sel, finder.value);
    shown := Shown(result.events, all, AtLeastOne(limit), !cancel.Cancelled());
    var found := Found(result.matches, result.warnings, result.incomplete, result.calls);
    FirstOfMeaning(found, all[..shown], AtLeastOne(limit));
    at, warned := CutIsTold(ByContent(sel, finder.value), root.value, AtLeastOne(limit), shown, !cancel.Cancelled());
    r := Success(found);
  }

  lemma Shown(events: seq<Event>, all: seq<Event>, limit: nat, complete: bool) returns (shown: nat)
    requires complete ==> Added([], events, all, limit)
    requires !complete ==> PartAdded([], events, all, limit)
    ensures shown <= |all| && events == Cut(all[..shown], limit) && (complete ==> shown == |all|)
  {
    if complete {
      shown := |all|;
      assert all[..shown] == all;
    } else {
      CutMeaning(all, limit);
      assert [] + Cut(all, limit) == Cut(all, limit);
      shown := |events|;
      assert all[..shown] == events;
      CutShort(events, all, limit);
    }
  }

  /** A first part of a cut list is not cut any further. */
  lemma {:induction false} CutShort(a: seq<Event>, all: seq<Event>, n: nat)
    requires a <= Cut(all, n)
    ensures Cut(a, n) == a
  {
    if a != [] {
      CutShort(a[1..], all[1..], if a[0].Hit? then n - 1 else n);
      assert a == [a[0]] + a[1..];
    }
  }
}
