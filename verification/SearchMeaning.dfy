/** What a search finds, said of the tree alone: which places it reports, in which order, and what
    a limit leaves out. */
module SearchMeaning {
  import opened Basics
  import opened SearchEvents

  /** A way from the folder searched to a place in it: the index of an entry there, of an entry in
      that one, and so on. A line of a file is at the way to the file with the index of the line
      added; an unreadable folder has one place in it, number 0, for its error. */
  type Pos = seq<nat>

  /** Depth first: what is in a place comes right after it. */
  predicate Before(p: Pos, q: Pos)
    decreases p
  {
    q != [] && (p == [] || p[0] < q[0] || (p[0] == q[0] && Before(p[1..], q[1..])))
  }

  predicate Ascending(at: seq<Pos>) {
    forall i, k :: 0 <= i < k < |at| ==> Before(at[i], at[k])
  }

  function EntryAt(folder: Folder, pos: Pos): Option<Entry>
    decreases pos
  {
    if pos == [] || folder.Unreadable? || pos[0] >= |folder.entries| then None
    else
      var e := folder.entries[pos[0]];
      if |pos| == 1 then Some(e)
      else if e.Item? && e.kind.Subfolder? then EntryAt(e.kind.folder, pos[1..])
      else None
  }

  function FolderAt(folder: Folder, pos: Pos): Option<Folder> {
    if pos == [] then Some(folder)
    else
      var e := EntryAt(folder, pos);
      if e.Some? && e.value.Item? && e.value.kind.Subfolder? then Some(e.value.kind.folder) else None
  }

  /** The two kinds of search. */
  datatype Query = ByName(text: string) | ByContent(sel: Selection, find: Finder)

  /** An item with both addresses whose lower-case name contains the text. */
  predicate NameMatchAt(folder: Folder, pos: Pos, text: string, m: Match) {
    var e := EntryAt(folder, pos);
    && e.Some? && e.value.Item? && Contains(e.value.lowerName, text)
    && m.NameMatch? && e.value.uri == Some(m.uri) && e.value.parentUri == Some(m.parentUri) && m.name == e.value.name
    && (e.value.kind.File? ==> m.size == Some(e.value.kind.size))
    && (!e.value.kind.File? ==> m.size == None)
  }

  /** A file that is opened: not too large, and with a wanted name. */
  predicate Chosen(e: Entry, sel: Selection) {
    e.Item? && e.kind.File? && e.kind.size <= sel.maxFileSize && sel.wanted(e.name)
  }

  /** A readable line of a chosen file in which the finder finds something. */
  predicate LineMatchAt(folder: Folder, pos: Pos, sel: Selection, find: Finder, m: Match) {
    && |pos| >= 2
    && var e, k := EntryAt(folder, pos[..|pos| - 1]), pos[|pos| - 1];
    && e.Some? && Chosen(e.value, sel) && e.value.kind.content.Lines?
    && k < |e.value.kind.content.lines|
    && m.LineMatch? && m.lineNumber == k + 1
    && e.value.kind.content.lines[k] == Some(m.line) && find(m.line) == Some((m.start, m.end))
    && e.value.uri == Some(m.uri) && m.name == e.value.name
    && (e.value.parentUri.Some? ==> m.parentUri == e.value.parentUri.value)
    && (e.value.parentUri.None? ==> m.parentUri == "")
  }

  predicate MatchAt(q: Query, folder: Folder, pos: Pos, m: Match) {
    match q
    case ByName(text) => NameMatchAt(folder, pos, text, m)
    case ByContent(sel, find) => LineMatchAt(folder, pos, sel, find, m)
  }

  /** A broken entry, an unreadable folder, or, where contents are searched, a chosen file that
      cannot be opened. */
  predicate WarningAt(q: Query, folder: Folder, pos: Pos, error: string) {
    || EntryAt(folder, pos) == Some(Broken(error))
    || (pos != [] && pos[|pos| - 1] == 0 && FolderAt(folder, pos[..|pos| - 1]) == Some(Unreadable(error)))
    || (q.ByContent?
        && var e := EntryAt(folder, pos);
        e.Some? && Chosen(e.value, q.sel) && e.value.kind.content == Unopenable(error))
  }

  /** All events come after those reported. */
  predicate AfterAll(at: seq<Pos>, warned: seq<Pos>, pos: Pos) {
    && (forall k :: 0 <= k < |at| ==> Before(at[k], pos))
    && (forall k :: 0 <= k < |warned| ==> Before(warned[k], pos))
  }

  /** The k-th match belongs to the k-th of the places `at`, the k-th warning to the k-th of
      `warned`, each in depth-first order. At most n matches are told, the last of them after all
      the warnings told. What is left out comes after everything told, and nothing is left out but
      where n matches were told or the search was broken off. */
  ghost predicate Told(q: Query, folder: Folder, n: nat, whole: bool, matches: seq<Match>, warnings: seq<string>, at: seq<Pos>, warned: seq<Pos>) {
    && |at| == |matches| <= n && Ascending(at)
    && (forall k :: 0 <= k < |at| ==> MatchAt(q, folder, at[k], matches[k]))
    && |warned| == |warnings| && Ascending(warned)
    && (forall k :: 0 <= k < |warned| ==> WarningAt(q, folder, warned[k], warnings[k]))
    && (|at| == n > 0 ==> forall k :: 0 <= k < |warned| ==> Before(warned[k], at[n - 1]))
    && (forall pos, m :: MatchAt(q, folder, pos, m) && pos !in at ==> (|at| == n || !whole) && AfterAll(at, warned, pos))
    && (forall pos, error :: WarningAt(q, folder, pos, error) && pos !in warned ==> (|at| == n || !whole) && AfterAll(at, warned, pos))
  }

  // ----- the same walk, with places -----

  type Located = (Pos, Event)

  function Places(located: seq<Located>): (at: seq<Pos>)
    ensures |at| == |located| && forall k :: 0 <= k < |at| ==> at[k] == located[k].0
  {
    seq(|located|, k requires 0 <= k < |located| => located[k].0)
  }

  function Events(located: seq<Located>): (events: seq<Event>)
    ensures |events| == |located| && forall k :: 0 <= k < |events| ==> events[k] == located[k].1
  {
    seq(|located|, k requires 0 <= k < |located| => located[k].1)
  }

  /** The same places as seen from a folder that holds them in its i-th entry. */
  function Shift(i: nat, located: seq<Located>): (r: seq<Located>)
    ensures |r| == |located| && forall k :: 0 <= k < |r| ==> r[k] == ([i] + located[k].0, located[k].1)
  {
    seq(|located|, k requires 0 <= k < |located| => ([i] + located[k].0, located[k].1))
  }

  function LocatedLines(e: Entry, lines: seq<Option<string>>, n: nat, find: Finder): seq<Located>
    requires e.Item? && e.uri.Some? && n <= |lines|
  {
    if n == 0 then []
    else
      var more := LineEvent(e, lines[n - 1], n, find);
      LocatedLines(e, lines, n - 1, find) + if more == [] then [] else [([n - 1], more[0])]
  }

  /** What an entry gives by itself, without the folder it may be. */
  function Own(q: Query, e: Entry): seq<Located> {
    if e.Broken? then [([], Warn(e.error))]
    else
      match q
      case ByName(text) => (var hit := NameHit(e, text); if hit == [] then [] else [([], hit[0])])
      case ByContent(sel, find) =>
        if !e.kind.File? || e.kind.size > sel.maxFileSize || !sel.wanted(e.name) then []
        else
          match e.kind.content
          case Unopenable(error) => [([], Warn(error))]
          case NoMetadata => []
          case Lines(lines) => if e.uri.Some? then LocatedLines(e, lines, |lines|, find) else []
  }

  function InEntry(q: Query, e: Entry): seq<Located>
    decreases e, 0
  {
    Own(q, e) + if e.Item? && e.kind.Subfolder? then InFolder(q, e.kind.folder) else []
  }

  function InEntries(q: Query, entries: seq<Entry>, n: nat): seq<Located>
    requires n <= |entries|
    decreases entries, n
  {
    if n == 0 then [] else InEntries(q, entries, n - 1) + Shift(n - 1, InEntry(q, entries[n - 1]))
  }

  function InFolder(q: Query, folder: Folder): seq<Located>
    decreases folder, 0
  {
    match folder
    case Unreadable(error) => [([0], Warn(error))]
    case Readable(entries) => InEntries(q, entries, |entries|)
  }

  // ----- it is the walk -----

  function AllEvents(q: Query, folder: Folder): seq<Event> {
    match q
    case ByName(text) => NameFolder(folder, text)
    case ByContent(sel, find) => ContentFolder(folder, sel, find)
  }

  lemma EventsAppend(a: seq<Located>, b: seq<Located>, i: nat)
    ensures Events(a + b) == Events(a) + Events(b) && Events(Shift(i, b)) == Events(b)
  {
  }

  lemma {:induction false} LineEventsLocated(e: Entry, lines: seq<Option<string>>, n: nat, find: Finder)
    requires e.Item? && e.uri.Some? && n <= |lines|
    ensures Events(LocatedLines(e, lines, n, find)) == LineEvents(e, lines[..n], find)
  {
    hide Events;
    if n == 0 {
      assert lines[..n] == [];
      assert Events([]) == [];
    } else {
      LineEventsLocated(e, lines, n - 1, find);
      assert lines[..n][..n - 1] == lines[..n - 1];
      var more := LineEvent(e, lines[n - 1], n, find);
      var own: seq<Located> := if more == [] then [] else [([n - 1], more[0])];
      EventsAppend(LocatedLines(e, lines, n - 1, find), own, 0);
      assert Events(own) == more;
    }
  }

  lemma {:induction false} NameWalk(text: string, folder: Folder)
    ensures Events(InFolder(ByName(text), folder)) == NameFolder(folder, text)
    decreases folder, 0
  {
    if folder.Readable? {
      NameWalkEntries(text, folder.entries, |folder.entries|);
      assert folder.entries[..|folder.entries|] == folder.entries;
    }
  }

  lemma {:induction false} NameWalkEntries(text: string, entries: seq<Entry>, n: nat)
    requires n <= |entries|
    ensures Events(InEntries(ByName(text), entries, n)) == NameEntries(entries[..n], text)
    decreases entries, n
  {
    hide Events, Contains, Shift;
    var q := ByName(text);
    if n == 0 {
      assert Events([]) == [] && entries[..n] == [];
    } else {
      var e := entries[n - 1];
      NameWalkEntries(text, entries, n - 1);
      assert entries[..n][..n - 1] == entries[..n - 1];
      EventsAppend(InEntries(q, entries, n - 1), Shift(n - 1, InEntry(q, e)), 0);
      EventsAppend([], InEntry(q, e), n - 1);
      if e.Item? {
        if e.kind.Subfolder? { NameWalk(text, e.kind.folder); }
        var below: seq<Located> := if e.kind.Subfolder? then InFolder(q, e.kind.folder) else [];
        EventsAppend(Own(q, e), below, 0);
      }
      assert Events(InEntry(q, e)) == NameEntry(e, text);
    }
  }

  lemma {:induction false} ContentWalk(sel: Selection, find: Finder, folder: Folder)
    ensures Events(InFolder(ByContent(sel, find), folder)) == ContentFolder(folder, sel, find)
    decreases folder, 0
  {
    if folder.Readable? {
      ContentWalkEntries(sel, find, folder.entries, |folder.entries|);
      assert folder.entries[..|folder.entries|] == folder.entries;
    }
  }

  lemma {:induction false} ContentWalkEntries(sel: Selection, find: Finder, entries: seq<Entry>, n: nat)
    requires n <= |entries|
    ensures Events(InEntries(ByContent(sel, find), entries, n)) == ContentEntries(entries[..n], sel, find)
    decreases entries, n
  {
    hide Events, Shift, LocatedLines, LineEvents;
    var q := ByContent(sel, find);
    if n == 0 {
      assert Events([]) == [] && entries[..n] == [];
    } else {
      var e := entries[n - 1];
      ContentWalkEntries(sel, find, entries, n - 1);
      assert entries[..n][..n - 1] == entries[..n - 1];
      EventsAppend(InEntries(q, entries, n - 1), Shift(n - 1, InEntry(q, e)), 0);
      EventsAppend([], InEntry(q, e), n - 1);
      assert Events(InEntry(q, e)) == ContentEntry(e, sel, find) by {
        if e.Item? && e.kind.Subfolder? {
          ContentWalk(sel, find, e.kind.folder);
          assert InEntry(q, e) == InFolder(q, e.kind.folder);
        } else {
          OwnEvents(sel, find, e);
          assert InEntry(q, e) == Own(q, e);
        }
      }
    }
  }

  lemma OwnEvents(sel: Selection, find: Finder, e: Entry)
    requires e.Item? ==> !e.kind.Subfolder?
    ensures Events(Own(ByContent(sel, find), e)) == ContentEntry(e, sel, find)
  {
    hide Events, LocatedLines, LineEvents;
    assert Events([]) == [];
    if e.Item? && e.kind.File? && e.kind.content.Lines? && e.uri.Some? {
      var lines := e.kind.content.lines;
      LineEventsLocated(e, lines, |lines|, find);
      assert lines[..|lines|] == lines;
    }
  }

  lemma WalkEvents(q: Query, folder: Folder)
    ensures Events(InFolder(q, folder)) == AllEvents(q, folder)
  {
    hide Events, InFolder, NameFolder, ContentFolder;
    match q
    case ByName(text) => NameWalk(text, folder);
    case ByContent(sel, find) => ContentWalk(sel, find, folder);
  }

  // ----- its places are in order -----

  lemma PlacesOfParts(a: seq<Located>, b: seq<Located>)
    ensures Places(a + b) == Places(a) + Places(b)
  {
  }

  lemma AscendingShift(i: nat, located: seq<Located>)
    requires Ascending(Places(located))
    ensures Ascending(Places(Shift(i, located)))
  {
    var at, moved := Places(located), Places(Shift(i, located));
    forall k, m | 0 <= k < m < |moved| ensures Before(moved[k], moved[m]) {
      assert moved[k][1..] == at[k] && moved[m][1..] == at[m];
    }
  }

  lemma AscendingJoin(a: seq<Pos>, b: seq<Pos>)
    requires Ascending(a) && Ascending(b)
    requires forall k, m :: 0 <= k < |a| && 0 <= m < |b| ==> Before(a[k], b[m])
    ensures Ascending(a + b)
  {
    hide Before;
  }

  lemma {:induction false} LinesAscending(e: Entry, lines: seq<Option<string>>, n: nat, find: Finder)
    requires e.Item? && e.uri.Some? && n <= |lines|
    ensures Ascending(Places(LocatedLines(e, lines, n, find)))
    ensures forall k :: 0 <= k < |LocatedLines(e, lines, n, find)| ==> OneBelow(LocatedLines(e, lines, n, find)[k].0, n)
  {
    hide Places, LineEvent;
    if n > 0 {
      LinesAscending(e, lines, n - 1, find);
      var init := LocatedLines(e, lines, n - 1, find);
      if LineEvent(e, lines[n - 1], n, find) != [] {
        var more: seq<Located> := [([n - 1], LineEvent(e, lines[n - 1], n, find)[0])];
        PlacesOfParts(init, more);
        AscendingJoin(Places(init), Places(more));
      }
    }
  }

  predicate OneBelow(pos: Pos, n: nat) {
    |pos| == 1 && pos[0] < n
  }

  predicate StartsBelow(pos: Pos, n: nat) {
    pos != [] && pos[0] < n
  }

  lemma OwnAscending(q: Query, e: Entry)
    ensures Ascending(Places(Own(q, e)))
    ensures e.Item? && e.kind.Subfolder? ==> forall k :: 0 <= k < |Own(q, e)| ==> Own(q, e)[k].0 == []
  {
    hide Places, LocatedLines, NameHit, Before;
    match q
    case ByName(text) =>
    case ByContent(sel, find) =>
      if e.Item? && e.kind.File? && e.kind.content.Lines? && e.uri.Some? {
        var lines := e.kind.content.lines;
        LinesAscending(e, lines, |lines|, find);
      }
  }

  lemma {:induction false} EntryAscending(q: Query, e: Entry)
    ensures Ascending(Places(InEntry(q, e)))
    decreases e, 1
  {
    hide Places, Own, InFolder, Before;
    OwnAscending(q, e);
    assert Own(q, e) + [] == Own(q, e);
    if e.Item? && e.kind.Subfolder? {
      FolderAscending(q, e.kind.folder);
      PlacesOfParts(Own(q, e), InFolder(q, e.kind.folder));
      forall k | 0 <= k < |InFolder(q, e.kind.folder)| ensures Before([], InFolder(q, e.kind.folder)[k].0) {
        assert InFolder(q, e.kind.folder)[k].0 != [];
        RootFirst(InFolder(q, e.kind.folder)[k].0);
      }
      AscendingJoin(Places(Own(q, e)), Places(InFolder(q, e.kind.folder)));
    }
  }

  lemma RootFirst(p: Pos)
    requires p != []
    ensures Before([], p)
  {
  }

  lemma {:induction false} FolderAscending(q: Query, folder: Folder)
    ensures Ascending(Places(InFolder(q, folder)))
    ensures forall k :: 0 <= k < |InFolder(q, folder)| ==> InFolder(q, folder)[k].0 != []
    decreases folder, 0
  {
    hide Places, Before, InEntries;
    if folder.Readable? { EntriesAscending(q, folder.entries, |folder.entries|); }
  }

  lemma {:induction false} EntriesAscending(q: Query, entries: seq<Entry>, n: nat)
    requires n <= |entries|
    ensures Ascending(Places(InEntries(q, entries, n)))
    ensures forall k :: 0 <= k < |InEntries(q, entries, n)| ==> StartsBelow(InEntries(q, entries, n)[k].0, n)
    decreases entries, n
  {
    hide Places, InEntry, Shift, Ascending;
    if n == 0 {
      assert Places([]) == [];
      NoneAscending();
    } else {
      var init, last := InEntries(q, entries, n - 1), Shift(n - 1, InEntry(q, entries[n - 1]));
      EntriesAscending(q, entries, n - 1);
      EntryAscending(q, entries[n - 1]);
      AscendingShift(n - 1, InEntry(q, entries[n - 1]));
      PlacesOfParts(init, last);
      AscendingJoin(Places(init), Places(last));
    }
  }

  lemma NoneAscending()
    ensures Ascending([])
  {
  }

  // ----- its places are those that qualify -----

  predicate EventAt(q: Query, folder: Folder, pos: Pos, event: Event) {
    match event
    case Hit(m) => MatchAt(q, folder, pos, m)
    case Warn(error) => WarningAt(q, folder, pos, error)
  }

  lemma {:induction false} LinesMember(e: Entry, lines: seq<Option<string>>, n: nat, find: Finder, pos: Pos, event: Event)
    requires e.Item? && e.uri.Some? && n <= |lines|
    ensures (pos, event) in LocatedLines(e, lines, n, find)
      <==> |pos| == 1 && pos[0] < n && LineEvent(e, lines[pos[0]], pos[0] + 1, find) == [event]
  {
    if n > 0 {
      LinesMember(e, lines, n - 1, find, pos, event);
      var more := LineEvent(e, lines[n - 1], n, find);
      var own: seq<Located> := if more == [] then [] else [([n - 1], more[0])];
      assert LocatedLines(e, lines, n, find) == LocatedLines(e, lines, n - 1, find) + own;
      assert |more| <= 1;
      if |pos| == 1 { assert pos == [pos[0]]; }
      if own != [] { assert (pos, event) in own <==> own[0] == (pos, event); }
    }
  }

  lemma {:induction false} EntriesMember(q: Query, entries: seq<Entry>, n: nat, pos: Pos, event: Event)
    requires n <= |entries|
    ensures (pos, event) in InEntries(q, entries, n) <==> pos != [] && pos[0] < n && (pos[1..], event) in InEntry(q, entries[pos[0]])
    decreases n
  {
    hide InEntry;
    if n > 0 {
      EntriesMember(q, entries, n - 1, pos, event);
      var inside := InEntry(q, entries[n - 1]);
      ShiftMember(n - 1, inside, pos, event);
    }
  }

  lemma ShiftMember(i: nat, located: seq<Located>, pos: Pos, event: Event)
    ensures (pos, event) in Shift(i, located) <==> pos != [] && pos[0] == i && (pos[1..], event) in located
  {
    if (pos, event) in Shift(i, located) {
      var k :| 0 <= k < |located| && Shift(i, located)[k] == (pos, event);
      assert pos[1..] == located[k].0;
    }
    if pos != [] && pos[0] == i && (pos[1..], event) in located {
      var k :| 0 <= k < |located| && located[k] == (pos[1..], event);
      assert pos == [i] + pos[1..];
      assert Shift(i, located)[k] == (pos, event);
    }
  }

  /** Seen from above: an event in an entry is its own, or one of the folder it is. */
  lemma OneLevel(q: Query, folder: Folder, pos: Pos, event: Event)
    requires folder.Readable?
    ensures EventAt(q, folder, pos, event) <==>
      (pos != [] && pos[0] < |folder.entries|
        && var e := folder.entries[pos[0]];
        || (pos[1..], event) in Own(q, e)
        || (e.Item? && e.kind.Subfolder? && EventAt(q, e.kind.folder, pos[1..], event)))
  {
    if pos != [] && pos[0] < |folder.entries| {
      if |pos| == 1 {
        HereLevel(q, folder, pos[0], event);
        assert pos == [pos[0]] && pos[1..] == [];
      } else {
        BelowLevel(q, folder, pos, event);
      }
    } else {
      NothingThere(q, folder, pos, event);
    }
  }

  lemma NothingThere(q: Query, folder: Folder, pos: Pos, event: Event)
    requires folder.Readable? && (pos == [] || pos[0] >= |folder.entries|)
    ensures !EventAt(q, folder, pos, event)
  {
    if |pos| > 1 { assert pos[..|pos| - 1][0] == pos[0]; }
  }

  lemma HereLevel(q: Query, folder: Folder, i: nat, event: Event)
    requires folder.Readable? && i < |folder.entries|
    ensures EventAt(q, folder, [i], event) <==> ([], event) in Own(q, folder.entries[i])
    ensures forall sub :: !EventAt(q, sub, [], event)
  {
    var pos, e := [i], folder.entries[i];
    assert EntryAt(folder, pos) == Some(e) && pos[..0] == [];
    assert FolderAt(folder, pos[..0]) == Some(folder);
    if q.ByContent? && e.Item? && e.kind.File? && e.kind.content.Lines? && e.uri.Some? {
      LinesMember(e, e.kind.content.lines, |e.kind.content.lines|, q.find, [], event);
    }
  }

  lemma BelowLevel(q: Query, folder: Folder, pos: Pos, event: Event)
    requires folder.Readable? && |pos| > 1 && pos[0] < |folder.entries|
    ensures var e := folder.entries[pos[0]];
      EventAt(q, folder, pos, event) <==>
        (pos[1..], event) in Own(q, e) || (e.Item? && e.kind.Subfolder? && EventAt(q, e.kind.folder, pos[1..], event))
  {
    hide Contains, LocatedLines;
    var e, below, up := folder.entries[pos[0]], pos[1..], pos[..|pos| - 1];
    assert up[0] == pos[0] && up[1..] == below[..|below| - 1];
    if e.Item? && e.kind.Subfolder? {
      assert EntryAt(folder, pos) == EntryAt(e.kind.folder, below);
      if |pos| == 2 {
        assert EntryAt(folder, up) == Some(e) && below[..|below| - 1] == [];
      } else {
        assert EntryAt(folder, up) == EntryAt(e.kind.folder, below[..|below| - 1]);
      }
      assert FolderAt(folder, up) == FolderAt(e.kind.folder, below[..|below| - 1]);
    } else {
      assert EntryAt(folder, pos) == None;
      if q.ByContent? && e.Item? && e.kind.File? && e.kind.content.Lines? && e.uri.Some? {
        LinesMember(e, e.kind.content.lines, |e.kind.content.lines|, q.find, below, event);
      }
    }
  }

  lemma {:induction false} FolderMember(q: Query, folder: Folder, pos: Pos, event: Event)
    ensures (pos, event) in InFolder(q, folder) <==> EventAt(q, folder, pos, event)
    decreases folder
  {
    hide Own, InEntries;
    if folder.Readable? {
      hide EventAt;
      EntriesMember(q, folder.entries, |folder.entries|, pos, event);
      OneLevel(q, folder, pos, event);
      if pos != [] && pos[0] < |folder.entries| {
        var e := folder.entries[pos[0]];
        if e.Item? && e.kind.Subfolder? { FolderMember(q, e.kind.folder, pos[1..], event); }
      }
    } else if |pos| == 1 {
      assert pos == [pos[0]] && pos[..0] == [];
    } else {
      assert pos != [] ==> pos[..|pos| - 1] != [];
    }
  }

  // ----- what is told of it -----

  /** Its matches, or its warnings. */
  function Kept(located: seq<Located>, hits: bool): seq<Located> {
    if located == [] then []
    else (if located[0].1.Hit? == hits then [located[0]] else []) + Kept(located[1..], hits)
  }

  lemma {:induction false} KeptMember(located: seq<Located>, hits: bool, x: Located)
    ensures x in Kept(located, hits) <==> x in located && x.1.Hit? == hits
  {
    if located != [] {
      KeptMember(located[1..], hits, x);
      assert located == [located[0]] + located[1..];
    }
  }

  lemma {:induction false} KeptAscending(located: seq<Located>, hits: bool)
    requires Ascending(Places(located))
    ensures Ascending(Places(Kept(located, hits)))
    ensures located != [] && located[|located| - 1].1.Hit? == hits ==>
      var kept := Kept(located, hits);
      kept != [] && kept[|kept| - 1] == located[|located| - 1]
  {
    hide Before, Ascending;
    if located == [] {
      assert Places(Kept(located, hits)) == [];
      NoneAscending();
    } else {
      var first, rest := located[0], located[1..];
      var own: seq<Located> := if first.1.Hit? == hits then [first] else [];
      assert Places(rest) == Places(located)[1..];
      RestAscending(Places(located));
      KeptAscending(rest, hits);
      var kept := Kept(rest, hits);
      PlacesOfParts(own, kept);
      OneAscending(Places(own));
      forall k | 0 <= k < |kept| ensures Before(first.0, kept[k].0) {
        KeptMember(rest, hits, kept[k]);
        var i :| 0 <= i < |rest| && rest[i] == kept[k];
        FirstBefore(Places(located), i + 1);
      }
      AscendingJoin(Places(own), Places(kept));
    }
  }

  lemma RestAscending(at: seq<Pos>)
    requires at != [] && Ascending(at)
    ensures Ascending(at[1..])
  {
    hide Before;
  }

  lemma OneAscending(at: seq<Pos>)
    requires |at| <= 1
    ensures Ascending(at)
  {
  }

  lemma FirstBefore(at: seq<Pos>, i: nat)
    requires Ascending(at) && 0 < i < |at|
    ensures Before(at[0], at[i])
  {
  }

  lemma {:induction false} KeptReports(located: seq<Located>)
    ensures |Kept(located, true)| == |Hits(Events(located))| && |Kept(located, false)| == |SearchEvents.Warnings(Events(located))|
    ensures forall k :: 0 <= k < |Kept(located, true)| ==> Kept(located, true)[k].1 == Hit(Hits(Events(located))[k])
    ensures forall k :: 0 <= k < |Kept(located, false)| ==> Kept(located, false)[k].1 == Warn(SearchEvents.Warnings(Events(located))[k])
  {
    if located != [] {
      KeptReports(located[1..]);
      assert Events(located)[1..] == Events(located[1..]);
    }
  }

  /** The walk up to some event, as it is told. */
  lemma ToldByWalk(q: Query, folder: Folder, n: nat, whole: bool, events: seq<Event>) returns (at: seq<Pos>, warned: seq<Pos>)
    requires n > 0 && events <= AllEvents(q, folder) && |Hits(events)| <= n
    requires |Hits(events)| == n ==> events != [] && events[|events| - 1].Hit?
    requires events != AllEvents(q, folder) ==> |Hits(events)| == n || !whole
    ensures Told(q, folder, n, whole, Hits(events), SearchEvents.Warnings(events), at, warned)
  {
    hide AllEvents, InFolder, Kept, Hits, SearchEvents.Warnings, Before, MatchAt, WarningAt, AfterAll, Ascending;
    var all, c := InFolder(q, folder), |events|;
    WalkEvents(q, folder);
    FolderAscending(q, folder);
    var part := all[..c];
    assert Events(part) == events;
    assert Places(part) == Places(all)[..c];
    FrontAscending(Places(all), c);
    KeptReports(part);
    KeptAscending(part, true);
    KeptAscending(part, false);
    var hits, warns := Kept(part, true), Kept(part, false);
    at, warned := Places(hits), Places(warns);
    forall k | 0 <= k < |at| ensures MatchAt(q, folder, at[k], Hits(events)[k]) {
      var _ := PartMember(q, folder, c, true, hits[k]);
    }
    forall k | 0 <= k < |warned| ensures WarningAt(q, folder, warned[k], SearchEvents.Warnings(events)[k]) {
      var _ := PartMember(q, folder, c, false, warns[k]);
    }
    if |at| == n {
      forall k | 0 <= k < |warned| ensures Before(warned[k], at[n - 1]) {
        var i := PartMember(q, folder, c, false, warns[k]);
        assert i < c - 1;
        InOrder(Places(all), i, c - 1);
      }
    }
    forall pos, m | MatchAt(q, folder, pos, m) && pos !in at
      ensures (|at| == n || !whole) && AfterAll(at, warned, pos)
    {
      LeftOut(q, folder, c, pos, Hit(m));
    }
    forall pos, error | WarningAt(q, folder, pos, error) && pos !in warned
      ensures (|at| == n || !whole) && AfterAll(at, warned, pos)
    {
      LeftOut(q, folder, c, pos, Warn(error));
    }
  }

  lemma FrontAscending(at: seq<Pos>, c: nat)
    requires Ascending(at) && c <= |at|
    ensures Ascending(at[..c])
  {
    hide Before;
  }

  lemma InOrder(at: seq<Pos>, i: nat, k: nat)
    requires Ascending(at) && i < k < |at|
    ensures Before(at[i], at[k])
  {
  }

  /** What is told stands in the part of the walk that was made. */
  lemma PartMember(q: Query, folder: Folder, c: nat, hits: bool, x: Located) returns (i: nat)
    requires c <= |InFolder(q, folder)| && x in Kept(InFolder(q, folder)[..c], hits)
    ensures i < c && InFolder(q, folder)[i] == x && x.1.Hit? == hits && EventAt(q, folder, x.0, x.1)
  {
    hide InFolder, EventAt;
    var part := InFolder(q, folder)[..c];
    KeptMember(part, hits, x);
    i :| 0 <= i < |part| && part[i] == x;
    assert (x.0, x.1) in InFolder(q, folder);
    FolderMember(q, folder, x.0, x.1);
  }

  lemma KeptPlace(located: seq<Located>, i: nat, hits: bool)
    requires i < |located| && located[i].1.Hit? == hits
    ensures located[i].0 in Places(Kept(located, hits))
  {
    KeptMember(located, hits, located[i]);
    var kept := Kept(located, hits);
    var k :| 0 <= k < |kept| && kept[k] == located[i];
    assert Places(kept)[k] == located[i].0;
  }

  /** What is not told stands behind that part. */
  lemma LeftOut(q: Query, folder: Folder, c: nat, pos: Pos, event: Event)
    requires c <= |InFolder(q, folder)| && EventAt(q, folder, pos, event)
    requires pos !in Places(Kept(InFolder(q, folder)[..c], event.Hit?))
    ensures c < |InFolder(q, folder)|
    ensures AfterAll(Places(Kept(InFolder(q, folder)[..c], true)), Places(Kept(InFolder(q, folder)[..c], false)), pos)
  {
    hide InFolder, EventAt, Before;
    var all := InFolder(q, folder);
    FolderMember(q, folder, pos, event);
    FolderAscending(q, folder);
    var i :| 0 <= i < |all| && all[i] == (pos, event);
    if i < c {
      KeptPlace(all[..c], i, event.Hit?);
      assert false;
    }
    forall hits, k | 0 <= k < |Kept(all[..c], hits)| ensures Before(Places(Kept(all[..c], hits))[k], pos) {
      var m := PartMember(q, folder, c, hits, Kept(all[..c], hits)[k]);
      InOrder(Places(all), m, i);
    }
  }
}
