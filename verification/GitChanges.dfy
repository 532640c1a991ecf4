/** Reading git's NUL-separated lists of changed files. */
module GitChanges {
  import opened Basics

  const NUL: char := '\0'

  predicate NulFree(s: string) {
    forall i :: 0 <= i < |s| ==> s[i] != NUL
  }

  predicate Field(s: string) {
    s != "" && NulFree(s)
  }

  /** The pieces between NULs, one more than there are NULs. */
  function Split(s: string): (r: seq<string>)
    ensures r != []
  {
    if s == "" then [""]
    else
      var rest := Split(s[1..]);
      if s[0] == NUL then [""] + rest else [[s[0]] + rest[0]] + rest[1..]
  }

  function NonEmpty(pieces: seq<string>): seq<string> {
    if pieces == [] then [] else (if pieces[0] == "" then [] else [pieces[0]]) + NonEmpty(pieces[1..])
  }

  function Fields(s: string): seq<string> {
    NonEmpty(Split(s))
  }

  lemma {:induction false} SplitFirst(field: string, rest: string)
    requires NulFree(field)
    ensures Split(field + [NUL] + rest) == [field] + Split(rest)
  {
    var text := field + [NUL] + rest;
    if field == "" {
      assert text[1..] == rest;
    } else {
      assert text[1..] == field[1..] + [NUL] + rest;
      SplitFirst(field[1..], rest);
      assert [field[0]] + field[1..] == field;
    }
  }

  lemma FieldsFirst(field: string, rest: string)
    requires Field(field)
    ensures Fields(field + [NUL] + rest) == [field] + Fields(rest)
  {
    SplitFirst(field, rest);
    assert ([field] + Split(rest))[1..] == Split(rest);
  }

  // ----- status letters -----

  datatype FileStatus = Clean | Modified | Added | Deleted | Renamed | Untracked | Ignored | Conflicted | Unknown

  function StatusFromXy(x: char, y: char): FileStatus {
    if x == '?' && y == '?' then Untracked
    else if x == '!' && y == '!' then Ignored
    else if x == 'U' || y == 'U' then Conflicted
    else if x == 'R' || y == 'R' || x == 'C' || y == 'C' then Renamed
    else if x == 'D' || y == 'D' then Deleted
    else if x == 'A' || y == 'A' then Added
    else if x == 'M' || y == 'M' then Modified
    else if x == ' ' && y == ' ' then Clean
    else Unknown
  }

  predicate NoneOf(xy: string, letters: set<char>) {
    forall c :: c in letters ==> c !in xy
  }

  /** What a pair of letters says, the graver letter first. */
  predicate XyMeans(xy: string, status: FileStatus) {
    match status
    case Untracked => xy == "??"
    case Ignored => xy == "!!"
    case Clean => xy == "  "
    case Conflicted => 'U' in xy
    case Renamed => 'U' !in xy && ('R' in xy || 'C' in xy)
    case Deleted => NoneOf(xy, {'U', 'R', 'C'}) && 'D' in xy
    case Added => NoneOf(xy, {'U', 'R', 'C', 'D'}) && 'A' in xy
    case Modified => NoneOf(xy, {'U', 'R', 'C', 'D', 'A'}) && 'M' in xy
    case Unknown => NoneOf(xy, {'U', 'R', 'C', 'D', 'A', 'M'}) && xy != "??" && xy != "!!" && xy != "  "
  }

  lemma XyMeaning(x: char, y: char, status: FileStatus)
    ensures StatusFromXy(x, y) == status <==> XyMeans([x, y], status)
  {
    assert "??" == ['?', '?'] && "!!" == ['!', '!'] && "  " == [' ', ' '];
  }

  /** The letter pairs that git uses for unmerged paths. */
  predicate Unmerged(x: char, y: char) {
    x == 'U' || y == 'U' || (x == 'D' && y == 'D') || (x == 'A' && y == 'A')
  }

  /** Of git's unmerged pairs exactly two are not reported as conflicts. */
  lemma ConflictsFound(x: char, y: char)
    ensures StatusFromXy(x, y) == Conflicted ==> Unmerged(x, y)
    ensures Unmerged(x, y) && StatusFromXy(x, y) != Conflicted <==> [x, y] == "DD" || [x, y] == "AA"
  {
  }

  function StatusFromName(token: string): FileStatus {
    if token == "" then Unknown
    else
      match token[0]
      case 'M' => Modified
      case 'A' => Added
      case 'D' => Deleted
      case 'R' => Renamed
      case 'C' => Renamed
      case _ => Unknown
  }

  // ----- changed files -----

  datatype ChangedFile = ChangedFile(uri: string, path: string, status: FileStatus, previousUri: Option<string>, previous: Option<string>)

  /** The address of a path below the repository's root, if it has one. */
  type UriOf = string -> Option<string>

  datatype GitError = InvalidUri

  /** The addresses are looked up last; a path without one fails the whole list. */
  function ToFile(uriOf: UriOf, status: FileStatus, path: string, previous: Option<string>): Option<ChangedFile> {
    if uriOf(path).None? then None
    else if previous.None? then Some(ChangedFile(uriOf(path).value, path, status, None, None))
    else if uriOf(previous.value).None? then None
    else Some(ChangedFile(uriOf(path).value, path, status, uriOf(previous.value), previous))
  }

  predicate RenameLetter(s: string) {
    s != "" && (s[0] == 'R' || s[0] == 'C')
  }

  /** What reading one porcelain record at `index` consumes and yields. */
  datatype Step = Skip(next: nat) | Take(status: FileStatus, path: string, previous: Option<string>, next: nat)

  function PorcelainStep(records: seq<string>, index: nat): (s: Step)
    requires index < |records|
    ensures index < s.next <= |records|
  {
    var record := records[index];
    if |record| < 4 then Skip(index + 1)
    else
      var status := StatusFromXy(record[0], record[1]);
      if RenameLetter(record) && index + 1 < |records| then Take(status, record[3..], Some(records[index + 1]), index + 2)
      else Take(status, record[3..], None, index + 1)
  }

  /** What the records from `index` on say; None if an address is missing. */
  function Porcelain(uriOf: UriOf, records: seq<string>, index: nat): Option<seq<ChangedFile>>
    requires index <= |records|
    decreases |records| - index
  {
    if index == |records| then Some([])
    else
      match PorcelainStep(records, index)
      case Skip(next) => Porcelain(uriOf, records, next)
      case Take(status, path, previous, next) => Prepend(ToFile(uriOf, status, path, previous), Porcelain(uriOf, records, next))
  }

  function Prepend(file: Option<ChangedFile>, rest: Option<seq<ChangedFile>>): Option<seq<ChangedFile>> {
    if file.None? || rest.None? then None else Some([file.value] + rest.value)
  }

  function Prepended(files: seq<ChangedFile>, rest: Option<seq<ChangedFile>>): Option<seq<ChangedFile>> {
    if rest.None? then None else Some(files + rest.value)
  }

  lemma PrependedStep(files: seq<ChangedFile>, file: ChangedFile, rest: Option<seq<ChangedFile>>)
    ensures Prepended(files, Prepend(Some(file), rest)) == Prepended(files + [file], rest)
  {
    if rest.Some? { assert files + ([file] + rest.value) == files + [file] + rest.value; }
  }

  lemma PrependedNothing(rest: Option<seq<ChangedFile>>)
    ensures Prepended([], rest) == rest
  {
    if rest.Some? { assert [] + rest.value == rest.value; }
  }

  lemma PrependInjective(file: ChangedFile, a: Option<seq<ChangedFile>>, b: Option<seq<ChangedFile>>)
    ensures Prepend(Some(file), a) == Prepend(Some(file), b) <==> a == b
  {
    if a.Some? && b.Some? { assert ([file] + a.value)[1..] == a.value && ([file] + b.value)[1..] == b.value; }
  }

  method ParsePorcelain(uriOf: UriOf, output: string) returns (r: Result<seq<ChangedFile>, GitError>)
    ensures r == match Porcelain(uriOf, Fields(output), 0) case Some(files) => Success(files) case None => Failure(InvalidUri)
  {
    var records := Fields(output);
    var files: seq<ChangedFile>, index := [], 0;
    PrependedNothing(Porcelain(uriOf, records, 0));
    while index < |records|
      invariant index <= |records|
      invariant Porcelain(uriOf, records, 0) == Prepended(files, Porcelain(uriOf, records, index))
    {
      var record := records[index];
      ghost var was := index;
      index := index + 1;
      if |record| < 4 { continue; }
      var status := StatusFromXy(record[0], record[1]);
      var path, previous: Option<string> := record[3..], None;
      if RenameLetter(record) && index < |records| {
        previous := Some(records[index]);
        index := index + 1;
      }
      assert PorcelainStep(records, was) == Take(status, path, previous, index);
      var file := ToFile(uriOf, status, path, previous);
      if file.None? { return Failure(InvalidUri); }
      PrependedStep(files, file.value, Porcelain(uriOf, records, index));
      files := files + [file.value];
    }
    assert files + [] == files;
    r := Success(files);
  }

  // ----- porcelain lists as git prints them -----

  datatype Record = Record(x: char, y: char, path: string, original: Option<string>)

  predicate Printable(rec: Record) {
    && rec.x != NUL && rec.y != NUL && Field(rec.path)
    && (rec.original.Some? ==> Field(rec.original.value))
  }

  function PrintRecord(rec: Record): string {
    [rec.x, rec.y, ' '] + rec.path + [NUL] + if rec.original.Some? then rec.original.value + [NUL] else ""
  }

  function PrintAll(recs: seq<Record>): string {
    if recs == [] then "" else PrintRecord(recs[0]) + PrintAll(recs[1..])
  }

  function FieldsOf(rec: Record): (r: seq<string>)
    ensures |r| == if rec.original.Some? then 2 else 1
  {
    [[rec.x, rec.y, ' '] + rec.path] + if rec.original.Some? then [rec.original.value] else []
  }

  function FieldsOfAll(recs: seq<Record>): seq<string> {
    if recs == [] then [] else FieldsOf(recs[0]) + FieldsOfAll(recs[1..])
  }

  lemma {:induction false} PrintedFields(recs: seq<Record>)
    requires forall i :: 0 <= i < |recs| ==> Printable(recs[i])
    ensures Fields(PrintAll(recs)) == FieldsOfAll(recs)
  {
    if recs == [] {
      assert Split("") == [""] && [""][1..] == [];
    } else {
      PrintedFields(recs[1..]);
      PrintedRecord(recs[0], PrintAll(recs[1..]));
    }
  }

  lemma PrintedRecord(rec: Record, rest: string)
    requires Printable(rec)
    ensures Fields(PrintRecord(rec) + rest) == FieldsOf(rec) + Fields(rest)
  {
    hide Fields;
    var first := [rec.x, rec.y, ' '] + rec.path;
    assert NulFree(first);
    if rec.original.Some? {
      var second := rec.original.value;
      FieldsFirst(second, rest);
      FieldsFirst(first, second + [NUL] + rest);
      assert PrintRecord(rec) + rest == first + [NUL] + (second + [NUL] + rest);
    } else {
      FieldsFirst(first, rest);
      assert PrintRecord(rec) + rest == first + [NUL] + rest;
    }
  }

  function FileOf(uriOf: UriOf, rec: Record): Option<ChangedFile> {
    ToFile(uriOf, StatusFromXy(rec.x, rec.y), rec.path, rec.original)
  }

  function FilesOf(uriOf: UriOf, recs: seq<Record>): Option<seq<ChangedFile>> {
    if recs == [] then Some([]) else Prepend(FileOf(uriOf, recs[0]), FilesOf(uriOf, recs[1..]))
  }

  predicate Addressable(uriOf: UriOf, rec: Record) {
    uriOf(rec.path).Some? && (rec.original.Some? ==> uriOf(rec.original.value).Some?)
  }

  /** An original path is there exactly for a letter R or C in the first column; only the very
      last record may lack it. */
  predicate Consistent(recs: seq<Record>) {
    forall i :: 0 <= i < |recs| ==> ConsistentAt(recs, i)
  }

  predicate ConsistentAt(recs: seq<Record>, i: nat)
    requires i < |recs|
  {
    var rename := recs[i].x == 'R' || recs[i].x == 'C';
    if rename then recs[i].original.Some? || i == |recs| - 1 else recs[i].original.None?
  }

  /** Reading from record k on is reading the rest of the list. */
  lemma {:induction false} PorcelainFrom(uriOf: UriOf, records: seq<string>, k: nat, index: nat)
    requires k <= index <= |records|
    ensures Porcelain(uriOf, records[k..], index - k) == Porcelain(uriOf, records, index)
    decreases |records| - index
  {
    if index < |records| {
      var s := PorcelainStep(records, index);
      assert records[k..][index - k] == records[index];
      PorcelainFrom(uriOf, records, k, s.next);
    }
  }

  /** Printing any list of records and reading it gives the records back, in order, exactly if the
      original paths are where the first column says. */
  lemma {:induction false} PorcelainRoundTrip(uriOf: UriOf, recs: seq<Record>)
    requires forall i :: 0 <= i < |recs| ==> Printable(recs[i]) && Addressable(uriOf, recs[i])
    ensures FilesOf(uriOf, recs).Some?
    ensures Porcelain(uriOf, FieldsOfAll(recs), 0) == FilesOf(uriOf, recs) <==> Consistent(recs)
    decreases |recs|
  {
    hide Consistent, Addressable, Printable, StatusFromXy;
    if recs == [] {
      NoneInconsistent();
    } else {
      var rec, tail := recs[0], recs[1..];
      var all := FieldsOfAll(recs);
      assert Addressable(uriOf, rec) && forall i :: 0 <= i < |tail| ==> tail[i] == recs[i + 1];
      PorcelainRoundTrip(uriOf, tail);
      AddressableFile(uriOf, rec);
      assert all[0] == [rec.x, rec.y, ' '] + rec.path && |all[0]| >= 4 by { assert Printable(rec); PathNotEmpty(rec); }
      ConsistentTail(recs);
      var s := PorcelainStep(all, 0);
      assert s.Take? && s.status == StatusFromXy(rec.x, rec.y) && s.path == rec.path;
      StepMatches(recs);
      if ConsistentAt(recs, 0) {
        var n := |FieldsOf(rec)|;
        assert all[n..] == FieldsOfAll(tail);
        PorcelainFrom(uriOf, all, n, n);
        PrependInjective(FileOf(uriOf, rec).value, Porcelain(uriOf, all, n), FilesOf(uriOf, tail));
      } else {
        FirstDiffers(uriOf, all, recs);
      }
    }
  }

  lemma NoneInconsistent()
    ensures Consistent([])
  {
  }

  lemma PathNotEmpty(rec: Record)
    requires Printable(rec)
    ensures |rec.path| > 0
  {
  }

  lemma AddressableFile(uriOf: UriOf, rec: Record)
    requires Addressable(uriOf, rec)
    ensures FileOf(uriOf, rec).Some?
  {
  }

  /** The first step takes the original path of the first record exactly if it is consistent. */
  lemma StepMatches(recs: seq<Record>)
    requires recs != [] && recs[0].path != ""
    ensures var all := FieldsOfAll(recs);
      && all != []
      && var s := PorcelainStep(all, 0);
         && s.Take?
         && (ConsistentAt(recs, 0) ==> s.previous == recs[0].original && s.next == |FieldsOf(recs[0])|)
         && (!ConsistentAt(recs, 0) ==> (s.previous.Some? <==> recs[0].original.None?))
  {
    var rec := recs[0];
    var all := FieldsOfAll(recs);
    assert all[0] == [rec.x, rec.y, ' '] + rec.path;
    if |recs| > 1 { assert |FieldsOfAll(recs[1..])| >= |FieldsOf(recs[1])| > 0; }
    if rec.original.Some? { assert all[1] == rec.original.value; }
  }

  lemma ConsistentTail(recs: seq<Record>)
    requires recs != []
    ensures Consistent(recs) <==> ConsistentAt(recs, 0) && Consistent(recs[1..])
  {
    forall i | 0 <= i < |recs[1..]| ensures ConsistentAt(recs[1..], i) <==> ConsistentAt(recs, i + 1) {
    }
    if ConsistentAt(recs, 0) && Consistent(recs[1..]) {
      forall i | 0 <= i < |recs| ensures ConsistentAt(recs, i) {
        if i > 0 { assert ConsistentAt(recs[1..], i - 1); }
      }
    }
  }

  lemma FirstDiffers(uriOf: UriOf, records: seq<string>, recs: seq<Record>)
    requires records != [] && recs != []
    requires PorcelainStep(records, 0).Take?
    requires PorcelainStep(records, 0).previous.Some? <==> recs[0].original.None?
    requires FilesOf(uriOf, recs).Some?
    ensures Porcelain(uriOf, records, 0) != FilesOf(uriOf, recs)
  {
    var s := PorcelainStep(records, 0);
    var read := ToFile(uriOf, s.status, s.path, s.previous);
    assert FilesOf(uriOf, recs).value[0].previous == recs[0].original;
    if read.Some? { assert read.value.previous == s.previous; }
  }

  /** The file has the path and the original path of the record with their addresses, and the
      status that its letters mean. */
  predicate Reports(uriOf: UriOf, rec: Record, f: ChangedFile) {
    && f.path == rec.path && uriOf(rec.path) == Some(f.uri)
    && f.previous == rec.original
    && f.previousUri == (match rec.original case Some(path) => uriOf(path) case None => None)
    && XyMeans([rec.x, rec.y], f.status)
  }

  predicate ReportsAll(uriOf: UriOf, recs: seq<Record>, files: seq<ChangedFile>) {
    |files| == |recs| && forall i :: 0 <= i < |recs| ==> Reports(uriOf, recs[i], files[i])
  }

  lemma {:induction false} FilesMeaning(uriOf: UriOf, recs: seq<Record>, files: seq<ChangedFile>)
    requires forall i :: 0 <= i < |recs| ==> Addressable(uriOf, recs[i])
    ensures FilesOf(uriOf, recs) == Some(files) <==> ReportsAll(uriOf, recs, files)
    decreases |recs|
  {
    hide Addressable, XyMeans, StatusFromXy;
    if recs != [] && files != [] {
      var rec := recs[0];
      assert Addressable(uriOf, rec);
      FilesMeaning(uriOf, recs[1..], files[1..]);
      XyMeaning(rec.x, rec.y, files[0].status);
      assert FileOf(uriOf, rec) == Some(files[0]) <==> Reports(uriOf, rec, files[0]) by { AddressableMeaning(uriOf, rec); }
      assert files == [files[0]] + files[1..];
      if ReportsAll(uriOf, recs[1..], files[1..]) && Reports(uriOf, rec, files[0]) {
        forall i | 0 <= i < |recs| ensures Reports(uriOf, recs[i], files[i]) {
          if i > 0 { assert recs[i] == recs[1..][i - 1] && files[i] == files[1..][i - 1]; }
        }
      }
    }
  }

  lemma AddressableMeaning(uriOf: UriOf, rec: Record)
    ensures Addressable(uriOf, rec) <==> uriOf(rec.path).Some? && (rec.original.Some? ==> uriOf(rec.original.value).Some?)
  {
  }

  // ----- in front of anything else -----

  /** An original path exactly for a letter R or C in the first column. */
  predicate Full(rec: Record) {
    (rec.x == 'R' || rec.x == 'C') <==> rec.original.Some?
  }

  function Both(a: Option<seq<ChangedFile>>, b: Option<seq<ChangedFile>>): Option<seq<ChangedFile>> {
    if a.None? || b.None? then None else Some(a.value + b.value)
  }

  lemma PrependBoth(file: Option<ChangedFile>, a: Option<seq<ChangedFile>>, b: Option<seq<ChangedFile>>)
    ensures Prepend(file, Both(a, b)) == Both(Prepend(file, a), b)
    ensures Both(Some([]), b) == b
  {
    if file.Some? && a.Some? && b.Some? { assert [file.value] + (a.value + b.value) == [file.value] + a.value + b.value; }
    if b.Some? { assert [] + b.value == b.value; }
  }

  /** Records in front of other fields are read by themselves, and fail by themselves. */
  lemma {:induction false} RecordsInFront(uriOf: UriOf, recs: seq<Record>, fields: seq<string>)
    requires forall i :: 0 <= i < |recs| ==> recs[i].path != "" && Full(recs[i])
    ensures Porcelain(uriOf, FieldsOfAll(recs) + fields, 0) == Both(FilesOf(uriOf, recs), Porcelain(uriOf, fields, 0))
    decreases |recs|
  {
    hide StatusFromXy, ToFile, Prepend, Both, Porcelain, PorcelainStep, FieldsOf, Full;
    if recs == [] {
      assert FieldsOfAll(recs) + fields == fields;
      PrependBoth(None, None, Porcelain(uriOf, fields, 0));
    } else {
      var rec, tail, n := recs[0], recs[1..], |FieldsOf(recs[0])|;
      assert recs[0].path != "" && Full(recs[0]);
      var all := FieldsOfAll(recs) + fields;
      var rest := FieldsOfAll(tail) + fields;
      assert all == FieldsOf(rec) + rest;
      RecordsInFront(uriOf, tail, fields);
      FirstRecord(rec, rest);
      PorcelainFrom(uriOf, all, n, n);
      FirstRead(uriOf, all);
      PrependBoth(FileOf(uriOf, rec), FilesOf(uriOf, tail), Porcelain(uriOf, fields, 0));
    }
  }

  lemma FirstRecord(rec: Record, rest: seq<string>)
    requires rec.path != "" && Full(rec)
    ensures var all, n := FieldsOf(rec) + rest, |FieldsOf(rec)|;
      PorcelainStep(all, 0) == Take(StatusFromXy(rec.x, rec.y), rec.path, rec.original, n) && all[n..] == rest
  {
    hide StatusFromXy;
    var all := FieldsOf(rec) + rest;
    assert all[0] == [rec.x, rec.y, ' '] + rec.path && all[0][3..] == rec.path;
    if rec.original.Some? { assert all[1] == rec.original.value; }
  }

  lemma FirstRead(uriOf: UriOf, records: seq<string>)
    requires records != []
    ensures var s := PorcelainStep(records, 0);
      var rest := Porcelain(uriOf, records, s.next);
      Porcelain(uriOf, records, 0) == if s.Skip? then rest else Prepend(ToFile(uriOf, s.status, s.path, s.previous), rest)
  {
    hide StatusFromXy, ToFile, Prepend;
  }

  /** A field that is too short for a record is passed over, wherever it stands. */
  lemma ShortFieldPassed(uriOf: UriOf, recs: seq<Record>, short: string, more: seq<Record>)
    requires forall i :: 0 <= i < |recs| ==> recs[i].path != "" && Full(recs[i])
    requires forall i :: 0 <= i < |more| ==> more[i].path != "" && Full(more[i])
    requires |short| < 4
    ensures Porcelain(uriOf, FieldsOfAll(recs) + [short] + FieldsOfAll(more), 0) == Both(FilesOf(uriOf, recs), FilesOf(uriOf, more))
  {
    hide Both, Full, Porcelain;
    var rest := [short] + FieldsOfAll(more);
    RecordsInFront(uriOf, recs, rest);
    assert FieldsOfAll(recs) + [short] + FieldsOfAll(more) == FieldsOfAll(recs) + rest;
    FirstRead(uriOf, rest);
    PorcelainFrom(uriOf, rest, 1, 1);
    assert rest[1..] == FieldsOfAll(more) == FieldsOfAll(more) + [];
    RecordsInFront(uriOf, more, []);
    NothingBehind(uriOf, FilesOf(uriOf, more));
  }

  lemma NothingBehind(uriOf: UriOf, a: Option<seq<ChangedFile>>)
    ensures Both(a, Porcelain(uriOf, [], 0)) == a
  {
    if a.Some? { assert a.value + [] == a.value; }
  }

  /** One path without an address fails the whole list. */
  lemma {:induction false} FilesExist(uriOf: UriOf, recs: seq<Record>)
    ensures FilesOf(uriOf, recs).Some? <==> forall i :: 0 <= i < |recs| ==> Addressable(uriOf, recs[i])
  {
    hide StatusFromXy;
    if recs != [] {
      FilesExist(uriOf, recs[1..]);
      if FilesOf(uriOf, recs).Some? {
        forall i | 0 <= i < |recs| ensures Addressable(uriOf, recs[i]) {
          if i > 0 { assert recs[i] == recs[1..][i - 1]; }
        }
      }
    }
  }

  /** The whole way: print, split at the NULs, read. The files say what the records say exactly if
      the original paths are where the first column says; a path without an address fails the whole
      list. */
  method PorcelainReadsBack(uriOf: UriOf, recs: seq<Record>) returns (r: Result<seq<ChangedFile>, GitError>)
    requires forall i :: 0 <= i < |recs| ==> Printable(recs[i])
    ensures (forall i :: 0 <= i < |recs| ==> Addressable(uriOf, recs[i])) ==>
      (r.Success? && ReportsAll(uriOf, recs, r.value) <==> Consistent(recs))
    ensures (forall i :: 0 <= i < |recs| ==> Full(recs[i])) ==>
      (r.Success? <==> forall i :: 0 <= i < |recs| ==> Addressable(uriOf, recs[i]))
  {
    hide Reports, Consistent, XyMeans, Addressable, Full, Both;
    PrintedFields(recs);
    r := ParsePorcelain(uriOf, PrintAll(recs));
    if forall i :: 0 <= i < |recs| ==> Addressable(uriOf, recs[i]) {
      PorcelainRoundTrip(uriOf, recs);
      if r.Success? { FilesMeaning(uriOf, recs, r.value); }
    }
    if forall i :: 0 <= i < |recs| ==> Full(recs[i]) {
      RecordsInFront(uriOf, recs, []);
      assert FieldsOfAll(recs) + [] == FieldsOfAll(recs);
      NothingBehind(uriOf, FilesOf(uriOf, recs));
      FilesExist(uriOf, recs);
    }
  }
}
