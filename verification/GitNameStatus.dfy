/** Reading git's name-status lists, which are handed on sorted by path. */
module GitNameStatus {
  import opened Basics
  import opened GitChanges

  // ----- order of paths -----

  predicate AtMost(a: string, b: string) {
    a == "" || (b != "" && (a[0] < b[0] || (a[0] == b[0] && AtMost(a[1..], b[1..]))))
  }

  lemma {:induction false} AtMostTotal(a: string, b: string)
    ensures AtMost(a, b) || AtMost(b, a)
    ensures AtMost(a, b) && AtMost(b, a) ==> a == b
  {
    if a != "" && b != "" && a[0] == b[0] {
      AtMostTotal(a[1..], b[1..]);
      assert a == [a[0]] + a[1..] && b == [b[0]] + b[1..];
    }
  }

  lemma {:induction false} AtMostTrans(a: string, b: string, c: string)
    requires AtMost(a, b) && AtMost(b, c)
    ensures AtMost(a, c)
  {
    if a != "" && a[0] == b[0] == c[0] { AtMostTrans(a[1..], b[1..], c[1..]); }
  }

  predicate SortedByPath(files: seq<ChangedFile>) {
    forall i, k :: 0 <= i < k < |files| ==> AtMost(files[i].path, files[k].path)
  }

  /** Behind every file whose path is not greater. */
  function Insert(files: seq<ChangedFile>, file: ChangedFile): seq<ChangedFile> {
    if files == [] || AtMost(files[|files| - 1].path, file.path) then files + [file]
    else Insert(files[..|files| - 1], file) + [files[|files| - 1]]
  }

  function SortByPath(files: seq<ChangedFile>): seq<ChangedFile> {
    if files == [] then [] else Insert(SortByPath(files[..|files| - 1]), files[|files| - 1])
  }

  /** The files with a given path, in order. */
  function WithPath(files: seq<ChangedFile>, path: string): seq<ChangedFile> {
    if files == [] then []
    else WithPath(files[..|files| - 1], path) + if files[|files| - 1].path == path then [files[|files| - 1]] else []
  }

  lemma {:induction false} InsertBag(files: seq<ChangedFile>, file: ChangedFile)
    ensures multiset(Insert(files, file)) == multiset(files) + multiset{file}
  {
    if files != [] {
      var init, last := files[..|files| - 1], files[|files| - 1];
      assert files == init + [last];
      InsertBag(init, file);
    }
  }

  lemma InsertElements(files: seq<ChangedFile>, file: ChangedFile, i: nat)
    requires i < |Insert(files, file)|
    ensures Insert(files, file)[i] == file || Insert(files, file)[i] in files
  {
    InsertBag(files, file);
    assert Insert(files, file)[i] in multiset(Insert(files, file));
  }

  lemma {:induction false} InsertSorted(files: seq<ChangedFile>, file: ChangedFile)
    requires SortedByPath(files)
    ensures SortedByPath(Insert(files, file))
  {
    hide AtMost;
    if files != [] {
      var init, last := files[..|files| - 1], files[|files| - 1];
      if AtMost(last.path, file.path) {
        forall i | 0 <= i < |files| ensures AtMost(files[i].path, file.path) {
          if i < |files| - 1 { AtMostTrans(files[i].path, last.path, file.path); }
        }
      } else {
        AtMostTotal(last.path, file.path);
        InsertSorted(init, file);
        var front := Insert(init, file);
        forall i | 0 <= i < |front| ensures AtMost(front[i].path, last.path) {
          InsertElements(init, file, i);
        }
      }
    }
  }

  lemma {:induction false} InsertStable(files: seq<ChangedFile>, file: ChangedFile, path: string)
    requires SortedByPath(files)
    ensures WithPath(Insert(files, file), path) == WithPath(files, path) + if file.path == path then [file] else []
  {
    hide AtMost;
    if files == [] || AtMost(files[|files| - 1].path, file.path) {
      assert (files + [file])[..|files|] == files;
    } else {
      var init, last := files[..|files| - 1], files[|files| - 1];
      AtMostTotal(last.path, file.path);
      SelfAtMost(file.path);
      assert last.path != file.path;
      InsertStable(init, file, path);
      var front := Insert(init, file);
      assert (front + [last])[..|front|] == front;
    }
  }

  lemma SelfAtMost(a: string)
    ensures AtMost(a, a)
  {
    AtMostTotal(a, a);
  }

  /** Sorted, a permutation, and stable. */
  lemma {:induction false} SortKeeps(files: seq<ChangedFile>, path: string)
    ensures SortedByPath(SortByPath(files))
    ensures multiset(SortByPath(files)) == multiset(files)
    ensures WithPath(SortByPath(files), path) == WithPath(files, path)
  {
    hide AtMost, Insert;
    if files != [] {
      var n := |files| - 1;
      SortKeeps(files[..n], path);
      InsertSorted(SortByPath(files[..n]), files[n]);
      InsertBag(SortByPath(files[..n]), files[n]);
      InsertStable(SortByPath(files[..n]), files[n], path);
      assert files == files[..n] + [files[n]];
    }
  }

  // ----- reading -----

  /** What the tokens from `index` on say; a record that is cut off at the end is dropped. */
  function NameStatus(uriOf: UriOf, tokens: seq<string>, index: nat): Option<seq<ChangedFile>>
    requires index <= |tokens|
    decreases |tokens| - index
  {
    if index + 1 >= |tokens| then Some([])
    else if !RenameLetter(tokens[index]) then
      Prepend(ToFile(uriOf, StatusFromName(tokens[index]), tokens[index + 1], None), NameStatus(uriOf, tokens, index + 2))
    else if index + 2 >= |tokens| then Some([])
    else Prepend(ToFile(uriOf, StatusFromName(tokens[index]), tokens[index + 2], Some(tokens[index + 1])), NameStatus(uriOf, tokens, index + 3))
  }

  method ParseNameStatus(uriOf: UriOf, output: string) returns (r: Result<seq<ChangedFile>, GitError>)
    ensures r == match NameStatus(uriOf, Fields(output), 0) case Some(files) => Success(SortByPath(files)) case None => Failure(InvalidUri)
  {
    hide SortByPath, ToFile, StatusFromName, Fields;
    var tokens := Fields(output);
    var files: seq<ChangedFile>, index := [], 0;
    PrependedNothing(NameStatus(uriOf, tokens, 0));
    while index < |tokens|
      invariant index <= |tokens|
      invariant NameStatus(uriOf, tokens, 0) == Prepended(files, NameStatus(uriOf, tokens, index))
    {
      assert files + [] == files;
      var statusToken := tokens[index];
      index := index + 1;
      if index >= |tokens| { return Success(SortByPath(files)); }
      var status := StatusFromName(statusToken);
      var previous: Option<string> := None;
      if RenameLetter(statusToken) {
        previous := Some(tokens[index]);
        index := index + 1;
        if index >= |tokens| { return Success(SortByPath(files)); }
      }
      var path := tokens[index];
      index := index + 1;
      var file := ToFile(uriOf, status, path, previous);
      if file.None? { return Failure(InvalidUri); }
      PrependedStep(files, file.value, NameStatus(uriOf, tokens, index));
      files := files + [file.value];
    }
    assert files + [] == files;
    r := Success(SortByPath(files));
  }

  // ----- lists as git prints them -----

  datatype Named = Named(letter: string, path: string, original: Option<string>)

  predicate Printable(rec: Named) {
    Field(rec.letter) && Field(rec.path) && (rec.original.Some? ==> Field(rec.original.value))
  }

  function Tokens(rec: Named): (r: seq<string>)
    ensures |r| == if rec.original.Some? then 3 else 2
  {
    [rec.letter] + (if rec.original.Some? then [rec.original.value] else []) + [rec.path]
  }

  function PrintTokens(tokens: seq<string>): string {
    if tokens == [] then "" else tokens[0] + [NUL] + PrintTokens(tokens[1..])
  }

  function TokensOfAll(recs: seq<Named>): seq<string> {
    if recs == [] then [] else Tokens(recs[0]) + TokensOfAll(recs[1..])
  }

  lemma {:induction false} PrintedTokens(tokens: seq<string>)
    requires forall i :: 0 <= i < |tokens| ==> Field(tokens[i])
    ensures Fields(PrintTokens(tokens)) == tokens
  {
    if tokens == [] {
      assert Split("") == [""] && [""][1..] == [];
    } else {
      PrintedTokens(tokens[1..]);
      FieldsFirst(tokens[0], PrintTokens(tokens[1..]));
    }
  }

  lemma {:induction false} TokensAreFields(recs: seq<Named>)
    requires forall i :: 0 <= i < |recs| ==> Printable(recs[i])
    ensures forall i :: 0 <= i < |TokensOfAll(recs)| ==> Field(TokensOfAll(recs)[i])
  {
    if recs != [] {
      assert Printable(recs[0]);
      TokensAreFields(recs[1..]);
    }
  }

  function FileOf(uriOf: UriOf, rec: Named): Option<ChangedFile> {
    ToFile(uriOf, StatusFromName(rec.letter), rec.path, rec.original)
  }

  function FilesOf(uriOf: UriOf, recs: seq<Named>): Option<seq<ChangedFile>> {
    if recs == [] then Some([]) else Prepend(FileOf(uriOf, recs[0]), FilesOf(uriOf, recs[1..]))
  }

  predicate Addressable(uriOf: UriOf, rec: Named) {
    uriOf(rec.path).Some? && (rec.original.Some? ==> uriOf(rec.original.value).Some?)
  }

  /** An original path exactly for the letters R and C. */
  predicate ConsistentRecord(rec: Named) {
    RenameLetter(rec.letter) <==> rec.original.Some?
  }

  lemma {:induction false} NameStatusFrom(uriOf: UriOf, tokens: seq<string>, k: nat, index: nat)
    requires k <= index <= |tokens|
    ensures NameStatus(uriOf, tokens[k..], index - k) == NameStatus(uriOf, tokens, index)
    decreases |tokens| - index
  {
    if index + 1 < |tokens| {
      if !RenameLetter(tokens[index]) {
        NameStatusFrom(uriOf, tokens, k, index + 2);
      } else if index + 2 < |tokens| {
        NameStatusFrom(uriOf, tokens, k, index + 3);
      }
    }
  }

  /** Printing any list of records and reading it gives the records back, before they are sorted,
      exactly if every record is consistent. */
  lemma {:induction false} NameStatusRoundTrip(uriOf: UriOf, recs: seq<Named>)
    requires forall i :: 0 <= i < |recs| ==> Printable(recs[i]) && Addressable(uriOf, recs[i])
    ensures FilesOf(uriOf, recs).Some?
    ensures NameStatus(uriOf, TokensOfAll(recs), 0) == FilesOf(uriOf, recs)
      <==> forall i :: 0 <= i < |recs| ==> ConsistentRecord(recs[i])
    decreases |recs|
  {
    hide StatusFromName, Printable;
    if recs != [] {
      var rec, tail := recs[0], recs[1..];
      var all, n := TokensOfAll(recs), |Tokens(rec)|;
      assert forall i :: 0 <= i < |tail| ==> tail[i] == recs[i + 1];
      assert forall i :: 0 < i < |recs| ==> recs[i] == tail[i - 1];
      NameStatusRoundTrip(uriOf, tail);
      assert Addressable(uriOf, rec);
      assert all[0] == rec.letter && all[n - 1] == rec.path && all[n..] == TokensOfAll(tail);
      if ConsistentRecord(rec) {
        NameStatusFrom(uriOf, all, n, n);
        PrependInjective(FileOf(uriOf, rec).value, NameStatus(uriOf, all, n), FilesOf(uriOf, tail));
      } else {
        assert FilesOf(uriOf, recs).value[0].previous == rec.original;
        var read := NameStatus(uriOf, all, 0);
        if read.Some? && read.value != [] { assert read.value[0].previous.Some? <==> rec.original.None?; }
      }
    }
  }

  /** The file has the path and the original path of the record with their addresses, and the
      status that its letter stands for. */
  predicate Reports(uriOf: UriOf, rec: Named, f: ChangedFile) {
    && rec.letter != ""
    && f.path == rec.path && uriOf(rec.path) == Some(f.uri)
    && f.previous == rec.original
    && f.previousUri == (match rec.original case Some(path) => uriOf(path) case None => None)
    && (f.status == Modified <==> rec.letter[0] == 'M')
    && (f.status == Added <==> rec.letter[0] == 'A')
    && (f.status == Deleted <==> rec.letter[0] == 'D')
    && (f.status == Renamed <==> rec.letter[0] == 'R' || rec.letter[0] == 'C')
    && (f.status == Unknown <==> rec.letter[0] !in "MADRC")
  }

  lemma {:induction false} FilesMeaning(uriOf: UriOf, recs: seq<Named>)
    requires forall i :: 0 <= i < |recs| ==> Addressable(uriOf, recs[i]) && recs[i].letter != ""
    ensures FilesOf(uriOf, recs).Some? && |FilesOf(uriOf, recs).value| == |recs|
    ensures forall i :: 0 <= i < |recs| ==> Reports(uriOf, recs[i], FilesOf(uriOf, recs).value[i])
    decreases |recs|
  {
    hide Reports, Addressable, StatusFromName, ToFile;
    if recs != [] {
      FilesMeaning(uriOf, recs[1..]);
      FileMeaning(uriOf, recs[0]);
    }
  }

  lemma FileMeaning(uriOf: UriOf, rec: Named)
    requires Addressable(uriOf, rec) && rec.letter != ""
    ensures FileOf(uriOf, rec).Some? && Reports(uriOf, rec, FileOf(uriOf, rec).value)
  {
  }

  /** A record of which only a beginning is there. */
  predicate CutOff(tokens: seq<string>) {
    |tokens| < 2 || (|tokens| == 2 && RenameLetter(tokens[0]))
  }

  /** Consistent records are read, in order, and a cut-off one behind them is dropped. */
  lemma {:induction false} RecordsInFront(uriOf: UriOf, recs: seq<Named>, cut: seq<string>)
    requires forall i :: 0 <= i < |recs| ==> ConsistentRecord(recs[i])
    requires CutOff(cut)
    ensures NameStatus(uriOf, TokensOfAll(recs) + cut, 0) == FilesOf(uriOf, recs)
    decreases |recs|
  {
    hide StatusFromName, ToFile, Prepend, NameStatus, Tokens, ConsistentRecord;
    if recs == [] {
      assert TokensOfAll(recs) + cut == cut;
      CutOffDropped(uriOf, cut);
    } else {
      var rec, tail, n := recs[0], recs[1..], |Tokens(recs[0])|;
      assert ConsistentRecord(rec);
      var rest := TokensOfAll(tail) + cut;
      assert TokensOfAll(recs) + cut == Tokens(rec) + rest;
      RecordsInFront(uriOf, tail, cut);
      FirstRecord(uriOf, rec, rest);
    }
  }

  lemma CutOffDropped(uriOf: UriOf, cut: seq<string>)
    requires CutOff(cut)
    ensures NameStatus(uriOf, cut, 0) == Some([])
  {
  }

  lemma FirstRecord(uriOf: UriOf, rec: Named, rest: seq<string>)
    requires ConsistentRecord(rec)
    ensures NameStatus(uriOf, Tokens(rec) + rest, 0) == Prepend(FileOf(uriOf, rec), NameStatus(uriOf, rest, 0))
  {
    hide StatusFromName, ToFile, Prepend;
    var all, n := Tokens(rec) + rest, |Tokens(rec)|;
    assert all[0] == rec.letter && all[n - 1] == rec.path && all[n..] == rest;
    if rec.original.Some? { assert all[1] == rec.original.value; }
    NameStatusFrom(uriOf, all, n, n);
  }

  lemma {:induction false} FilesExist(uriOf: UriOf, recs: seq<Named>)
    ensures FilesOf(uriOf, recs).Some? <==> forall i :: 0 <= i < |recs| ==> Addressable(uriOf, recs[i])
  {
    hide StatusFromName;
    if recs != [] {
      FilesExist(uriOf, recs[1..]);
      if FilesOf(uriOf, recs).Some? {
        forall i | 0 <= i < |recs| ensures Addressable(uriOf, recs[i]) {
          if i > 0 { assert recs[i] == recs[1..][i - 1]; }
        }
      }
    }
  }

  /** Printed and read back, a list of consistent records comes back as the files that say what
      the records say, sorted by path, as a stable permutation; a record cut off at the end is
      dropped. A path without an address fails the whole list. */
  method NameStatusReadsBack(uriOf: UriOf, recs: seq<Named>, cut: seq<string>)
    returns (r: Result<seq<ChangedFile>, GitError>, ghost files: seq<ChangedFile>)
    requires forall i :: 0 <= i < |recs| ==> Printable(recs[i]) && ConsistentRecord(recs[i])
    requires CutOff(cut) && forall i :: 0 <= i < |cut| ==> Field(cut[i])
    ensures r.Success? <==> forall i :: 0 <= i < |recs| ==> Addressable(uriOf, recs[i])
    ensures r.Success? ==>
      && |files| == |recs| && (forall i :: 0 <= i < |recs| ==> Reports(uriOf, recs[i], files[i]))
      && SortedByPath(r.value) && multiset(r.value) == multiset(files)
      && forall path :: WithPath(r.value, path) == WithPath(files, path)
  {
    hide AtMost, Reports, Addressable, StatusFromName, CutOff;
    TokensAreFields(recs);
    PrintedTokens(TokensOfAll(recs) + cut);
    RecordsInFront(uriOf, recs, cut);
    FilesExist(uriOf, recs);
    r := ParseNameStatus(uriOf, PrintTokens(TokensOfAll(recs) + cut));
    if r.Failure? { return r, []; }
    FilesMeaning(uriOf, recs);
    files := FilesOf(uriOf, recs).value;
    SortKeeps(files, "");
    forall path ensures WithPath(r.value, path) == WithPath(files, path) {
      SortKeeps(files, path);
    }
  }
}
