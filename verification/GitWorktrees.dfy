/** Reading git's NUL-separated list of worktrees. */
module GitWorktrees {
  import opened Basics
  import opened GitChanges

  datatype Worktree = Worktree(
    pathUri: string, branch: Option<string>, head: Option<string>,
    detached: bool, bare: bool, prunable: bool, reason: Option<string>)

  /** What is known of a worktree besides its path. */
  datatype Attributes = Attributes(
    branch: Option<string>, head: Option<string>,
    detached: bool, bare: bool, prunable: bool, reason: Option<string>)

  const NoAttributes := Attributes(None, None, false, false, false, None)

  predicate Starts(token: string, start: string) {
    start <= token
  }

  function After(token: string, start: string): string
    requires Starts(token, start)
  {
    token[|start|..]
  }

  function BranchName(ref: string): string {
    if Starts(ref, "refs/heads/") then After(ref, "refs/heads/") else ref
  }

  /** What one line that is not about the path adds; unknown lines add nothing. */
  function Apply(a: Attributes, token: string): Attributes {
    if Starts(token, "HEAD ") then a.(head := Some(After(token, "HEAD ")))
    else if Starts(token, "branch ") then a.(branch := Some(BranchName(After(token, "branch "))))
    else if token == "detached" then a.(detached := true)
    else if token == "bare" then a.(bare := true)
    else if token == "prunable" then a.(prunable := true)
    else if Starts(token, "prunable ") then a.(prunable := true, reason := Some(After(token, "prunable ")))
    else a
  }

  function ApplyAll(a: Attributes, tokens: seq<string>): Attributes {
    if tokens == [] then a else Apply(ApplyAll(a, tokens[..|tokens| - 1]), tokens[|tokens| - 1])
  }

  function Finished(uri: string, a: Attributes): Worktree {
    Worktree(uri, a.branch, a.head, a.detached, a.bare, a.prunable, a.reason)
  }

  // ----- the parser -----

  /** The worktree that is being read, and those that are finished. */
  class Parser {
    const uriOf: UriOf
    var path: Option<string>
    var branch: Option<string>
    var head: Option<string>
    var detached: bool
    var bare: bool
    var prunable: bool
    var reason: Option<string>
    var worktrees: seq<Worktree>

    constructor (uriOf: UriOf)
      ensures this.uriOf == uriOf && path == None && Pending() == NoAttributes && worktrees == []
    {
      this.uriOf := uriOf;
      path, branch, head, reason := None, None, None, None;
      detached, bare, prunable := false, false, false;
      worktrees := [];
    }

    function Pending(): Attributes
      reads this
    {
      Attributes(branch, head, detached, bare, prunable, reason)
    }

    /** Without a path nothing happens, not even to what has been read. */
    method Flush() returns (ok: bool)
      modifies this
      ensures ok <==> old(path).None? || uriOf(old(path).value).Some?
      ensures path == None
      ensures old(path).None? ==> worktrees == old(worktrees) && Pending() == old(Pending())
      ensures old(path).Some? && ok ==>
        worktrees == old(worktrees) + [Finished(uriOf(old(path).value).value, old(Pending()))] && Pending() == NoAttributes
    {
      if path.None? { return true; }
      var p := path.value;
      path := None;
      if uriOf(p).None? { return false; }
      worktrees := worktrees + [Worktree(uriOf(p).value, branch, head, detached, bare, prunable, reason)];
      branch, head, reason := None, None, None;
      detached, bare, prunable := false, false, false;
      ok := true;
    }

    method Token(token: string) returns (ok: bool)
      modifies this
      ensures token == "" || Starts(token, "worktree ") ==>
        && (ok <==> old(path).None? || uriOf(old(path).value).Some?)
        && path == (if token == "" || !ok then None else Some(After(token, "worktree ")))
        && (old(path).None? ==> worktrees == old(worktrees) && Pending() == old(Pending()))
        && (old(path).Some? && ok ==>
             worktrees == old(worktrees) + [Finished(uriOf(old(path).value).value, old(Pending()))] && Pending() == NoAttributes)
      ensures token != "" && !Starts(token, "worktree ") ==>
        ok && path == old(path) && worktrees == old(worktrees) && Pending() == Apply(old(Pending()), token)
    {
      ok := true;
      if token == "" {
        ok := Flush();
      } else if Starts(token, "worktree ") {
        ok := Flush();
        if ok { path := Some(After(token, "worktree ")); }
      } else if Starts(token, "HEAD ") {
        head := Some(After(token, "HEAD "));
      } else if Starts(token, "branch ") {
        branch := Some(BranchName(After(token, "branch ")));
      } else if token == "detached" {
        detached := true;
      } else if token == "bare" {
        bare := true;
      } else if token == "prunable" {
        prunable := true;
      } else if Starts(token, "prunable ") {
        prunable := true;
        reason := Some(After(token, "prunable "));
      }
    }
  }

  /** The parser's state, as a value; None after an error. */
  datatype State = State(path: Option<string>, pending: Attributes, done: seq<Worktree>)

  function Flushed(uriOf: UriOf, s: State): Option<State> {
    if s.path.None? then Some(s)
    else if uriOf(s.path.value).None? then None
    else Some(State(None, NoAttributes, s.done + [Finished(uriOf(s.path.value).value, s.pending)]))
  }

  function Next(uriOf: UriOf, s: State, token: string): Option<State> {
    if token == "" then Flushed(uriOf, s)
    else if Starts(token, "worktree ") then
      match Flushed(uriOf, s) case None => None case Some(f) => Some(f.(path := Some(After(token, "worktree "))))
    else Some(s.(pending := Apply(s.pending, token)))
  }

  function Read(uriOf: UriOf, s: State, tokens: seq<string>): Option<State>
    decreases |tokens|
  {
    if tokens == [] then Some(s)
    else match Next(uriOf, s, tokens[0]) case None => None case Some(n) => Read(uriOf, n, tokens[1..])
  }

  const Start := State(None, NoAttributes, [])

  function Worktrees(uriOf: UriOf, tokens: seq<string>): Option<seq<Worktree>> {
    match Read(uriOf, Start, tokens)
    case None => None
    case Some(s) => match Flushed(uriOf, s) case None => None case Some(f) => Some(f.done)
  }

  method ParseWorktrees(uriOf: UriOf, output: string) returns (r: Result<seq<Worktree>, GitError>)
    ensures r == match Worktrees(uriOf, Split(output)) case Some(list) => Success(list) case None => Failure(InvalidUri)
  {
    var tokens := Split(output);
    var parser := new Parser(uriOf);
    ghost var s := Start;
    for i := 0 to |tokens|
      invariant parser.uriOf == uriOf
      invariant s == State(parser.path, parser.Pending(), parser.worktrees)
      invariant Read(uriOf, Start, tokens) == Read(uriOf, s, tokens[i..])
    {
      assert tokens[i..][0] == tokens[i] && tokens[i..][1..] == tokens[i + 1..];
      ghost var n := Next(uriOf, s, tokens[i]);
      var ok := parser.Token(tokens[i]);
      if !ok { return Failure(InvalidUri); }
      s := n.value;
    }
    assert tokens[|tokens|..] == [];
    var ok := parser.Flush();
    r := if ok then Success(parser.worktrees) else Failure(InvalidUri);
  }

  // ----- blocks -----

  /** A worktree as git prints it: its path, lines about it, and an empty line; `stray` are lines
      in front of the path, which git does not print. */
  datatype Block = Block(stray: seq<string>, path: string, lines: seq<string>)

  predicate Line(s: string) {
    Field(s) && !Starts(s, "worktree ")
  }

  predicate BlockOk(b: Block) {
    && (forall i :: 0 <= i < |b.stray| ==> Line(b.stray[i]))
    && (forall i :: 0 <= i < |b.lines| ==> Line(b.lines[i]))
    && NulFree(b.path)
  }

  function TokensOf(b: Block): seq<string> {
    b.stray + ["worktree " + b.path] + b.lines + [""]
  }

  function TokensOfAll(blocks: seq<Block>): seq<string> {
    if blocks == [] then [] else TokensOf(blocks[0]) + TokensOfAll(blocks[1..])
  }

  function WorktreeOf(uriOf: UriOf, b: Block): Option<Worktree> {
    match uriOf(b.path)
    case None => None
    case Some(uri) => Some(Finished(uri, ApplyAll(NoAttributes, b.stray + b.lines)))
  }

  function WorktreesOf(uriOf: UriOf, blocks: seq<Block>): Option<seq<Worktree>> {
    if blocks == [] then Some([])
    else
      match (WorktreeOf(uriOf, blocks[0]), WorktreesOf(uriOf, blocks[1..]))
      case (Some(w), Some(rest)) => Some([w] + rest)
      case _ => None
  }

  lemma {:induction false} ReadAppend(uriOf: UriOf, s: State, a: seq<string>, b: seq<string>)
    ensures Read(uriOf, s, a + b) == match Read(uriOf, s, a) case None => None case Some(n) => Read(uriOf, n, b)
    decreases |a|
  {
    if a == [] {
      assert a + b == b;
    } else {
      assert (a + b)[1..] == a[1..] + b;
      var n := Next(uriOf, s, a[0]);
      if n.Some? { ReadAppend(uriOf, n.value, a[1..], b); }
    }
  }

  lemma {:induction false} ApplyAppend(a: Attributes, x: seq<string>, y: seq<string>)
    ensures ApplyAll(a, x + y) == ApplyAll(ApplyAll(a, x), y)
  {
    hide Apply;
    if y == [] {
      assert x + y == x;
    } else {
      assert (x + y)[..|x + y| - 1] == x + y[..|y| - 1];
      ApplyAppend(a, x, y[..|y| - 1]);
    }
  }

  lemma {:induction false} ReadLines(uriOf: UriOf, s: State, lines: seq<string>)
    requires forall i :: 0 <= i < |lines| ==> Line(lines[i])
    ensures Read(uriOf, s, lines) == Some(s.(pending := ApplyAll(s.pending, lines)))
  {
    hide Apply, Starts;
    if lines != [] {
      var init, last := lines[..|lines| - 1], lines[|lines| - 1];
      ReadLines(uriOf, s, init);
      assert lines == init + [last];
      assert Line(last);
      ReadAppend(uriOf, s, init, [last]);
      ReadOne(uriOf, s.(pending := ApplyAll(s.pending, init)), last);
    }
  }

  lemma ReadOne(uriOf: UriOf, s: State, token: string)
    ensures Read(uriOf, s, [token]) == Next(uriOf, s, token)
  {
    assert [token][1..] == [];
  }

  /** One block, read with nothing pending, yields its own worktree and leaves nothing pending. */
  lemma ReadBlock(uriOf: UriOf, done: seq<Worktree>, b: Block)
    requires BlockOk(b)
    ensures Read(uriOf, State(None, NoAttributes, done), TokensOf(b)) ==
      match WorktreeOf(uriOf, b) case None => None case Some(w) => Some(State(None, NoAttributes, done + [w]))
  {
    hide Apply, ApplyAll;
    var s := State(None, NoAttributes, done);
    var head := "worktree " + b.path;
    assert Starts(head, "worktree ") && After(head, "worktree ") == b.path;
    ReadLines(uriOf, s, b.stray);
    var s1 := s.(pending := ApplyAll(NoAttributes, b.stray));
    ReadOne(uriOf, s1, head);
    var s2 := s1.(path := Some(b.path));
    ReadLines(uriOf, s2, b.lines);
    ApplyAppend(NoAttributes, b.stray, b.lines);
    var s3 := s2.(pending := ApplyAll(NoAttributes, b.stray + b.lines));
    ReadOne(uriOf, s3, "");
    ReadAppend(uriOf, s, b.stray, [head] + b.lines + [""]);
    ReadAppend(uriOf, s1, [head], b.lines + [""]);
    ReadAppend(uriOf, s2, b.lines, [""]);
    assert TokensOf(b) == b.stray + ([head] + b.lines + [""]);
    assert [head] + b.lines + [""] == [head] + (b.lines + [""]);
  }

  /** No field leaks: each worktree is made of the lines of its own block, whatever the blocks
      before and behind it say. Only lines in front of a path are taken for that path. */
  lemma {:induction false} BlocksReadBack(uriOf: UriOf, done: seq<Worktree>, blocks: seq<Block>)
    requires forall i :: 0 <= i < |blocks| ==> BlockOk(blocks[i])
    ensures Read(uriOf, State(None, NoAttributes, done), TokensOfAll(blocks)) ==
      match WorktreesOf(uriOf, blocks) case None => None case Some(list) => Some(State(None, NoAttributes, done + list))
    decreases |blocks|
  {
    hide TokensOf, WorktreeOf;
    if blocks == [] {
      assert done + [] == done;
    } else {
      ReadBlock(uriOf, done, blocks[0]);
      ReadAppend(uriOf, State(None, NoAttributes, done), TokensOf(blocks[0]), TokensOfAll(blocks[1..]));
      var w := WorktreeOf(uriOf, blocks[0]);
      if w.Some? {
        BlocksReadBack(uriOf, done + [w.value], blocks[1..]);
        var rest := WorktreesOf(uriOf, blocks[1..]);
        if rest.Some? { assert done + [w.value] + rest.value == done + ([w.value] + rest.value); }
      }
    }
  }

  // ----- printing and reading -----

  function PrintTokens(tokens: seq<string>): string {
    if tokens == [] then "" else tokens[0] + [NUL] + PrintTokens(tokens[1..])
  }

  lemma {:induction false} SplitTokens(tokens: seq<string>)
    requires forall i :: 0 <= i < |tokens| ==> NulFree(tokens[i])
    ensures Split(PrintTokens(tokens)) == tokens + [""]
  {
    if tokens != [] {
      SplitTokens(tokens[1..]);
      SplitFirst(tokens[0], PrintTokens(tokens[1..]));
    }
  }

  /** A worktree in the words of git. */
  datatype Described = Described(path: string, head: Option<string>, place: Place, lock: Option<Option<string>>, prune: Option<Option<string>>)

  datatype Place = Bare | OnBranch(name: string) | OnRef(ref: string) | Detached | Nowhere

  function HeadLine(d: Described): Option<string> {
    if d.head.Some? then Some("HEAD " + d.head.value) else None
  }

  function PlaceLine(d: Described): Option<string> {
    match d.place
    case Bare => Some("bare")
    case OnBranch(name) => Some("branch refs/heads/" + name)
    case OnRef(ref) => Some("branch " + ref)
    case Detached => Some("detached")
    case Nowhere => None
  }

  /** A word that may have a reason behind it. */
  function Reasoned(word: string, o: Option<Option<string>>): Option<string> {
    match o
    case None => None
    case Some(None) => Some(word)
    case Some(Some(reason)) => Some(word + " " + reason)
  }

  function Listed(line: Option<string>): seq<string> {
    if line.Some? then [line.value] else []
  }

  function LinesOf(d: Described): seq<string> {
    Listed(HeadLine(d)) + Listed(PlaceLine(d)) + Listed(Reasoned("locked", d.lock)) + Listed(Reasoned("prunable", d.prune))
  }

  function Expected(uri: string, d: Described): Worktree {
    Worktree(uri, if d.place.OnBranch? then Some(d.place.name) else if d.place.OnRef? then Some(d.place.ref) else None, d.head,
      d.place.Detached?, d.place.Bare?, d.prune.Some?, if d.prune.Some? then d.prune.value else None)
  }

  predicate DescribedOk(d: Described) {
    && NulFree(d.path)
    && (d.head.Some? ==> NulFree(d.head.value))
    && (d.place.OnBranch? ==> NulFree(d.place.name))
    && (d.place.OnRef? ==> NulFree(d.place.ref) && !Starts(d.place.ref, "refs/heads/"))
    && (d.lock.Some? && d.lock.value.Some? ==> NulFree(d.lock.value.value))
    && (d.prune.Some? && d.prune.value.Some? ==> NulFree(d.prune.value.value))
  }

  function BlockFor(d: Described): Block {
    Block([], d.path, LinesOf(d))
  }

  function ApplyLine(a: Attributes, line: Option<string>): Attributes {
    if line.Some? then Apply(a, line.value) else a
  }

  lemma ApplyListed(a: Attributes, line: Option<string>)
    ensures ApplyAll(a, Listed(line)) == ApplyLine(a, line)
  {
    hide Apply;
    if line.Some? { assert [line.value][..0] == []; }
  }

  lemma HeadRead(a: Attributes, d: Described)
    ensures ApplyLine(a, HeadLine(d)) == if d.head.Some? then a.(head := d.head) else a
  {
    if d.head.Some? { assert After("HEAD " + d.head.value, "HEAD ") == d.head.value; }
  }

  lemma PlaceRead(a: Attributes, d: Described)
    requires DescribedOk(d)
    ensures ApplyLine(a, PlaceLine(d)) ==
      match d.place
      case Bare => a.(bare := true)
      case OnBranch(name) => a.(branch := Some(name))
      case OnRef(ref) => a.(branch := Some(ref))
      case Detached => a.(detached := true)
      case Nowhere => a
  {
    assert "HEAD "[0] == 'H' && "branch "[0] == 'b' && "bare"[0] == 'b' && "detached"[0] == 'd';
    if d.place.OnBranch? {
      var name := d.place.name;
      assert "branch refs/heads/" + name == "branch " + ("refs/heads/" + name);
      assert After("branch " + ("refs/heads/" + name), "branch ") == "refs/heads/" + name;
      assert After("refs/heads/" + name, "refs/heads/") == name;
      assert ("branch refs/heads/" + name)[0] == 'b';
    }
    if d.place.OnRef? {
      assert After("branch " + d.place.ref, "branch ") == d.place.ref && ("branch " + d.place.ref)[0] == 'b';
    }
  }

  /** The parser does not know the word, and passes it over. */
  lemma LockRead(a: Attributes, d: Described)
    ensures ApplyLine(a, Reasoned("locked", d.lock)) == a
  {
    if d.lock.Some? { assert Reasoned("locked", d.lock).value[0] == 'l'; }
  }

  lemma PruneRead(a: Attributes, d: Described)
    requires a.reason.None?
    ensures ApplyLine(a, Reasoned("prunable", d.prune)) ==
      if d.prune.Some? then a.(prunable := true, reason := d.prune.value) else a
  {
    assert "HEAD "[0] == 'H' && "branch "[0] == 'b' && "prunable"[0] == 'p';
    if d.prune.Some? && d.prune.value.Some? {
      var reason := d.prune.value.value;
      assert "prunable" + " " + reason == "prunable " + reason;
      assert After("prunable " + reason, "prunable ") == reason;
      assert ("prunable " + reason)[0] == 'p' && ("prunable " + reason)[8] == ' ';
    }
  }

  lemma DescribedLines(d: Described)
    requires DescribedOk(d)
    ensures BlockOk(BlockFor(d))
  {
    hide Line, LinesOf;
    LinesAreLines(d);
  }

  /** What git says about a worktree is what is read. */
  lemma DescribedBack(uriOf: UriOf, d: Described)
    requires DescribedOk(d) && uriOf(d.path).Some?
    ensures BlockOk(BlockFor(d))
    ensures WorktreeOf(uriOf, BlockFor(d)) == Some(Expected(uriOf(d.path).value, d))
  {
    hide Apply, ApplyAll, ApplyLine, Listed, HeadLine, PlaceLine, Reasoned, Line;
    var h, p, l, r := Listed(HeadLine(d)), Listed(PlaceLine(d)), Listed(Reasoned("locked", d.lock)), Listed(Reasoned("prunable", d.prune));
    LinesAreLines(d);
    var s0 := NoAttributes;
    ApplyAppend(s0, h + p + l, r);
    ApplyAppend(s0, h + p, l);
    ApplyAppend(s0, h, p);
    ApplyListed(s0, HeadLine(d));
    HeadRead(s0, d);
    var s1 := ApplyAll(s0, h);
    ApplyListed(s1, PlaceLine(d));
    PlaceRead(s1, d);
    var s2 := ApplyAll(s1, p);
    ApplyListed(s2, Reasoned("locked", d.lock));
    LockRead(s2, d);
    ApplyListed(s2, Reasoned("prunable", d.prune));
    PruneRead(s2, d);
    assert [] + LinesOf(d) == LinesOf(d);
  }

  lemma LinesAreLines(d: Described)
    requires DescribedOk(d)
    ensures forall i :: 0 <= i < |LinesOf(d)| ==> Line(LinesOf(d)[i])
  {
    hide Line;
    if d.head.Some? { LineWith("HEAD ", d.head.value); }
    PlaceIsLine(d);
    ReasonedIsLine("locked", d.lock);
    ReasonedIsLine("prunable", d.prune);
  }

  lemma PlaceIsLine(d: Described)
    requires DescribedOk(d)
    ensures PlaceLine(d).Some? ==> Line(PlaceLine(d).value)
  {
    hide Line;
    if d.place.OnBranch? { LineWith("branch refs/heads/", d.place.name); }
    if d.place.OnRef? { LineWith("branch ", d.place.ref); }
    LineWith("bare", "");
    LineWith("detached", "");
    assert "bare" + "" == "bare" && "detached" + "" == "detached";
  }

  lemma ReasonedIsLine(word: string, o: Option<Option<string>>)
    requires Field(word) && word[0] != 'w' && (o.Some? && o.value.Some? ==> NulFree(o.value.value))
    ensures Reasoned(word, o).Some? ==> Line(Reasoned(word, o).value)
  {
    hide Line;
    LineWith(word, "");
    assert word + "" == word;
    if o.Some? && o.value.Some? {
      assert Field(word + " ") && (word + " ")[0] == word[0];
      LineWith(word + " ", o.value.value);
    }
  }

  lemma LineWith(word: string, text: string)
    requires Field(word) && word[0] != 'w' && NulFree(text)
    ensures Line(word + text)
  {
    assert (word + text)[0] == word[0] && "worktree "[0] == 'w';
    assert NulFree(word + text);
  }

  function BlocksFor(list: seq<Described>): (r: seq<Block>)
    ensures |r| == |list| && forall i :: 0 <= i < |list| ==> r[i] == BlockFor(list[i])
  {
    seq(|list|, i requires 0 <= i < |list| => BlockFor(list[i]))
  }

  function ExpectedAll(uriOf: UriOf, list: seq<Described>): (r: seq<Worktree>)
    requires forall i :: 0 <= i < |list| ==> uriOf(list[i].path).Some?
    ensures |r| == |list| && forall i :: 0 <= i < |list| ==> r[i] == Expected(uriOf(list[i].path).value, list[i])
  {
    seq(|list|, i requires 0 <= i < |list| => Expected(uriOf(list[i].path).value, list[i]))
  }

  lemma {:induction false} AllBack(uriOf: UriOf, list: seq<Described>)
    requires forall i :: 0 <= i < |list| ==> DescribedOk(list[i]) && uriOf(list[i].path).Some?
    ensures WorktreesOf(uriOf, BlocksFor(list)) == Some(ExpectedAll(uriOf, list))
    decreases |list|
  {
    hide DescribedOk, BlockFor, WorktreeOf, Expected;
    if list != [] {
      DescribedBack(uriOf, list[0]);
      assert BlocksFor(list)[1..] == BlocksFor(list[1..]);
      AllBack(uriOf, list[1..]);
      assert ExpectedAll(uriOf, list) == [Expected(uriOf(list[0].path).value, list[0])] + ExpectedAll(uriOf, list[1..]);
    }
  }

  lemma {:induction false} TokensNulFree(blocks: seq<Block>)
    requires forall i :: 0 <= i < |blocks| ==> BlockOk(blocks[i])
    ensures forall i :: 0 <= i < |TokensOfAll(blocks)| ==> NulFree(TokensOfAll(blocks)[i])
  {
    if blocks != [] {
      TokensNulFree(blocks[1..]);
      var b := blocks[0];
      assert BlockOk(b);
      assert NulFree("worktree " + b.path) && NulFree("");
      assert forall i :: 0 <= i < |TokensOf(b)| ==> NulFree(TokensOf(b)[i]);
    }
  }

  /** One path without an address fails the whole list. */
  lemma {:induction false} NoneBack(uriOf: UriOf, list: seq<Described>, k: nat)
    requires k < |list| && uriOf(list[k].path).None?
    ensures WorktreesOf(uriOf, BlocksFor(list)) == None
    decreases |list|
  {
    hide WorktreeOf, LinesOf, BlockFor;
    assert BlocksFor(list)[1..] == BlocksFor(list[1..]);
    if k > 0 { NoneBack(uriOf, list[1..], k - 1); } else { NoWorktree(uriOf, list[0]); }
  }

  lemma NoWorktree(uriOf: UriOf, d: Described)
    requires uriOf(d.path).None?
    ensures WorktreeOf(uriOf, BlockFor(d)) == None
  {
  }

  /** Any list of worktrees, printed by git and read, comes back in order, each with its own
      fields only; a path without an address fails the whole list. */
  method WorktreesReadBack(uriOf: UriOf, list: seq<Described>) returns (r: Result<seq<Worktree>, GitError>)
    requires forall i :: 0 <= i < |list| ==> DescribedOk(list[i])
    ensures (forall i :: 0 <= i < |list| ==> uriOf(list[i].path).Some?) ==> r == Success(ExpectedAll(uriOf, list))
    ensures (exists i :: 0 <= i < |list| && uriOf(list[i].path).None?) ==> r == Failure(InvalidUri)
  {
    hide DescribedOk, BlockFor, WorktreeOf, WorktreesOf, Expected, BlockOk, Split;
    var blocks := BlocksFor(list);
    forall i | 0 <= i < |blocks| ensures BlockOk(blocks[i]) { DescribedLines(list[i]); }
    TokensNulFree(blocks);
    SplitTokens(TokensOfAll(blocks));
    BlocksReadBack(uriOf, [], blocks);
    ReadAppend(uriOf, Start, TokensOfAll(blocks), [""]);
    r := ParseWorktrees(uriOf, PrintTokens(TokensOfAll(blocks)));
    if k :| 0 <= k < |list| && uriOf(list[k].path).None? {
      NoneBack(uriOf, list, k);
    } else {
      AllBack(uriOf, list);
      var s := State(None, NoAttributes, ExpectedAll(uriOf, list));
      assert [] + ExpectedAll(uriOf, list) == ExpectedAll(uriOf, list);
      ReadOne(uriOf, s, "");
    }
  }

  /** Lines in front of the first path do leak into it, which git's own output never shows. */
  lemma StrayLinesLeak(uriOf: UriOf, uri: string)
    requires uriOf("p") == Some(uri)
    ensures Worktrees(uriOf, ["bare", "worktree p", ""]) == Some([Worktree(uri, None, None, false, true, false, None)])
  {
    var b := Block(["bare"], "p", []);
    assert BlockOk(b) by { assert Line("bare"); assert NulFree("p"); }
    ReadBlock(uriOf, [], b);
    assert TokensOf(b) == ["bare", "worktree p", ""] by { assert "worktree " + "p" == "worktree p"; }
    ApplyListed(NoAttributes, Some("bare"));
    assert ["bare"] + [] == ["bare"];
    var w := Worktree(uri, None, None, false, true, false, None);
    assert WorktreeOf(uriOf, b) == Some(w);
    assert [] + [w] == [w];
  }
}
