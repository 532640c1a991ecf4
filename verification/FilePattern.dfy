/** File name patterns of the content search, compared with what the star usually means. */
module FilePattern {
  import opened Basics
  import opened Texts

  // ----- as the search reads a pattern -----

  /** The pieces between commas; one more than there are commas. */
  function Pieces(s: string): (r: seq<string>)
    ensures r != []
  {
    if s == "" then [""]
    else
      var rest := Pieces(s[1..]);
      if s[0] == ',' then [""] + rest else [[s[0]] + rest[0]] + rest[1..]
  }

  predicate EndsWith(name: string, end: string) {
    |end| <= |name| && name[|name| - |end|..] == end
  }

  /** One piece: a star in front, else a star at the end, else the whole name. All other stars
      stand for themselves. */
  predicate MatchesPiece(name: string, piece: string) {
    if piece != "" && piece[0] == '*' then EndsWith(name, piece[1..])
    else if piece != "" && piece[|piece| - 1] == '*' then piece[..|piece| - 1] <= name
    else name == piece
  }

  predicate MatchesAny(name: string, pieces: seq<string>) {
    exists k :: 0 <= k < |pieces| && MatchesPiece(name, Trim(pieces[k]))
  }

  function Joined(pieces: seq<string>): string
    requires pieces != []
  {
    if |pieces| == 1 then pieces[0] else pieces[0] + "," + Joined(pieces[1..])
  }

  predicate CommaFree(piece: string) {
    forall i :: 0 <= i < |piece| ==> piece[i] != ','
  }

  /** The pieces are the comma-free texts that, with commas between them, give the pattern. */
  lemma {:induction false} PiecesMeaning(s: string)
    ensures Joined(Pieces(s)) == s
    ensures forall k :: 0 <= k < |Pieces(s)| ==> CommaFree(Pieces(s)[k])
  {
    if s != "" {
      PiecesMeaning(s[1..]);
      PiecesStep(s[0], s[1..], Pieces(s[1..]));
      assert [s[0]] + s[1..] == s;
    }
  }

  lemma PiecesStep(c: char, s: string, rest: seq<string>)
    requires rest != [] && Joined(rest) == s && forall k :: 0 <= k < |rest| ==> CommaFree(rest[k])
    ensures var all := if c == ',' then [""] + rest else [[c] + rest[0]] + rest[1..];
      Joined(all) == [c] + s && forall k :: 0 <= k < |all| ==> CommaFree(all[k])
  {
    if c == ',' {
      assert ([""] + rest)[1..] == rest;
    } else {
      var first := [c] + rest[0];
      assert CommaFree(rest[0]) && CommaFree(first);
      assert ([first] + rest[1..])[1..] == rest[1..];
      if |rest| > 1 { assert [c] + (rest[0] + "," + Joined(rest[1..])) == [c] + rest[0] + "," + Joined(rest[1..]); }
    }
  }

  method MatchesFilePattern(name: string, pattern: Option<string>) returns (matches: bool)
    ensures matches <==> pattern.None? || MatchesAny(name, Pieces(pattern.value))
  {
    hide MatchesPiece, Trim, Pieces;
    if pattern.None? { return true; }
    var patterns := Pieces(pattern.value);
    for i := 0 to |patterns|
      invariant forall k :: 0 <= k < i ==> !MatchesPiece(name, Trim(patterns[k]))
    {
      if MatchesPiece(name, Trim(patterns[i])) { return true; }
    }
    return false;
  }

  // ----- as a star is usually read -----

  /** Every star stands for any text. */
  predicate Glob(name: string, piece: string)
    decreases |piece|
  {
    if piece == "" then name == ""
    else if piece[0] == '*' then exists k | 0 <= k <= |name| :: Glob(name[k..], piece[1..])
    else name != "" && name[0] == piece[0] && Glob(name[1..], piece[1..])
  }

  predicate StarFree(piece: string) {
    forall i :: 0 <= i < |piece| ==> piece[i] != '*'
  }

  /** At most one star, at one of the ends. */
  predicate Simple(piece: string) {
    || StarFree(piece)
    || (piece != "" && piece[0] == '*' && StarFree(piece[1..]))
    || (piece != "" && piece[|piece| - 1] == '*' && StarFree(piece[..|piece| - 1]))
  }

  /** The piece with every star replaced by nothing. */
  function Erased(piece: string): (r: string)
    ensures |r| <= |piece|
    ensures |r| == |piece| <==> StarFree(piece)
  {
    if piece == "" then ""
    else if piece[0] == '*' then
      assert !StarFree(piece);
      Erased(piece[1..])
    else
      assert StarFree(piece) <==> StarFree(piece[1..]) by {
        if StarFree(piece[1..]) {
          forall i | 0 <= i < |piece| ensures piece[i] != '*' { if i > 0 { assert piece[i] == piece[1..][i - 1]; } }
        }
      }
      [piece[0]] + Erased(piece[1..])
  }

  lemma {:induction false} ErasedMatches(piece: string)
    ensures Glob(Erased(piece), piece)
  {
    if piece != "" {
      ErasedMatches(piece[1..]);
      var e := Erased(piece);
      if piece[0] == '*' { assert e[0..] == Erased(piece[1..]); } else { assert e[1..] == Erased(piece[1..]); }
    }
  }

  /** A star may also stand for a star. */
  lemma {:induction false} SelfMatches(name: string, piece: string)
    requires name == piece
    ensures Glob(name, piece)
  {
    if piece != "" { SelfMatches(name[1..], piece[1..]); }
  }

  lemma {:induction false} PlainGlob(name: string, piece: string)
    requires StarFree(piece)
    ensures Glob(name, piece) <==> name == piece
  {
    if piece != "" && name != "" {
      PlainGlob(name[1..], piece[1..]);
      assert name == [name[0]] + name[1..] && piece == [piece[0]] + piece[1..];
    }
  }

  lemma {:induction false} GlobEverything(name: string)
    ensures Glob(name, "*")
  {
    assert name[|name|..] == "" && "*"[1..] == "";
    assert Glob("", "");
  }

  /** A plain beginning and a star. */
  lemma {:induction false} PrefixGlob(name: string, start: string)
    requires start <= name
    ensures Glob(name, start + "*")
  {
    if start == "" {
      assert start + "*" == "*";
      GlobEverything(name);
    } else if start[0] == '*' {
      PrefixGlob(name[1..], start[1..]);
      assert (start + "*")[1..] == start[1..] + "*";
    } else {
      PrefixGlob(name[1..], start[1..]);
      assert (start + "*")[1..] == start[1..] + "*";
    }
  }

  lemma {:induction false} PrefixGlobOnly(name: string, start: string)
    requires StarFree(start) && Glob(name, start + "*")
    ensures start <= name
  {
    if start != "" {
      assert (start + "*")[1..] == start[1..] + "*";
      PrefixGlobOnly(name[1..], start[1..]);
    }
  }

  /** What the search accepts, a shell would accept as well. */
  lemma AcceptedByGlob(name: string, piece: string)
    requires MatchesPiece(name, piece)
    ensures Glob(name, piece)
  {
    if piece != "" && piece[0] == '*' {
      SelfMatches(name[|name| - |piece[1..]|..], piece[1..]);
    } else if piece != "" && piece[|piece| - 1] == '*' {
      PrefixGlob(name, piece[..|piece| - 1]);
      assert piece[..|piece| - 1] + "*" == piece;
    } else {
      SelfMatches(name, piece);
    }
  }

  lemma SimpleIsGlob(name: string, piece: string)
    requires Simple(piece) && Glob(name, piece)
    ensures MatchesPiece(name, piece)
  {
    if StarFree(piece) {
      PlainGlob(name, piece);
    } else if piece[0] == '*' && StarFree(piece[1..]) {
      var k :| 0 <= k <= |name| && Glob(name[k..], piece[1..]);
      PlainGlob(name[k..], piece[1..]);
    } else {
      assert piece[..|piece| - 1] + "*" == piece;
      PrefixGlobOnly(name, piece[..|piece| - 1]);
      assert |piece| > 1 ==> piece[..|piece| - 1][0] == piece[0];
    }
  }

  lemma {:induction false} ErasedSnoc(piece: string)
    ensures Erased(piece + "*") == Erased(piece)
  {
    if piece == "" {
      assert "" + "*" == "*" && "*"[1..] == "";
    } else {
      assert (piece + "*")[1..] == piece[1..] + "*";
      ErasedSnoc(piece[1..]);
    }
  }

  /** Any other piece misses a name that it should match: its own text without the stars. */
  lemma OthersMiss(piece: string)
    requires !Simple(piece)
    ensures !MatchesPiece(Erased(piece), piece)
  {
    var name := Erased(piece);
    if piece[0] == '*' {
      assert name == Erased(piece[1..]) && |name| < |piece[1..]|;
    } else if piece[|piece| - 1] == '*' {
      ErasedSnoc(piece[..|piece| - 1]);
      assert piece[..|piece| - 1] + "*" == piece;
      assert |name| < |piece| - 1;
    } else {
      assert |name| < |piece|;
    }
  }

  /** The search reads a piece as a shell does, for every name, exactly if it has at most one
      star and that at one of its ends. */
  lemma PieceIsGlobIff(piece: string)
    ensures Simple(piece) <==> forall name :: MatchesPiece(name, piece) <==> Glob(name, piece)
  {
    if Simple(piece) {
      forall name ensures MatchesPiece(name, piece) <==> Glob(name, piece) {
        if MatchesPiece(name, piece) { AcceptedByGlob(name, piece); }
        if Glob(name, piece) { SimpleIsGlob(name, piece); }
      }
    } else {
      OthersMiss(piece);
      ErasedMatches(piece);
    }
  }
}
