/** Texts: their lines, and the white space around them. */
module Texts {
  // ----- lines of a text -----

  /** Index of the first line feed, or the length. */
  function FirstBreak(text: string): (n: nat)
    ensures n <= |text| && (n < |text| ==> text[n] == '\n')
    ensures forall i :: 0 <= i < n ==> text[i] != '\n'
  {
    if text == "" || text[0] == '\n' then 0
    else
      assert forall i :: 1 <= i < FirstBreak(text[1..]) + 1 ==> text[i] == text[1..][i - 1];
      1 + FirstBreak(text[1..])
  }

  function WithoutReturn(line: string): string {
    if line != "" && line[|line| - 1] == '\r' then line[..|line| - 1] else line
  }

  /** As `str::lines`: a line feed ends a line, one carriage return before it is dropped, and the
      last line needs no line feed. */
  function Lines(text: string): seq<string>
    decreases |text|
  {
    if text == "" then []
    else
      var n := FirstBreak(text);
      if n == |text| then [text] else [WithoutReturn(text[..n])] + Lines(text[n + 1..])
  }

  /** The text with "\r\n" written as "\n", and a line feed behind an unfinished last line. */
  function Normal(text: string): string
    decreases |text|
  {
    if text == "" then ""
    else if |text| > 1 && text[0] == '\r' && text[1] == '\n' then "\n" + Normal(text[2..])
    else if |text| == 1 && text[0] != '\n' then text + "\n"
    else [text[0]] + Normal(text[1..])
  }

  function Joined(lines: seq<string>): string {
    if lines == [] then "" else lines[0] + "\n" + Joined(lines[1..])
  }

  predicate OneLine(line: string) {
    forall i :: 0 <= i < |line| ==> line[i] != '\n'
  }

  lemma FirstKept(line: string)
    requires line != "" && line != "\r"
    ensures WithoutReturn(line) == [line[0]] + WithoutReturn(line[1..])
  {
  }

  lemma {:induction false} NormalTo(text: string, n: nat)
    requires n < |text| && text[n] == '\n' && OneLine(text[..n])
    ensures Normal(text) == WithoutReturn(text[..n]) + "\n" + Normal(text[n + 1..])
  {
    assert forall i :: 0 <= i < n ==> text[i] == text[..n][i];
    if n == 0 {
    } else if n == 1 && text[0] == '\r' {
      assert text[..1] == ['\r'];
    } else {
      assert text[0] != '\n';
      assert text[1..][..n - 1] == text[..n][1..];
      assert text[1..][n..] == text[n + 1..];
      assert n > 1 ==> text[1] == text[..n][1];
      NormalTo(text[1..], n - 1);
      FirstKept(text[..n]);
      var rest := Normal(text[n + 1..]);
      assert [text[0]] + (WithoutReturn(text[..n][1..]) + "\n" + rest) == [text[0]] + WithoutReturn(text[..n][1..]) + "\n" + rest;
    }
  }

  lemma {:induction false} NormalLast(text: string)
    requires text != "" && OneLine(text)
    ensures Normal(text) == text + "\n"
  {
    if |text| > 1 { NormalLast(text[1..]); }
  }

  lemma {:induction false} JoinedLines(text: string)
    ensures Joined(Lines(text)) == Normal(text)
    ensures forall k :: 0 <= k < |Lines(text)| ==> OneLine(Lines(text)[k])
    decreases |text|
  {
    if text != "" {
      var n := FirstBreak(text);
      if n == |text| {
        NormalLast(text);
        assert Joined([text]) == text + "\n" + Joined([]);
      } else {
        assert OneLine(text[..n]);
        NormalTo(text, n);
        JoinedLines(text[n + 1..]);
        assert Lines(text)[1..] == Lines(text[n + 1..]);
      }
    }
  }

  lemma FirstOfJoined(line: string, rest: string)
    requires OneLine(line)
    ensures FirstBreak(line + "\n" + rest) == |line|
  {
    var text := line + "\n" + rest;
    assert forall i :: 0 <= i < |line| ==> text[i] == line[i];
    assert text[|line|] == '\n';
  }

  lemma {:induction false} JoinedInjective(a: seq<string>, b: seq<string>)
    requires Joined(a) == Joined(b)
    requires forall k :: 0 <= k < |a| ==> OneLine(a[k])
    requires forall k :: 0 <= k < |b| ==> OneLine(b[k])
    ensures a == b
  {
    if a != [] && b != [] {
      FirstOfJoined(a[0], Joined(a[1..]));
      FirstOfJoined(b[0], Joined(b[1..]));
      var text := Joined(a);
      assert a[0] == text[..|a[0]|] && b[0] == text[..|b[0]|];
      assert Joined(a[1..]) == text[|a[0]| + 1..] && Joined(b[1..]) == text[|b[0]| + 1..];
      JoinedInjective(a[1..], b[1..]);
      assert a == [a[0]] + a[1..] && b == [b[0]] + b[1..];
    }
  }

  /** Two texts have the same lines exactly if they differ only in line endings. */
  lemma SameLines(left: string, right: string)
    ensures Lines(left) == Lines(right) <==> Normal(left) == Normal(right)
  {
    JoinedLines(left);
    JoinedLines(right);
    if Normal(left) == Normal(right) { JoinedInjective(Lines(left), Lines(right)); }
  }

  // ----- white space -----

  predicate Space(c: char) {
    c == ' ' || c == '\t' || c == '\n' || c == '\r' || c == '\U{0B}' || c == '\U{0C}'
  }

  function TrimStart(s: string): string {
    if s != "" && Space(s[0]) then TrimStart(s[1..]) else s
  }

  function TrimEnd(s: string): string {
    if s != "" && Space(s[|s| - 1]) then TrimEnd(s[..|s| - 1]) else s
  }

  function Trim(s: string): string {
    TrimEnd(TrimStart(s))
  }

  /** What is left begins and ends with something else than white space. */
  predicate Trimmed(s: string) {
    s == "" || (!Space(s[0]) && !Space(s[|s| - 1]))
  }

  lemma {:induction false} TrimStartMeaning(s: string)
    ensures |TrimStart(s)| <= |s| && s[|s| - |TrimStart(s)|..] == TrimStart(s)
    ensures TrimStart(s) != "" ==> !Space(TrimStart(s)[0]) && TrimStart(s)[|TrimStart(s)| - 1] == s[|s| - 1]
  {
    if s != "" && Space(s[0]) { TrimStartMeaning(s[1..]); }
  }

  lemma {:induction false} TrimEndMeaning(s: string)
    ensures TrimEnd(s) <= s
    ensures TrimEnd(s) != "" ==> !Space(TrimEnd(s)[|TrimEnd(s)| - 1]) && TrimEnd(s)[0] == s[0]
  {
    if s != "" && Space(s[|s| - 1]) { TrimEndMeaning(s[..|s| - 1]); }
  }

  /** Trimming takes a part out of the text, and leaves a trimmed text as it is. */
  lemma TrimMeaning(s: string) returns (from: nat)
    ensures Trimmed(Trim(s))
    ensures Trimmed(s) ==> Trim(s) == s
    ensures from + |Trim(s)| <= |s| && s[from..from + |Trim(s)|] == Trim(s)
  {
    TrimStartMeaning(s);
    TrimEndMeaning(TrimStart(s));
    from := |s| - |TrimStart(s)|;
    assert s[from..from + |Trim(s)|] == TrimStart(s)[..|Trim(s)|];
  }
}
