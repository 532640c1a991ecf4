/** Slash-separated paths: joining a name, taking the last name, and joining many. */
module RemotePaths {
  import opened Basics

  function JoinRemote(base: string, name: string): string {
    if base != "" && base[|base| - 1] == '/' then base + name else base + "/" + name
  }

  function WithoutSlashes(path: string): string {
    if path != "" && path[|path| - 1] == '/' then WithoutSlashes(path[..|path| - 1]) else path
  }

  /** What follows the last slash. */
  function AfterSlash(path: string): string {
    if path == "" || path[|path| - 1] == '/' then "" else AfterSlash(path[..|path| - 1]) + [path[|path| - 1]]
  }

  /** The last name of a path, empty if there is none. */
  function LastName(path: string): string {
    AfterSlash(WithoutSlashes(path))
  }

  function RemoteBasename(path: string, fallback: string): string {
    if LastName(path) == "" then fallback else LastName(path)
  }

  /** A name of a directory entry. */
  predicate Name(name: string) {
    name != "" && forall i :: 0 <= i < |name| ==> name[i] != '/'
  }

  lemma {:induction false} AfterSlashOf(base: string, name: string)
    requires base == "" || base[|base| - 1] == '/'
    requires forall i :: 0 <= i < |name| ==> name[i] != '/'
    ensures AfterSlash(base + name) == name
  {
    if name == "" {
      assert base + name == base;
    } else {
      var n := |name| - 1;
      assert (base + name)[..|base + name| - 1] == base + name[..n];
      AfterSlashOf(base, name[..n]);
      assert name == name[..n] + [name[n]];
    }
  }

  /** Taking the last name undoes the join, wherever the name was joined to. */
  lemma BasenameUndoesJoin(base: string, name: string, fallback: string)
    requires Name(name)
    ensures LastName(JoinRemote(base, name)) == name && RemoteBasename(JoinRemote(base, name), fallback) == name
  {
    var path := JoinRemote(base, name);
    assert path[|path| - 1] == name[|name| - 1];
    if base != "" && base[|base| - 1] == '/' {
      AfterSlashOf(base, name);
    } else {
      AfterSlashOf(base + "/", name);
    }
  }

  lemma {:induction false} LastNameEmpty(path: string)
    ensures LastName(path) == "" <==> forall i :: 0 <= i < |path| ==> path[i] == '/'
  {
    if path != "" && path[|path| - 1] == '/' {
      LastNameEmpty(path[..|path| - 1]);
      if LastName(path) == "" {
        forall i | 0 <= i < |path| ensures path[i] == '/' { if i < |path| - 1 { assert path[i] == path[..|path| - 1][i]; } }
      }
    }
  }

  // ----- joining several names -----

  function JoinAll(base: string, names: seq<string>): string
    decreases |names|
  {
    if names == [] then base else JoinAll(JoinRemote(base, names[0]), names[1..])
  }

  function Tail(names: seq<string>): string {
    if names == [] then "" else "/" + names[0] + Tail(names[1..])
  }

  predicate Names(names: seq<string>) {
    forall k :: 0 <= k < |names| ==> Name(names[k])
  }

  function Stem(base: string): string {
    if base != "" && base[|base| - 1] == '/' then base[..|base| - 1] else base
  }

  lemma {:induction false} JoinAllIsTail(base: string, names: seq<string>)
    requires Names(names) && names != []
    ensures JoinAll(base, names) == Stem(base) + Tail(names)
    decreases |names|
  {
    var first, rest := JoinRemote(base, names[0]), names[1..];
    JoinStem(base, names[0]);
    if rest != [] {
      JoinAllIsTail(first, rest);
      Regrouped(Stem(base), names[0], Tail(rest));
    } else {
      Regrouped(Stem(base), names[0], "");
    }
  }

  lemma JoinStem(base: string, name: string)
    requires Name(name)
    ensures JoinRemote(base, name) == Stem(base) + "/" + name && Stem(JoinRemote(base, name)) == JoinRemote(base, name)
  {
    var joined := JoinRemote(base, name);
    assert joined[|joined| - 1] == name[|name| - 1];
  }

  lemma Regrouped(a: string, name: string, b: string)
    ensures a + "/" + name + b == a + ("/" + name + b)
    ensures name + "" == name
  {
  }

  function UntilSlash(text: string): nat {
    if text == "" || text[0] == '/' then 0 else 1 + UntilSlash(text[1..])
  }

  lemma {:induction false} NameUntilSlash(name: string, rest: string)
    requires forall i :: 0 <= i < |name| ==> name[i] != '/'
    requires rest == "" || rest[0] == '/'
    ensures UntilSlash(name + rest) == |name|
  {
    if name == "" {
      assert name + rest == rest;
    } else {
      assert (name + rest)[1..] == name[1..] + rest;
      NameUntilSlash(name[1..], rest);
    }
  }

  lemma FirstSlash(name: string, a: string, other: string, b: string)
    requires Name(name) && Name(other) && name + a == other + b
    requires (a == "" || a[0] == '/') && (b == "" || b[0] == '/')
    ensures name == other && a == b
  {
    NameUntilSlash(name, a);
    NameUntilSlash(other, b);
    var text := name + a;
    assert name == text[..|name|] && other == text[..|name|];
    assert a == text[|name|..] && b == text[|name|..];
  }

  lemma {:induction false} TailInjective(a: seq<string>, b: seq<string>)
    requires Names(a) && Names(b) && Tail(a) == Tail(b)
    ensures a == b
  {
    if a != [] && b != [] {
      assert Tail(a)[1..] == a[0] + Tail(a[1..]) && Tail(b)[1..] == b[0] + Tail(b[1..]);
      FirstSlash(a[0], Tail(a[1..]), b[0], Tail(b[1..]));
      TailInjective(a[1..], b[1..]);
      assert a == [a[0]] + a[1..] && b == [b[0]] + b[1..];
    }
  }

  lemma LongTail(names: seq<string>)
    requires Names(names)
    ensures names != [] ==> |Tail(names)| >= 2
  {
    if names != [] { assert Name(names[0]); }
  }

  /** Different lists of names lead to different places. */
  lemma JoinAllInjective(base: string, a: seq<string>, b: seq<string>)
    requires Names(a) && Names(b) && JoinAll(base, a) == JoinAll(base, b)
    ensures a == b
  {
    LongTail(a);
    LongTail(b);
    if a != [] { JoinAllIsTail(base, a); }
    if b != [] { JoinAllIsTail(base, b); }
    if a != [] && b != [] {
      assert Tail(a) == JoinAll(base, a)[|Stem(base)|..] && Tail(b) == JoinAll(base, b)[|Stem(base)|..];
      TailInjective(a, b);
    }
  }
}
