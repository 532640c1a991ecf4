/** Preference values: how each kind is read from a text, normalised and printed. */
module PreferenceValues {
  import opened Basics
  import opened Texts

  // ----- decimal numbers -----

  const U32_LIMIT: nat := 0x1_0000_0000

  function Digit(n: nat): char
    requires n < 10
  {
    '0' + (n as char)
  }

  predicate IsDigit(c: char) {
    '0' <= c <= '9'
  }

  function Decimal(n: nat): (s: string)
    ensures s != "" && forall i :: 0 <= i < |s| ==> IsDigit(s[i])
  {
    if n < 10 then [Digit(n)] else Decimal(n / 10) + [Digit(n % 10)]
  }

  function Digits(s: string): Option<nat> {
    if s == "" then Some(0)
    else
      var last := s[|s| - 1];
      if !IsDigit(last) then None
      else match Digits(s[..|s| - 1]) case None => None case Some(n) => Some(10 * n + ((last as int) - ('0' as int)))
  }

  /** As `str::parse::<u32>`: digits, with a plus sign or not, and no overflow. */
  function ParseU32(s: string): Option<nat> {
    var digits := if s != "" && s[0] == '+' then s[1..] else s;
    if digits == "" then None
    else match Digits(digits) case None => None case Some(n) => if n < U32_LIMIT then Some(n) else None
  }

  lemma {:induction false} DigitsOfDecimal(n: nat)
    ensures Digits(Decimal(n)) == Some(n)
  {
    if n >= 10 {
      DigitsOfDecimal(n / 10);
      var s := Decimal(n);
      assert s[..|s| - 1] == Decimal(n / 10);
    } else {
      assert Decimal(n)[..0] == "";
    }
  }

  lemma ParsePrinted(n: nat)
    requires n < U32_LIMIT
    ensures ParseU32(Decimal(n)) == Some(n)
  {
    DigitsOfDecimal(n);
    assert IsDigit(Decimal(n)[0]);
  }

  // ----- sizes in bytes -----

  /** The width of a character in UTF-8. */
  function Width(c: char): nat {
    if (c as int) < 0x80 then 1 else if (c as int) < 0x800 then 2 else if (c as int) < 0x10000 then 3 else 4
  }

  function Bytes(s: string): nat {
    if s == "" then 0 else Width(s[0]) + Bytes(s[1..])
  }

  lemma {:induction false} BytesAppend(a: string, b: string)
    ensures Bytes(a + b) == Bytes(a) + Bytes(b)
  {
    if a == "" {
      assert a + b == b;
    } else {
      assert (a + b)[1..] == a[1..] + b;
      BytesAppend(a[1..], b);
    }
  }

  lemma BytesOfPart(s: string, from: nat, to: nat)
    requires from <= to <= |s|
    ensures Bytes(s[from..to]) <= Bytes(s)
  {
    hide Bytes;
    assert s == s[..from] + (s[from..to] + s[to..]);
    BytesAppend(s[..from], s[from..to] + s[to..]);
    BytesAppend(s[from..to], s[to..]);
  }

  lemma BytesOfTrim(s: string)
    ensures Bytes(Trim(s)) <= Bytes(s)
  {
    var from := TrimMeaning(s);
    BytesOfPart(s, from, from + |Trim(s)|);
  }

  // ----- lower case -----

  function LowerChar(c: char): char {
    if 'A' <= c <= 'Z' then ((c as int) + 32) as char else c
  }

  function Lower(s: string): (r: string)
    ensures |r| == |s| && forall i :: 0 <= i < |s| ==> r[i] == LowerChar(s[i])
  {
    seq(|s|, i requires 0 <= i < |s| => LowerChar(s[i]))
  }

  // ----- one argument a line -----

  function TrimmedLines(lines: seq<string>): seq<string> {
    if lines == [] then []
    else (if Trim(lines[0]) == "" then [] else [Trim(lines[0])]) + TrimmedLines(lines[1..])
  }

  function JoinLines(lines: seq<string>): string {
    if lines == [] then "" else if |lines| == 1 then lines[0] else lines[0] + "\n" + JoinLines(lines[1..])
  }

  function ArgLines(text: string): string {
    JoinLines(TrimmedLines(Lines(text)))
  }

  /** A line that joining and splitting leave alone. */
  predicate CleanLine(line: string) {
    line != "" && Trimmed(line) && OneLine(line)
  }

  lemma {:induction false} TrimmedLinesClean(lines: seq<string>)
    requires forall k :: 0 <= k < |lines| ==> OneLine(lines[k])
    ensures forall k :: 0 <= k < |TrimmedLines(lines)| ==> CleanLine(TrimmedLines(lines)[k])
  {
    if lines != [] {
      TrimmedLinesClean(lines[1..]);
      var from := TrimMeaning(lines[0]);
      var t := Trim(lines[0]);
      forall i | 0 <= i < |t| ensures t[i] != '\n' { assert t[i] == lines[0][from + i]; }
    }
  }

  lemma {:induction false} CleanStays(lines: seq<string>)
    requires forall k :: 0 <= k < |lines| ==> CleanLine(lines[k])
    ensures TrimmedLines(lines) == lines && Lines(JoinLines(lines)) == lines
  {
    if lines != [] {
      var first := lines[0];
      CleanStays(lines[1..]);
      var from := TrimMeaning(first);
      assert first[|first| - 1] != '\r';
      if |lines| == 1 {
        assert FirstBreak(first) == |first|;
      } else {
        FirstOfJoined(first, JoinLines(lines[1..]));
        var text := JoinLines(lines);
        assert text[..|first|] == first && text[|first| + 1..] == JoinLines(lines[1..]);
      }
    }
  }

  /** Normalising the arguments again changes nothing. */
  lemma ArgLinesTwice(text: string)
    ensures ArgLines(ArgLines(text)) == ArgLines(text)
  {
    JoinedLines(text);
    var lines := TrimmedLines(Lines(text));
    TrimmedLinesClean(Lines(text));
    CleanStays(lines);
  }

  /** The first line, trimmed, in front of the others. */
  lemma JoinFirst(t: string, more: seq<string>)
    ensures Bytes(JoinLines((if t == "" then [] else [t]) + more)) <=
      Bytes(t) + (if more == [] then 0 else 1 + Bytes(JoinLines(more)))
  {
    if t == "" {
      assert [] + more == more;
    } else if more == [] {
      assert [t] + [] == [t];
    } else {
      assert ([t] + more)[1..] == more;
      assert JoinLines([t] + more) == t + ("\n" + JoinLines(more));
      BytesAppend(t, "\n" + JoinLines(more));
      BytesAppend("\n", JoinLines(more));
      assert "\n"[1..] == "";
    }
  }

  lemma BytesOfFirst(text: string, n: nat, line: string)
    requires n < |text| && text[n] == '\n' && line <= text[..n]
    ensures Bytes(Trim(line)) + 1 + Bytes(text[n + 1..]) <= Bytes(text)
  {
    var rest := text[n + 1..];
    assert text == text[..n] + (['\n'] + rest);
    BytesAppend(text[..n], ['\n'] + rest);
    BytesAppend(['\n'], rest);
    assert ['\n'][1..] == "";
    BytesOfPart(text[..n], 0, |line|);
    assert text[..n][0..|line|] == line;
    BytesOfTrim(line);
  }

  /** Normalised arguments are no longer than what was given, so they are not rejected later. */
  lemma {:induction false} ArgLinesNotLonger(text: string)
    ensures Bytes(ArgLines(text)) <= Bytes(text)
    decreases |text|
  {
    hide Trim, Bytes;
    if text == "" {
    } else if FirstBreak(text) == |text| {
      assert Lines(text) == [text] && [text][1..] == [];
      var none: seq<string> := [];
      assert TrimmedLines([text]) == (if Trim(text) == "" then none else [Trim(text)]) + TrimmedLines(none);
      JoinFirst(Trim(text), none);
      BytesOfTrim(text);
    } else {
      var n := FirstBreak(text);
      var line, rest := WithoutReturn(text[..n]), text[n + 1..];
      ArgLinesNotLonger(rest);
      assert Lines(text)[1..] == Lines(rest);
      BytesOfFirst(text, n, line);
      JoinFirst(Trim(line), TrimmedLines(Lines(rest)));
    }
  }

  // ----- kinds of values -----

  /** A floating-point value: a number that the format represents, or one of the special ones. */
  datatype Float = Finite(r: real) | Infinite(negative: bool) | NaN

  datatype Value = Text(text: string) | Flag(on: bool) | Number(n: nat) | Fraction(f: Float)

  datatype Kind =
    | OneOf(choices: seq<string>)
    | OneOfLower(choices: seq<string>)
    | Switch
    | Range(lo: nat, hi: nat)
    | ZeroOrRange(lo: nat, hi: nat)
    | RealRange(least: real, most: real)
    | ShortText(limit: nat)
    | Arguments(limit: nat)
    | Json(limit: nat)
    | JsonArray
    | ExportPath(limit: nat)

  /** What the model does not look into: the JSON parser, the floating-point format with its parser
      and printer, the path rules, and the default export path of the machine. `represents` says
      which reals the format has; `literal` is the represented number a decimal literal denotes. */
  datatype Outside = Outside(
    isJson: string -> bool, isJsonArray: string -> bool, isSafeAbsolute: string -> bool,
    represents: real -> bool, literal: real -> real,
    parseFloat: string -> Option<Float>, printFloat: Float -> string, defaultExportPath: string)

  predicate FloatOk(o: Outside, f: Float) {
    f.Finite? ==> o.represents(f.r)
  }

  /** Printing and parsing invert each other on the values of the format, and parsing yields no
      others. */
  ghost predicate PrinterOk(o: Outside) {
    && (forall f :: FloatOk(o, f) ==> o.parseFloat(o.printFloat(f)) == Some(f))
    && (forall s :: o.parseFloat(s).Some? ==> FloatOk(o, o.parseFloat(s).value))
    && LiteralsOk(o)
  }

  /** Literals between 0 and 1 are rounded to represented numbers, never across each other. */
  ghost predicate LiteralsOk(o: Outside) {
    && (forall x :: 0.0 <= x <= 1.0 ==> o.represents(o.literal(x)))
    && (forall x, y :: 0.0 <= x <= y <= 1.0 ==> o.literal(x) <= o.literal(y))
  }

  /** The export path of the machine is accepted when it is read back. */
  predicate DefaultPathReadable(o: Outside, limit: nat) {
    var p := Trim(o.defaultExportPath);
    p == "" || (Bytes(p) <= limit && o.isSafeAbsolute(p))
  }

  /** And it is read back as it is. */
  predicate DefaultPathOk(o: Outside, limit: nat) {
    DefaultPathReadable(o, limit) && (Trim(o.defaultExportPath) == "" || Trimmed(o.defaultExportPath))
  }

  function Clamp(n: nat, lo: nat, hi: nat): nat {
    if n < lo then lo else if n > hi then hi else n
  }

  /** As `f64::clamp`: infinities go to the ends, and what is not a number stays so. */
  function ClampFloat(f: Float, lo: real, hi: real): Float {
    match f
    case Finite(x) => Finite(if x < lo then lo else if x > hi then hi else x)
    case Infinite(negative) => Finite(if negative then lo else hi)
    case NaN => NaN
  }

  /** What a stored or given text means for a kind; None if it is rejected. */
  function Parse(o: Outside, kind: Kind, value: string): Option<Value> {
    match kind
    case OneOf(choices) => if value in choices then Some(Text(value)) else None
    case OneOfLower(choices) => if Lower(Trim(value)) in choices then Some(Text(Lower(Trim(value)))) else None
    case Switch =>
      if value == "true" || value == "1" then Some(Flag(true))
      else if value == "false" || value == "0" then Some(Flag(false)) else None
    case Range(lo, hi) =>
      (match ParseU32(value) case None => None case Some(n) => Some(Number(Clamp(n, lo, hi))))
    case ZeroOrRange(lo, hi) =>
      (match ParseU32(value) case None => None case Some(n) => Some(Number(if n == 0 then 0 else Clamp(n, lo, hi))))
    case RealRange(lo, hi) =>
      (match o.parseFloat(value) case None => None case Some(f) => Some(Fraction(ClampFloat(f, lo, hi))))
    case ShortText(limit) => if Bytes(Trim(value)) > limit then None else Some(Text(Trim(value)))
    case Arguments(limit) => if Bytes(value) > limit then None else Some(Text(ArgLines(value)))
    case Json(limit) =>
      if Trim(value) == "" then Some(Text(""))
      else if Bytes(Trim(value)) > limit || !o.isJson(Trim(value)) then None else Some(Text(Trim(value)))
    case JsonArray => if value == "" then Some(Text("")) else if o.isJsonArray(value) then Some(Text(value)) else None
    case ExportPath(limit) =>
      if Trim(value) == "" then Some(Text(o.defaultExportPath))
      else if Bytes(Trim(value)) > limit || !o.isSafeAbsolute(Trim(value)) then None else Some(Text(Trim(value)))
  }

  function Print(o: Outside, v: Value): string {
    match v
    case Text(text) => text
    case Flag(on) => if on then "true" else "false"
    case Number(n) => Decimal(n)
    case Fraction(f) => o.printFloat(f)
  }

  predicate KindOk(o: Outside, kind: Kind) {
    match kind
    case OneOfLower(choices) => forall c :: c in choices ==> Lower(Trim(c)) == c
    case Range(lo, hi) => lo <= hi < U32_LIMIT
    case ZeroOrRange(lo, hi) => 0 < lo <= hi < U32_LIMIT
    case RealRange(lo, hi) => lo <= hi && o.represents(lo) && o.represents(hi)
    case _ => true
  }

  /** The value is one that reading its own print gives back. */
  predicate Canonical(o: Outside, kind: Kind, v: Value) {
    Parse(o, kind, Print(o, v)) == Some(v)
  }

  /** Every normaliser accepts its own result and leaves it alone, with one exception: an empty
      export path is replaced by the machine's default, which must itself be acceptable. */
  lemma NormalisedStays(o: Outside, kind: Kind, value: string)
    requires PrinterOk(o) && KindOk(o, kind) && Parse(o, kind, value).Some?
    ensures Canonical(o, kind, Parse(o, kind, value).value)
      <==> kind.ExportPath? && Trim(value) == "" ==> DefaultPathOk(o, kind.limit)
  {
    hide Trim, Decimal, ParseU32, ArgLines, Bytes, Lower, Trimmed;
    TrimTwice(value);
    match kind
    case Range(lo, hi) => ParsePrinted(Clamp(ParseU32(value).value, lo, hi));
    case ZeroOrRange(lo, hi) =>
      ParsePrinted(0);
      ParsePrinted(Clamp(ParseU32(value).value, lo, hi));
    case Arguments(limit) =>
      ArgLinesTwice(value);
      ArgLinesNotLonger(value);
    case ExportPath(limit) => TrimTwice(o.defaultExportPath);
    case RealRange(lo, hi) => ClampedStays(o, o.parseFloat(value).value, lo, hi);
    case _ =>
  }

  lemma ClampedStays(o: Outside, f: Float, lo: real, hi: real)
    requires FloatOk(o, f) && lo <= hi && o.represents(lo) && o.represents(hi)
    ensures FloatOk(o, ClampFloat(f, lo, hi)) && ClampFloat(ClampFloat(f, lo, hi), lo, hi) == ClampFloat(f, lo, hi)
  {
  }

  lemma TrimTwice(s: string)
    ensures Trim(Trim(s)) == Trim(s)
    ensures Trimmed(s) <==> Trim(s) == s
  {
    var a := TrimMeaning(s);
    var b := TrimMeaning(Trim(s));
  }

  // ----- what a text means, said without reading it -----

  function Zeros(k: nat): (s: string)
    ensures |s| == k && forall i :: 0 <= i < k ==> s[i] == '0'
  {
    seq(k, i => '0')
  }

  /** The text is the decimal of n, with leading zeros and a plus sign or without. */
  ghost predicate Denotes(value: string, n: nat) {
    exists k: nat :: value == Zeros(k) + Decimal(n) || value == "+" + (Zeros(k) + Decimal(n))
  }

  function Distance(a: nat, b: nat): nat {
    if a < b then b - a else a - b
  }

  function RealDistance(a: real, b: real): real {
    if a < b then b - a else a - b
  }

  /** m is the number of the range nearest to n; n itself if it is in the range. */
  ghost predicate Nearest(n: nat, lo: nat, hi: nat, m: nat) {
    && lo <= m <= hi && (lo <= n <= hi ==> m == n)
    && forall x: nat :: lo <= x <= hi ==> Distance(n, m) <= Distance(n, x)
  }

  ghost predicate NearestReal(n: real, lo: real, hi: real, m: real) {
    && lo <= m <= hi && (lo <= n <= hi ==> m == n)
    && forall x: real :: lo <= x <= hi ==> RealDistance(n, m) <= RealDistance(n, x)
  }

  ghost predicate Number32(value: string) {
    exists n: nat :: n < U32_LIMIT && Denotes(value, n)
  }

  /** What a text says to a kind of setting. A text that says nothing is to be rejected. */
  ghost predicate Says(o: Outside, kind: Kind, value: string, v: Value) {
    match kind
    case OneOf(choices) => value in choices && v == Text(value)
    case OneOfLower(choices) => v == Text(Lower(Trim(value))) && v.text in choices
    case Switch => v.Flag? && value in (if v.on then ["true", "1"] else ["false", "0"])
    case Range(lo, hi) =>
      Number32(value) && v.Number? && forall n: nat :: Denotes(value, n) ==> Nearest(n, lo, hi, v.n)
    case ZeroOrRange(lo, hi) =>
      Number32(value) && v.Number? && forall n: nat :: Denotes(value, n) ==> if n == 0 then v.n == 0 else Nearest(n, lo, hi, v.n)
    case RealRange(least, most) =>
      v.Fraction? &&
      (match o.parseFloat(value)
       case None => false
       case Some(NaN) => v.f == NaN
       case Some(Infinite(true)) => v.f == Finite(least)
       case Some(Infinite(false)) => v.f == Finite(most)
       case Some(Finite(x)) => v.f.Finite? && NearestReal(x, least, most, v.f.r))
    case ShortText(limit) => Bytes(Trim(value)) <= limit && v == Text(Trim(value))
    case Arguments(limit) =>
      Bytes(value) <= limit && v.Text? && Lines(v.text) == TrimmedLines(Lines(value)) && v.text == JoinLines(Lines(v.text))
    case Json(limit) =>
      v == Text(Trim(value)) && (v.text != "" ==> Bytes(v.text) <= limit && o.isJson(v.text))
    case JsonArray => v == Text(value) && (value != "" ==> o.isJsonArray(value))
    case ExportPath(limit) =>
      v.Text? && (if Trim(value) == "" then v.text == o.defaultExportPath
                  else v.text == Trim(value) && Bytes(v.text) <= limit && o.isSafeAbsolute(v.text))
  }

  lemma LastDigit(s: string)
    requires s != "" && Digits(s).Some?
    ensures var c := s[|s| - 1];
      && IsDigit(c) && Digit((c as int) - ('0' as int)) == c && Digits(s[..|s| - 1]).Some?
      && Digits(s).value == 10 * Digits(s[..|s| - 1]).value + ((c as int) - ('0' as int))
    ensures Digits("") == Some(0)
  {
  }

  lemma DecimalStep(m: nat, d: nat)
    requires d < 10
    ensures Decimal(10 * m + d) == if m == 0 then [Digit(d)] else Decimal(m) + [Digit(d)]
  {
  }

  lemma {:induction false} DigitsDenote(s: string)
    requires s != ""
    ensures match Digits(s)
      case None => true
      case Some(n) => exists k: nat :: s == Zeros(k) + Decimal(n)
  {
    hide Digits, Decimal, Digit, IsDigit, Zeros;
    if Digits(s).Some? {
      var init, c := s[..|s| - 1], s[|s| - 1];
      var d := (c as int) - ('0' as int);
      LastDigit(s);
      assert s == init + [c];
      if init == "" {
        DecimalStep(0, d);
        assert s == Zeros(0) + [c];
      } else {
        DigitsDenote(init);
        var m := Digits(init).value;
        var k: nat :| init == Zeros(k) + Decimal(m);
        DecimalStep(m, d);
        if m == 0 {
          DecimalStep(0, 0);
          assert init == Zeros(k + 1) by { ZeroDigit(); }
          assert s == Zeros(k + 1) + [c];
        } else {
          assert s == Zeros(k) + (Decimal(m) + [c]);
        }
      }
    }
  }

  lemma ZeroDigit()
    ensures Digit(0) == '0'
  {
  }

  lemma {:induction false} DenotedDigits(k: nat, n: nat)
    ensures Digits(Zeros(k) + Decimal(n)) == Some(n)
    decreases n, k
  {
    var s := Zeros(k) + Decimal(n);
    if n >= 10 {
      DenotedDigits(k, n / 10);
      assert s[..|s| - 1] == Zeros(k) + Decimal(n / 10);
    } else {
      assert s[..|s| - 1] == Zeros(k);
      if k > 0 {
        DenotedDigits(k - 1, 0);
        assert Zeros(k) == Zeros(k - 1) + Decimal(0);
      }
    }
  }

  /** Exactly the texts that denote a number below 2^32 are read, as that number. */
  lemma ReadsNumber(value: string, n: nat)
    ensures ParseU32(value) == Some(n) <==> n < U32_LIMIT && Denotes(value, n)
  {
    hide Decimal, Digits, Zeros;
    if ParseU32(value) == Some(n) {
      var digits := if value[0] == '+' then value[1..] else value;
      DigitsDenote(digits);
      var k: nat :| digits == Zeros(k) + Decimal(n);
      assert value == digits || value == "+" + digits;
    }
    if n < U32_LIMIT && Denotes(value, n) {
      var k: nat :| value == Zeros(k) + Decimal(n) || value == "+" + (Zeros(k) + Decimal(n));
      var digits := Zeros(k) + Decimal(n);
      DenotedDigits(k, n);
      assert digits != "" && digits[0] != '+' by {
        assert digits[0] == if k > 0 then Zeros(k)[0] else Decimal(n)[0];
      }
      if value != digits { assert value[0] == '+' && value[1..] == digits; }
    }
  }

  lemma DenotesOne(value: string, m: nat, n: nat)
    requires Denotes(value, m) && Denotes(value, n)
    ensures m == n
  {
    hide Decimal, Zeros, Digits;
    var k: nat :| value == Zeros(k) + Decimal(m) || value == "+" + (Zeros(k) + Decimal(m));
    var l: nat :| value == Zeros(l) + Decimal(n) || value == "+" + (Zeros(l) + Decimal(n));
    var a, b := Zeros(k) + Decimal(m), Zeros(l) + Decimal(n);
    DenotedDigits(k, m);
    DenotedDigits(l, n);
    assert a[0] != '+' by { assert a[0] == if k > 0 then Zeros(k)[0] else Decimal(m)[0]; }
    assert b[0] != '+' by { assert b[0] == if l > 0 then Zeros(l)[0] else Decimal(n)[0]; }
    assert a == b by {
      if value == "+" + a { assert value[0] == '+' && value[1..] == a; }
      if value == "+" + b { assert value[0] == '+' && value[1..] == b; }
    }
  }

  lemma ClampNearest(n: nat, lo: nat, hi: nat, m: nat)
    requires lo <= hi
    ensures m == Clamp(n, lo, hi) <==> Nearest(n, lo, hi, m)
  {
    if Nearest(n, lo, hi, m) { assert Distance(n, m) <= Distance(n, Clamp(n, lo, hi)); }
  }

  lemma ClampNearestReal(n: real, lo: real, hi: real, m: real)
    requires lo <= hi
    ensures ClampFloat(Finite(n), lo, hi) == Finite(m) <==> NearestReal(n, lo, hi, m)
  {
    var c := ClampFloat(Finite(n), lo, hi).r;
    if NearestReal(n, lo, hi, m) { assert RealDistance(n, m) <= RealDistance(n, c); }
  }

  /** Reading a text gives what it says, and rejects exactly what says nothing. */
  lemma ParseSays(o: Outside, kind: Kind, value: string, v: Value)
    requires KindOk(o, kind)
    ensures Parse(o, kind, value) == Some(v) <==> Says(o, kind, value, v)
  {
    hide Trim, Bytes, Lower, ParseU32, Lines, TrimmedLines, JoinLines, Clamp, Nearest, NearestReal, Denotes, Number32;
    match kind
    case Range(lo, hi) => NumberSays(value, lo, hi, v);
    case ZeroOrRange(lo, hi) =>
      NumberSays(value, lo, hi, v);
      if ParseU32(value).Some? && v.Number? {
        var n := ParseU32(value).value;
        assert Denotes(value, n) && (v.n == Clamp(n, lo, hi) <==> Nearest(n, lo, hi, v.n));
      }
    case RealRange(lo, hi) =>
      if v.Fraction? && v.f.Finite? {
        match o.parseFloat(value)
        case Some(Finite(x)) => ClampNearestReal(x, lo, hi, v.f.r);
        case _ =>
      }
    case Arguments(limit) =>
      JoinedLines(value);
      TrimmedLinesClean(Lines(value));
      CleanStays(TrimmedLines(Lines(value)));
    case _ =>
  }

  lemma NumberSays(value: string, lo: nat, hi: nat, v: Value)
    requires lo <= hi
    ensures Number32(value) <==> ParseU32(value).Some?
    ensures ParseU32(value).Some? ==> forall n :: Denotes(value, n) <==> n == ParseU32(value).value
    ensures v.Number? ==> forall n: nat :: v.n == Clamp(n, lo, hi) <==> Nearest(n, lo, hi, v.n)
  {
    hide ParseU32, Denotes, Clamp, Nearest;
    forall n: nat ensures ParseU32(value) == Some(n) <==> n < U32_LIMIT && Denotes(value, n) { ReadsNumber(value, n); }
    if ParseU32(value).Some? {
      forall n: nat | Denotes(value, n) ensures n == ParseU32(value).value { DenotesOne(value, n, ParseU32(value).value); }
    }
    if v.Number? {
      forall n: nat ensures v.n == Clamp(n, lo, hi) <==> Nearest(n, lo, hi, v.n) { ClampNearest(n, lo, hi, v.n); }
    }
  }

  // ----- the requirements can be met -----

  /** A small format: the multiples of one twentieth, printed as the number of twentieths. */
  function Twentieths(r: real): int {
    (r * 20.0).Floor
  }

  predicate SampleHas(r: real) {
    r >= 0.0 && r == Twentieths(r) as real / 20.0
  }

  function SamplePrint(f: Float): string {
    match f
    case NaN => "NaN"
    case Infinite(negative) => if negative then "-inf" else "inf"
    case Finite(r) => if r < 0.0 then "" else Decimal(Twentieths(r))
  }

  function SampleParse(s: string): Option<Float> {
    if s == "NaN" then Some(NaN)
    else if s == "-inf" then Some(Infinite(true))
    else if s == "inf" then Some(Infinite(false))
    else if s == "" then None
    else match Digits(s) case None => None case Some(n) => Some(Finite(n as real / 20.0))
  }

  function Sample(): Outside {
    Outside(s => s == "{}", s => s == "[]", s => s != "" && s[0] == '/',
      r => SampleHas(r), r => Twentieths(r) as real / 20.0,
      s => SampleParse(s), f => SamplePrint(f), "/tmp/fileoctopus-diagnostics.zip")
  }

  lemma SampleReadsBack(f: Float)
    requires f.Finite? ==> SampleHas(f.r)
    ensures SampleParse(SamplePrint(f)) == Some(f)
  {
    if f.Finite? {
      var s := SamplePrint(f);
      assert IsDigit(s[0]) && !IsDigit("NaN"[0]) && !IsDigit("-inf"[0]) && !IsDigit("inf"[0]);
      DigitsOfDecimal(Twentieths(f.r));
    }
  }

  lemma SampleYields(s: string)
    requires SampleParse(s).Some? && SampleParse(s).value.Finite?
    ensures SampleHas(SampleParse(s).value.r)
  {
    var n := Digits(s).value;
    assert n as real / 20.0 * 20.0 == n as real;
  }

  lemma SampleLiteral(x: real)
    requires 0.0 <= x
    ensures SampleHas(Twentieths(x) as real / 20.0)
  {
    var n := Twentieths(x);
    assert n as real / 20.0 * 20.0 == n as real;
  }

  /** There is an outside that meets all requirements: a format with infinitely many values, on
      which the bounds and defaults of the source are exact, and an acceptable default path. */
  lemma SampleMeetsAll()
    ensures PrinterOk(Sample()) && DefaultPathOk(Sample(), 2048)
    ensures Sample().literal(0.35) == 0.35 && Sample().literal(0.2) < Sample().literal(0.8)
  {
    hide SamplePrint, SampleParse, SampleHas, Twentieths, DefaultPathOk;
    var o := Sample();
    forall f | FloatOk(o, f) ensures o.parseFloat(o.printFloat(f)) == Some(f) { SampleReadsBack(f); }
    forall s | o.parseFloat(s).Some? ensures FloatOk(o, o.parseFloat(s).value) {
      if SampleParse(s).value.Finite? { SampleYields(s); }
    }
    SampleLiterals();
    SamplePath();
  }

  lemma SampleLiterals()
    ensures LiteralsOk(Sample())
    ensures Sample().literal(0.35) == 0.35 && Sample().literal(0.2) < Sample().literal(0.8)
  {
    hide SamplePrint, SampleParse, SampleHas;
    var o := Sample();
    forall x | 0.0 <= x <= 1.0 ensures o.represents(o.literal(x)) { SampleLiteral(x); }
    forall x, y | 0.0 <= x <= y <= 1.0 ensures o.literal(x) <= o.literal(y) { SampleOrder(x, y); }
  }

  lemma SampleOrder(x: real, y: real)
    requires x <= y
    ensures Twentieths(x) as real / 20.0 <= Twentieths(y) as real / 20.0
  {
  }

  lemma SamplePath()
    ensures DefaultPathOk(Sample(), 2048)
  {
    var p := Sample().defaultExportPath;
    hide Trim, Bytes;
    assert Trimmed(p);
    TrimTwice(p);
    BytesAtMost(p);
  }

  lemma {:induction false} BytesAtMost(s: string)
    ensures Bytes(s) <= 4 * |s|
  {
    if s != "" { BytesAtMost(s[1..]); }
  }
}
