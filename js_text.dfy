/** The JavaScript string built-ins the draw pipeline and the client forms
    depend on: `trim`, `split`, `includes`, `toLowerCase`, the global match
    `/\d+/g`, `parseInt` and `parseFloat`. Strings are sequences of UTF-16
    code units, here `seq<char>`. */
module JsText {
  import opened Common

  /** ECMAScript WhiteSpace and LineTerminator code points: what `trim`,
      `parseInt` and `parseFloat` skip. */
  predicate IsSpace(c: char) {
    || c == ' ' || c == '\t' || c == '\n' || c == '\r' || c == '\U{000B}' || c == '\U{000C}'
    || c == '\U{00A0}' || c == '\U{1680}' || ('\U{2000}' <= c <= '\U{200A}')
    || c == '\U{2028}' || c == '\U{2029}' || c == '\U{202F}' || c == '\U{205F}'
    || c == '\U{3000}' || c == '\U{FEFF}'
  }

  /** `s.trimStart()` */
  function TrimStart(s: string): string {
    if s != [] && IsSpace(s[0]) then TrimStart(s[1..]) else s
  }

  /** `s.trimEnd()` */
  function TrimEnd(s: string): string {
    if s != [] && IsSpace(s[|s| - 1]) then TrimEnd(s[..|s| - 1]) else s
  }

  /** trimStart removes exactly the leading white space. */
  lemma {:induction false} TrimStartSpec(s: string)
    ensures var r := TrimStart(s);
      && (r == [] || !IsSpace(r[0]))
      && |r| <= |s| && r == s[|s| - |r|..]
      && forall i :: 0 <= i < |s| - |r| ==> IsSpace(s[i])
  {
    if s != [] && IsSpace(s[0]) {
      TrimStartSpec(s[1..]);
    }
  }

  /** trimEnd removes exactly the trailing white space. */
  lemma {:induction false} TrimEndSpec(s: string)
    ensures var r := TrimEnd(s);
      && (r == [] || !IsSpace(r[|r| - 1]))
      && |r| <= |s| && r == s[..|r|]
      && forall i :: |r| <= i < |s| ==> IsSpace(s[i])
  {
    if s != [] && IsSpace(s[|s| - 1]) {
      TrimEndSpec(s[..|s| - 1]);
    }
  }

  /** `s.trim()` */
  function Trim(s: string): string {
    TrimEnd(TrimStart(s))
  }

  /** A line survives `filter(line => line.trim())` exactly when it holds a
      character that is not white space. */
  lemma TrimEmptyIffBlank(s: string)
    ensures Trim(s) == "" <==> forall i :: 0 <= i < |s| ==> IsSpace(s[i])
  {
    var t := TrimStart(s);
    TrimStartSpec(s);
    TrimEndSpec(t);
    if t != "" {
      assert !IsSpace(t[0]);
      assert Trim(s) != "";
      assert s[|s| - |t|] == t[0];
    }
  }

  // ---------------------------------------------------------------------
  // `s.split(sep)` for a one-character separator

  function Split(s: string, sep: char): (parts: seq<string>)
    ensures |parts| >= 1
    ensures forall i :: 0 <= i < |parts| ==> sep !in parts[i]
  {
    if s == [] then [""]
    else
      var rest := Split(s[1..], sep);
      if s[0] == sep then [""] + rest else [[s[0]] + rest[0]] + rest[1..]
  }

  /** `parts.join(sep)` */
  function Join(parts: seq<string>, sep: char): string {
    if parts == [] then ""
    else if |parts| == 1 then parts[0]
    else parts[0] + [sep] + Join(parts[1..], sep)
  }

  /** Splitting loses nothing: joining the pieces gives the string back. */
  lemma {:induction false} SplitJoin(s: string, sep: char)
    ensures Join(Split(s, sep), sep) == s
  {
    if s != [] {
      var rest := Split(s[1..], sep);
      SplitJoin(s[1..], sep);
      if s[0] != sep {
        if |rest| > 1 {
          assert rest == [rest[0]] + rest[1..];
        }
      }
    }
  }

  // ---------------------------------------------------------------------
  // `includes` and `toLowerCase`

  /** `s.includes(t)` */
  predicate Contains(s: string, t: string)
    decreases |s|
  {
    t <= s || (s != [] && Contains(s[1..], t))
  }

  /** `toLowerCase` on the ASCII letters; the only use is a test for the
      words "yes" and "won", and no other code point lower-cases to one of
      their letters. */
  function Lower(c: char): char {
    if 'A' <= c <= 'Z' then (c as int + 32) as char else c
  }

  function ToLower(s: string): (r: string)
    ensures |r| == |s|
    ensures forall i :: 0 <= i < |s| ==> r[i] == Lower(s[i])
  {
    if s == [] then [] else [Lower(s[0])] + ToLower(s[1..])
  }

  // ---------------------------------------------------------------------
  // Digits

  predicate IsDigit(c: char) {
    '0' <= c <= '9'
  }

  predicate AllDigits(s: string) {
    forall i :: 0 <= i < |s| ==> IsDigit(s[i])
  }

  /** The value of a character as a digit in any radix up to 36; 36 for a
      character that is no digit at all. */
  function DigitValue(c: char): (v: nat)
    ensures v <= 36
    ensures IsDigit(c) <==> v < 10
  {
    if '0' <= c <= '9' then c as int - '0' as int
    else if 'a' <= c <= 'z' then c as int - 'a' as int + 10
    else if 'A' <= c <= 'Z' then c as int - 'A' as int + 10
    else 36
  }

  /** The length of the longest prefix of s made of digits of the radix. */
  function PrefixLen(s: string, radix: nat): (n: nat)
    ensures n <= |s|
    ensures forall i :: 0 <= i < n ==> DigitValue(s[i]) < radix
    ensures n < |s| ==> DigitValue(s[n]) >= radix
  {
    if s != [] && DigitValue(s[0]) < radix then 1 + PrefixLen(s[1..], radix) else 0
  }

  /** The number the digits spell in the radix, most significant first. */
  function DigitsValue(ds: string, radix: nat): nat {
    if ds == [] then 0
    else DigitsValue(ds[..|ds| - 1], radix) * radix + DigitValue(ds[|ds| - 1])
  }

  /** The maximal runs of ASCII digits in s, left to right: what
      `s.match(/\d+/g)` returns (null, here the empty list, when there are none). */
  function DigitRuns(s: string): (runs: seq<string>)
    ensures forall i :: 0 <= i < |runs| ==> runs[i] != [] && AllDigits(runs[i])
    decreases |s|
  {
    if s == [] then []
    else if !IsDigit(s[0]) then DigitRuns(s[1..])
    else
      var n := PrefixLen(s, 10);
      [s[..n]] + DigitRuns(s[n..])
  }

  /** A string of digits and nothing else is one run. */
  lemma DigitRunsOfDigits(s: string)
    requires s != [] && AllDigits(s)
    ensures DigitRuns(s) == [s]
  {
    assert PrefixLen(s, 10) == |s|;
    assert s[..|s|] == s && s[|s|..] == [];
  }

  /** `(s.match(/\d+/g)?.map(n => parseInt(n)) || [])`: every run parses
      completely as a decimal number. */
  function MatchNumbers(s: string): (ns: seq<int>)
    ensures forall i :: 0 <= i < |ns| ==> ns[i] >= 0
  {
    RunValues(DigitRuns(s))
  }

  function RunValues(runs: seq<string>): (vs: seq<int>)
    ensures |vs| == |runs|
    ensures forall i :: 0 <= i < |vs| ==> vs[i] == DigitsValue(runs[i], 10)
  {
    if runs == [] then [] else [DigitsValue(runs[0], 10)] + RunValues(runs[1..])
  }

  // ---------------------------------------------------------------------
  // parseInt and parseFloat. Both skip leading white space and read the
  // longest prefix that forms a number; no such prefix gives NaN, here None.

  /** `parseInt(s)` with no radix: decimal, or hexadecimal after "0x"/"0X". */
  function ParseInt(s: string): Option<int> {
    var t := TrimStart(s);
    var negative := t != [] && t[0] == '-';
    var u := if t != [] && (t[0] == '-' || t[0] == '+') then t[1..] else t;
    var radix := if |u| >= 2 && u[0] == '0' && (u[1] == 'x' || u[1] == 'X') then 16 else 10;
    var body := if radix == 16 then u[2..] else u;
    var n := PrefixLen(body, radix);
    if n == 0 then None
    else
      var v: int := DigitsValue(body[..n], radix);
      Some(if negative then -v else v)
  }

  /** `parseInt(s) || 0`: NaN (and -0) become 0. */
  function ParseIntOrZero(s: string): (v: int)
    ensures ParseInt(s).None? ==> v == 0
  {
    match ParseInt(s)
    case None => 0
    case Some(v) => v
  }

  /** A string of decimal digits parses to the number it spells. */
  lemma ParseIntOfDigits(s: string)
    requires s != [] && AllDigits(s)
    ensures ParseInt(s) == Some(DigitsValue(s, 10))
  {
    assert IsDigit(s[0]) && !IsSpace(s[0]);
    assert TrimStart(s) == s;
    assert s[0] != '-' && s[0] != '+';
    assert |s| >= 2 ==> IsDigit(s[1]) && s[1] != 'x' && s[1] != 'X';
    assert PrefixLen(s, 10) == |s|;
    assert s[..|s|] == s;
  }

  /** The value of the fraction ".ds" for decimal digits ds. */
  function FractionValue(ds: string): (v: real)
    ensures 0.0 <= v
  {
    if ds == [] then 0.0 else (DigitValue(ds[0]) as real + FractionValue(ds[1..])) / 10.0
  }

  /** x times ten to the power e. */
  function Scale(x: real, e: int): real
    decreases if e < 0 then -e else e
  {
    if e == 0 then x
    else if e > 0 then 10.0 * Scale(x, e - 1)
    else Scale(x, e + 1) / 10.0
  }

  /** The exponent part "e[+-]digits" at the start of s, if it is complete. */
  function ExponentOf(s: string): (e: Option<int>) {
    if s == [] || (s[0] != 'e' && s[0] != 'E') then None
    else
      var u := s[1..];
      var negative := u != [] && u[0] == '-';
      var ds := if u != [] && (u[0] == '-' || u[0] == '+') then u[1..] else u;
      var n := PrefixLen(ds, 10);
      if n == 0 then None
      else
        var v: int := DigitsValue(ds[..n], 10);
        Some(if negative then -v else v)
  }

  /** `parseFloat(s)`: after leading white space, an optional sign and an
      unsigned decimal number. */
  function ParseFloat(s: string): Option<real> {
    var t := TrimStart(s);
    if t != [] && t[0] == '-' then
      match ParseUnsigned(t[1..])
      case None => None
      case Some(m) => Some(-m)
    else if t != [] && t[0] == '+' then ParseUnsigned(t[1..])
    else ParseUnsigned(t)
  }

  /** The longest prefix of u that reads as decimal digits with an optional
      fraction (at least one digit in all) and an optional exponent. */
  function ParseUnsigned(u: string): Option<real> {
    var i := PrefixLen(u, 10);
    ParseAfterWhole(DigitsValue(u[..i], 10), i > 0, u[i..])
  }

  /** The rest of an unsigned number once its whole digits (worth `whole`,
      present when `hasWhole`) are read: an optional fraction, then an
      optional exponent. */
  function ParseAfterWhole(whole: nat, hasWhole: bool, rest: string): Option<real> {
    var hasPoint := rest != [] && rest[0] == '.';
    var f := if hasPoint then PrefixLen(rest[1..], 10) else 0;
    if !hasWhole && f == 0 then None
    else
      var frac := if hasPoint then FractionValue(rest[1..][..f]) else 0.0;
      var after := if hasPoint then rest[1 + f..] else rest;
      var exponent := match ExponentOf(after)
        case None => 0
        case Some(e) => e;
      Some(Scale(whole as real + frac, exponent))
  }

  /** `parseFloat(s) || 0`: NaN (and -0) become 0. */
  function ParseFloatOrZero(s: string): (v: real)
    ensures ParseFloat(s).None? ==> v == 0.0
  {
    match ParseFloat(s)
    case None => 0.0
    case Some(v) => v
  }
}
