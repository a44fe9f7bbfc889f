/** The euro-to-rand converter: a text field that only takes amounts made
    of digits and at most one decimal point, and a rand field that shows the
    amount converted at the loaded rate, rounded to cents and written with
    two decimals, or nothing. */
module CurrencyConverter {
  import opened Common
  import opened JsText

  // ---------------------------------------------------------------------
  // The input filter `/^\d*\.?\d*$/`

  /** `/^\d*\.?\d*$/.test(s)`: a run of digits, then optionally a point
      followed by a run of digits, and nothing else. */
  predicate MatchesAmount(s: string) {
    var n := PrefixLen(s, 10);
    s[n..] == [] || (s[n] == '.' && AllDigits(s[n + 1..]))
  }

  /** The number of decimal points in s. */
  function Points(s: string): (k: nat)
    ensures k <= |s|
  {
    if s == [] then 0 else (if s[0] == '.' then 1 else 0) + Points(s[1..])
  }

  lemma {:induction false} PointsAppend(s: string, t: string)
    ensures Points(s + t) == Points(s) + Points(t)
  {
    if s != [] {
      assert (s + t)[0] == s[0];
      assert (s + t)[1..] == s[1..] + t;
      PointsAppend(s[1..], t);
    } else {
      assert s + t == t;
    }
  }

  lemma {:induction false} PointsOfDigits(s: string)
    requires AllDigits(s)
    ensures Points(s) == 0
  {
    if s != [] {
      PointsOfDigits(s[1..]);
    }
  }

  /** A text of digits and points without a point is all digits. */
  lemma {:induction false} NoPointsDigits(s: string)
    requires forall i :: 0 <= i < |s| ==> IsDigit(s[i]) || s[i] == '.'
    requires Points(s) == 0
    ensures AllDigits(s)
  {
    if s != [] {
      NoPointsDigits(s[1..]);
    }
  }

  /** Digits up to n, then a point and digits when n is not the end: every
      character is a digit or a point. */
  lemma DigitsPointDigits(s: string, n: nat)
    requires n <= |s| && AllDigits(s[..n])
    requires n < |s| ==> s[n] == '.' && AllDigits(s[n + 1..])
    ensures forall i :: 0 <= i < |s| ==> IsDigit(s[i]) || s[i] == '.'
  {
    forall i | 0 <= i < |s|
      ensures IsDigit(s[i]) || s[i] == '.'
    {
      if i < n {
        assert s[i] == s[..n][i];
      } else if i > n {
        assert s[i] == s[n + 1..][i - n - 1];
      }
    }
  }

  /** Every character an accepted text holds is a digit or a point, and it
      holds at most one point. */
  lemma AmountChars(s: string)
    requires MatchesAmount(s)
    ensures forall i :: 0 <= i < |s| ==> IsDigit(s[i]) || s[i] == '.'
    ensures Points(s) <= 1
  {
    var n := PrefixLen(s, 10);
    SplitAtPrefix(s);
    if n < |s| {
      PointsOfDigits(s[n + 1..]);
    }
    DigitsPointDigits(s, n);
  }

  /** A text of digits and points with at most one point is accepted. */
  lemma CharsAmount(s: string)
    requires forall i :: 0 <= i < |s| ==> IsDigit(s[i]) || s[i] == '.'
    requires Points(s) <= 1
    ensures MatchesAmount(s)
  {
    var n := PrefixLen(s, 10);
    SplitAtPrefix(s);
    if n < |s| {
      assert s[n] == '.';
      var tail := s[n + 1..];
      forall i | 0 <= i < |tail|
        ensures IsDigit(tail[i]) || tail[i] == '.'
      {
        assert tail[i] == s[n + 1 + i];
      }
      NoPointsDigits(tail);
    }
  }

  lemma PointsSplit(s: string, k: nat)
    requires k <= |s|
    ensures Points(s) == Points(s[..k]) + Points(s[k..])
  {
    assert s == s[..k] + s[k..];
    PointsAppend(s[..k], s[k..]);
  }

  lemma PrefixDigits(s: string)
    ensures AllDigits(s[..PrefixLen(s, 10)])
  {
    var n := PrefixLen(s, 10);
    forall i | 0 <= i < n
      ensures IsDigit(s[..n][i])
    {
      assert DigitValue(s[i]) < 10;
    }
  }

  /** The points of s are those after its leading digits: one for the
      character that ends them, when it is a point, plus those after it. */
  lemma SplitAtPrefix(s: string)
    ensures var n := PrefixLen(s, 10);
      && AllDigits(s[..n])
      && (n == |s| ==> Points(s) == 0)
      && (n < |s| ==> Points(s) == (if s[n] == '.' then 1 else 0) + Points(s[n + 1..]))
  {
    var n := PrefixLen(s, 10);
    PrefixDigits(s);
    PointsOfDigits(s[..n]);
    PointsSplit(s, n);
    if n < |s| {
      assert s[n..][1..] == s[n + 1..];
    }
  }

  /** The filter accepts exactly the texts made of ASCII digits and points
      that hold at most one point. */
  lemma MatchesAmountIff(s: string)
    ensures MatchesAmount(s) <==>
      (forall i :: 0 <= i < |s| ==> IsDigit(s[i]) || s[i] == '.') && Points(s) <= 1
  {
    if MatchesAmount(s) {
      AmountChars(s);
    } else if (forall i :: 0 <= i < |s| ==> IsDigit(s[i]) || s[i] == '.') && Points(s) <= 1 {
      CharsAmount(s);
    }
  }

  /** Deleting the last character of an accepted text leaves an accepted
      text, so clearing the field key by key is never refused. */
  lemma MatchesAmountPrefix(s: string, c: char)
    requires MatchesAmount(s + [c])
    ensures MatchesAmount(s)
  {
    MatchesAmountIff(s + [c]);
    MatchesAmountIff(s);
    PointsAppend(s, [c]);
    forall i | 0 <= i < |s|
      ensures IsDigit(s[i]) || s[i] == '.'
    {
      assert s[i] == (s + [c])[i];
    }
  }

  // ---------------------------------------------------------------------
  // Parsing an accepted text

  lemma PrefixLenAll(s: string)
    requires AllDigits(s)
    ensures PrefixLen(s, 10) == |s|
  {
  }

  lemma TrimStartKeeps(t: string)
    requires t == [] || !IsSpace(t[0])
    ensures TrimStart(t) == t
  {
  }

  /** An unsigned text starting with a digit or a point is read by
      `parseFloat` as it stands. */
  lemma ParseUnsignedText(s: string)
    requires s == [] || IsDigit(s[0]) || s[0] == '.'
    ensures ParseFloat(s) == ParseUnsigned(s)
  {
    TrimStartKeeps(s);
  }

  /** The number an accepted text spells, from its whole digits (worth
      `whole`, present when `hasWhole`) and what follows them (nothing, or a
      point and digits): nothing when it holds no digit at all. */
  function AmountValue(whole: nat, hasWhole: bool, rest: string): (v: Option<real>)
    ensures v.None? <==> !hasWhole && |rest| <= 1
    ensures v.Some? ==> v.value >= whole as real
  {
    if !hasWhole && |rest| <= 1 then None
    else Some(whole as real + (if rest == [] then 0.0 else FractionValue(rest[1..])))
  }

  /** What follows the whole digits of an accepted text reads as its value. */
  lemma ParseFraction(whole: nat, hasWhole: bool, rest: string)
    requires rest == [] || (rest[0] == '.' && AllDigits(rest[1..]))
    ensures ParseAfterWhole(whole, hasWhole, rest) == AmountValue(whole, hasWhole, rest)
  {
    if rest != [] {
      var f := |rest| - 1;
      PrefixLenAll(rest[1..]);
      assert rest[1..][..f] == rest[1..];
      assert rest[1 + f..] == [];
    }
  }

  /** `parseFloat` reads an accepted text as the number it spells: its
      whole digits plus its fraction digits. */
  lemma ParseAmount(s: string)
    requires MatchesAmount(s)
    ensures var n := PrefixLen(s, 10);
      ParseFloat(s) == AmountValue(DigitsValue(s[..n], 10), n > 0, s[n..])
  {
    var n := PrefixLen(s, 10);
    if s != [] && n > 0 {
      assert DigitValue(s[0]) < 10;
    }
    ParseUnsignedText(s);
    var rest := s[n..];
    assert rest != [] ==> rest[1..] == s[n + 1..];
    ParseFraction(DigitsValue(s[..n], 10), n > 0, rest);
  }

  /** `parseFloat` finds no number ("NaN") in an accepted text exactly
      when it is "" or "."; any number it finds is not negative. */
  lemma AmountReads(s: string)
    requires MatchesAmount(s)
    ensures ParseFloat(s).None? <==> s == "" || s == "."
    ensures ParseFloat(s).Some? ==> ParseFloat(s).value >= 0.0
  {
    ParseAmount(s);
    AmountWithoutDigits(s);
  }

  /** An accepted text holds no digit exactly when it is "" or ".". */
  lemma AmountWithoutDigits(s: string)
    requires MatchesAmount(s)
    ensures PrefixLen(s, 10) == 0 && |s| <= 1 <==> s == "" || s == "."
  {
    if s == "." {
      assert DigitValue(s[0]) >= 10;
    }
  }

  // ---------------------------------------------------------------------
  // `toFixed(2)` and `convertCurrency`

  function Digit(d: nat): (c: char)
    requires d < 10
    ensures IsDigit(c) && DigitValue(c) == d
  {
    ('0' as int + d) as char
  }

  /** The decimal numeral of n, without leading zeros. */
  function DecimalString(n: nat): (s: string)
    ensures s != [] && AllDigits(s)
  {
    if n < 10 then [Digit(n)] else DecimalString(n / 10) + [Digit(n % 10)]
  }

  lemma {:induction false} DecimalStringValue(n: nat)
    ensures DigitsValue(DecimalString(n), 10) == n
  {
    var s := DecimalString(n);
    assert s[..|s| - 1] == if n < 10 then [] else DecimalString(n / 10);
    if n >= 10 {
      DecimalStringValue(n / 10);
    }
  }

  /** The cents a non-negative amount rounds to, halves rounded up. */
  function Cents(y: real): (c: nat)
    requires y >= 0.0
    ensures y * 100.0 - 0.5 < c as real <= y * 100.0 + 0.5
  {
    RoundJs(y * 100.0)
  }

  /** A count of cents written as units, a point and two digits. */
  function Fixed2(c: nat): (s: string)
    ensures |s| >= 4 && IsDigit(s[0])
  {
    DecimalString(c / 100) + "." + CentDigits(c)
  }

  /** `x.toFixed(2)` for amounts below 10^21: the sign, then the magnitude
      rounded to cents. */
  function ToFixed2(x: real): (s: string)
    ensures |s| >= 4
  {
    if x < 0.0 then "-" + Fixed2(Cents(-x)) else Fixed2(Cents(x))
  }

  /** The two digits after the point of a count of cents. */
  function CentDigits(c: nat): string {
    [Digit(c % 100 / 10), Digit(c % 10)]
  }

  /** Reading digits followed by a text that does not start with a digit. */
  lemma ParseUnsignedParts(w: string, rest: string)
    requires AllDigits(w)
    requires rest == [] || !IsDigit(rest[0])
    ensures ParseUnsigned(w + rest) == ParseAfterWhole(DigitsValue(w, 10), w != [], rest)
  {
    var s := w + rest;
    var n := PrefixLen(s, 10);
    forall i | 0 <= i < |w|
      ensures DigitValue(s[i]) < 10
    {
      assert s[i] == w[i];
    }
    if |w| < |s| {
      assert s[|w|] == rest[0];
    }
    assert n == |w|;
    assert s[..n] == w;
    assert s[n..] == rest;
  }

  /** The fraction ".ab" of two decimal digits. */
  lemma TwoDigitFraction(a: nat, b: nat)
    requires a < 10 && b < 10
    ensures FractionValue([Digit(a), Digit(b)]) == (10 * a + b) as real / 100.0
  {
    var f := [Digit(a), Digit(b)];
    assert f[1..] == [Digit(b)];
    assert f[1..][1..] == [];
    assert FractionValue(f[1..]) == b as real / 10.0;
  }

  lemma CentDigitsValue(c: nat)
    ensures FractionValue(CentDigits(c)) == (c % 100) as real / 100.0
  {
    var m := c % 100;
    assert c % 10 == m % 10 && m == 10 * (m / 10) + m % 10;
    TwoDigitFraction(m / 10, c % 10);
  }

  lemma CentsSplit(c: nat)
    ensures (c / 100) as real + (c % 100) as real / 100.0 == c as real / 100.0
  {
    assert c == c / 100 * 100 + c % 100;
  }

  /** The value a count of cents is written to. */
  lemma Fixed2Value(c: nat)
    ensures AmountValue(c / 100, true, "." + CentDigits(c)) == Some(c as real / 100.0)
  {
    var rest := "." + CentDigits(c);
    assert rest[1..] == CentDigits(c);
    CentDigitsValue(c);
    CentsSplit(c);
  }

  /** How `parseFloat` reads a count of cents written out. */
  lemma ParseFixed2Text(c: nat)
    ensures ParseFloat(Fixed2(c)) == ParseUnsigned(Fixed2(c))
    ensures ParseUnsigned(Fixed2(c)) == ParseAfterWhole(c / 100, true, "." + CentDigits(c))
  {
    var w := DecimalString(c / 100);
    var rest := "." + CentDigits(c);
    assert Fixed2(c) == w + rest;
    ParseUnsignedText(w + rest);
    ParseUnsignedParts(w, rest);
    DecimalStringValue(c / 100);
  }

  /** The text of a count of cents reads back as that many hundredths. */
  lemma ParseFixed2(c: nat)
    ensures ParseUnsigned(Fixed2(c)) == Some(c as real / 100.0)
    ensures ParseFloat(Fixed2(c)) == Some(c as real / 100.0)
  {
    var rest := "." + CentDigits(c);
    ParseFixed2Text(c);
    assert rest[1..] == CentDigits(c);
    ParseFraction(c / 100, true, rest);
    Fixed2Value(c);
  }

  /** Rounding an amount that is already a whole number of cents keeps it. */
  lemma CentsOfCents(c: nat)
    ensures Cents(c as real / 100.0) == c
  {
  }

  /** `parseFloat(x.toFixed(2))`: x rounded to cents through its
      two-decimal text. */
  function RoundTrip(x: real): real {
    match ParseFloat(ToFixed2(x))
    case Some(v) => v
    case None => 0.0
  }

  /** `convertCurrency` */
  function ConvertCurrency(amount: real, rate: real): real {
    RoundTrip(amount * rate)
  }

  /** A non-negative amount's two-decimal text reads back as the amount
      rounded to cents, which lies within half a cent of it. */
  lemma RoundTripCents(x: real)
    requires x >= 0.0
    ensures RoundTrip(x) == Cents(x) as real / 100.0
    ensures x - 0.005 < RoundTrip(x) <= x + 0.005
  {
    ParseFixed2(Cents(x));
  }

  /** Writing the rounded amount with two decimals again gives the same
      text: the conversion shows exactly the product's own two-decimal text. */
  lemma RoundTripText(x: real)
    requires x >= 0.0
    ensures ToFixed2(RoundTrip(x)) == ToFixed2(x)
  {
    RoundTripCents(x);
    CentsOfCents(Cents(x));
  }

  // ---------------------------------------------------------------------
  // The component

  /** The rand text the effect sets: empty unless there is an amount, a
      loaded rate and a number in the amount. */
  function ZarText(euroAmount: string, rate: Option<real>): string {
    if euroAmount == "" || rate.None? then ""
    else
      match ParseFloat(euroAmount)
      case None => ""
      case Some(amount) => ToFixed2(ConvertCurrency(amount, rate.value))
  }

  /** For an accepted amount, the rand field is empty exactly when the
      amount is "" or "." or no rate is loaded. */
  lemma ZarTextEmpty(euroAmount: string, rate: Option<real>)
    requires MatchesAmount(euroAmount)
    ensures ZarText(euroAmount, rate) == "" <==> euroAmount == "" || euroAmount == "." || rate.None?
  {
    AmountReads(euroAmount);
  }

  /** At a non-negative rate the rand field shows the product of the amount
      read and the rate, written with two decimals. */
  lemma ZarTextShows(euroAmount: string, amount: real, rate: real)
    requires euroAmount != "" && ParseFloat(euroAmount) == Some(amount)
    requires amount >= 0.0 && rate >= 0.0
    ensures ZarText(euroAmount, Some(rate)) == ToFixed2(amount * rate)
  {
    NonNegativeProduct(amount, rate);
    RoundTripText(amount * rate);
  }

  lemma NonNegativeProduct(a: real, b: real)
    requires a >= 0.0 && b >= 0.0
    ensures a * b >= 0.0
  {
  }

  /** The component's state: what the euro field holds and what the rand
      field shows. */
  class Converter {
    var euroAmount: string
    var zarAmount: string

    /** The euro field only ever holds text the filter accepts. */
    predicate Valid()
      reads this
    {
      MatchesAmount(euroAmount)
    }

    constructor()
      ensures Valid()
      ensures euroAmount == "" && zarAmount == ""
    {
      euroAmount := "";
      zarAmount := "";
    }

    /** `handleEuroChange`: the typed text replaces the amount when it is
        empty or passes the filter; otherwise the keystroke is dropped. */
    method HandleEuroChange(value: string)
      requires Valid()
      modifies this
      ensures Valid()
      ensures euroAmount == (if value == "" || MatchesAmount(value) then value else old(euroAmount))
      ensures zarAmount == old(zarAmount)
    {
      if value == "" || MatchesAmount(value) {
        euroAmount := value;
      }
    }

    /** The effect that runs when the amount or the loaded rate changes. */
    method Refresh(rate: Option<real>)
      modifies this
      ensures euroAmount == old(euroAmount)
      ensures zarAmount == ZarText(euroAmount, rate)
    {
      if euroAmount != "" && rate.Some? {
        var amount := ParseFloat(euroAmount);
        if amount.Some? {
          var converted := ConvertCurrency(amount.value, rate.value);
          zarAmount := ToFixed2(converted);
        } else {
          zarAmount := "";
        }
      } else {
        zarAmount := "";
      }
    }
  }
}
