/** A worked row of the upload: the line
    `2025-07-04,1851,3,16,23,38,47,7,11` is stored with the date and draw
    number of its first two fields, the five main numbers 3, 16, 23, 38, 47,
    the stars 3 and 7 (11, the seventh number, is past both caps), no
    jackpot amount and "No" for the won flag. */
module CsvSample {
  import opened Common
  import opened JsText
  import opened Schema
  import opened CsvIngest

  // ---------------------------------------------------------------------
  // Text facts for fields without separators, spaces or letters

  /** A string with no separator is one piece. */
  lemma {:induction false} SplitNoSep(s: string, sep: char)
    requires sep !in s
    ensures Split(s, sep) == [s]
    decreases |s|
  {
    if s != [] {
      assert s[0] != sep;
      assert sep !in s[1..];
      SplitNoSep(s[1..], sep);
      assert s == [s[0]] + s[1..];
    }
  }

  /** The first piece ends at the first separator. */
  lemma {:induction false} SplitAt(a: string, b: string, sep: char)
    requires sep !in a
    ensures Split(a + [sep] + b, sep) == [a] + Split(b, sep)
    decreases |a|
  {
    var s := a + [sep] + b;
    if a == [] {
      assert s[0] == sep && s[1..] == b;
    } else {
      assert s[0] == a[0] && a[0] != sep;
      assert s[1..] == a[1..] + [sep] + b;
      assert sep !in a[1..];
      SplitAt(a[1..], b, sep);
      assert a == [a[0]] + a[1..];
    }
  }

  /** A string of digits contains no text that starts with a non-digit. */
  lemma {:induction false} DigitsLackWord(s: string, t: string)
    requires AllDigits(s) && t != [] && !IsDigit(t[0])
    ensures !Contains(s, t)
    decreases |s|
  {
    if s != [] {
      DigitsLackWord(s[1..], t);
    }
  }

  /** A field made of digits is a number field and holds exactly the
      number it spells. */
  lemma DigitField(s: string)
    requires s != [] && AllDigits(s)
    ensures IsNumberField(s)
    ensures MatchNumbers(s) == [DigitsValue(s, 10)]
  {
    assert ToLower(s) == s;
    DigitsLackWord(s, "€");
    DigitsLackWord(s, "EUR");
    DigitsLackWord(s, "yes");
    DigitsLackWord(s, "won");
    DigitRunsOfDigits(s);
  }

  /** Over fields of digits, the scanned values are the fields' numbers. */
  lemma {:induction false} NumberValuesOfDigits(fs: seq<string>)
    requires forall i :: 0 <= i < |fs| ==> fs[i] != [] && AllDigits(fs[i])
    ensures NumberValues(fs) == RunValues(fs)
    decreases |fs|
  {
    if fs != [] {
      var init := fs[..|fs| - 1];
      var f := fs[|fs| - 1];
      NumberValuesOfDigits(init);
      DigitField(f);
      assert RunValues(fs) == RunValues(init) + [DigitsValue(f, 10)];
    }
  }

  /** Keeping the values in range of a list grown by one value. */
  lemma KeepSnoc(xs: seq<int>, x: int, lo: int, hi: int)
    ensures Keep(xs + [x], lo, hi) == Keep(xs, lo, hi) + (if lo <= x <= hi then [x] else [])
  {
    FilterSnoc(xs, x, (n: int) => lo <= n <= hi);
  }

  /** Keeping the values in range of a list already in range keeps it all. */
  lemma {:induction false} KeepAll(xs: seq<int>, lo: int, hi: int)
    requires AllIn(xs, lo, hi)
    ensures Keep(xs, lo, hi) == xs
    decreases |xs|
  {
    if xs != [] {
      var init := xs[..|xs| - 1];
      KeepAll(init, lo, hi);
      assert xs == init + [xs[|xs| - 1]];
      KeepSnoc(init, xs[|xs| - 1], lo, hi);
    }
  }

  /** Keeping the values in range of a list with none in range keeps nothing. */
  lemma {:induction false} KeepNone(xs: seq<int>, lo: int, hi: int)
    requires forall i :: 0 <= i < |xs| ==> !(lo <= xs[i] <= hi)
    ensures Keep(xs, lo, hi) == []
    decreases |xs|
  {
    if xs != [] {
      var init := xs[..|xs| - 1];
      KeepNone(init, lo, hi);
      assert xs == init + [xs[|xs| - 1]];
      KeepSnoc(init, xs[|xs| - 1], lo, hi);
    }
  }

  /** Fields of digits mention neither a jackpot nor a win. */
  lemma DigitFieldsPlain(fs: seq<string>)
    requires forall i :: 0 <= i < |fs| ==> fs[i] != [] && AllDigits(fs[i])
    ensures Scan(fs).jackpotAmount == 0.0
    ensures Scan(fs).jackpotWon == "No"
  {
    forall i | 0 <= i < |fs|
      ensures IsNumberField(fs[i])
    {
      DigitField(fs[i]);
    }
    ScanAmount(fs);
    ScanWon(fs);
  }

  /** A sorted list that holds every value of a sorted list of its own
      length is that list: no padding was needed. */
  lemma PaddedFull(scanned: seq<int>, result: seq<int>)
    requires multiset(scanned) <= multiset(result) && |result| == |scanned|
    requires Sorted(scanned) && Sorted(result)
    ensures result == scanned
  {
    SubMultisetSameSize(multiset(scanned), multiset(result));
    SortedUnique(scanned, result);
  }

  // ---------------------------------------------------------------------
  // The row

  /** The fields after the date and the draw number: five main numbers,
      then two more. */
  const SampleNumbers: seq<string> := ["3", "16", "23", "38", "47"] + ["7", "11"]

  const SampleParts: seq<string> := ["2025-07-04", "1851"] + SampleNumbers

  /** The row, written as its fields joined by commas. */
  const SampleLine: string := Join(SampleParts, ',')

  /** Joining two non-empty lists of pieces one after the other. */
  lemma {:induction false} JoinAppend(a: seq<string>, b: seq<string>, sep: char)
    requires a != [] && b != []
    ensures Join(a + b, sep) == Join(a, sep) + [sep] + Join(b, sep)
    decreases |a|
  {
    assert (a + b)[0] == a[0];
    if |a| == 1 {
      assert (a + b)[1..] == b;
    } else {
      assert (a + b)[1..] == a[1..] + b;
      JoinAppend(a[1..], b, sep);
    }
  }

  /** The pieces of the row as text. */
  lemma SampleMainText()
    ensures Join(["3", "16", "23", "38", "47"], ',') == "3,16,23,38,47"
  {
  }

  lemma SampleHeadText()
    ensures Join(["7", "11"], ',') == "7,11"
    ensures Join(["2025-07-04", "1851"], ',') == "2025-07-04,1851"
  {
  }

  lemma SampleTextJoined()
    ensures "3,16,23,38,47" + [','] + "7,11" == "3,16,23,38,47,7,11"
    ensures "2025-07-04,1851" + [','] + "3,16,23,38,47,7,11" == "2025-07-04,1851,3,16,23,38,47,7,11"
  {
  }

  /** The number fields as text. */
  lemma SampleNumbersText()
    ensures Join(SampleNumbers, ',') == "3,16,23,38,47,7,11"
  {
    JoinAppend(["3", "16", "23", "38", "47"], ["7", "11"], ',');
    SampleMainText();
    SampleHeadText();
    SampleTextJoined();
  }

  /** The row as text. */
  lemma SampleLineText()
    ensures SampleLine == "2025-07-04,1851,3,16,23,38,47,7,11"
  {
    SampleNumbersText();
    JoinAppend(["2025-07-04", "1851"], SampleNumbers, ',');
    SampleMainText();
    SampleHeadText();
    SampleTextJoined();
  }

  /** Splitting undoes joining pieces that hold no separator. */
  lemma {:induction false} SplitOfJoin(parts: seq<string>, sep: char)
    requires parts != []
    requires forall i :: 0 <= i < |parts| ==> sep !in parts[i]
    ensures Split(Join(parts, sep), sep) == parts
    decreases |parts|
  {
    if |parts| == 1 {
      SplitNoSep(parts[0], sep);
    } else {
      SplitOfJoin(parts[1..], sep);
      SplitAt(parts[0], Join(parts[1..], sep), sep);
      assert parts == [parts[0]] + parts[1..];
    }
  }

  /** Text made of digits, '-', '.' and '/' only. */
  predicate Plain(s: string) {
    forall k :: 0 <= k < |s| ==> '-' <= s[k] <= '9'
  }

  /** White space and the comma are below '-' or above '9'. */
  lemma PlainText(s: string)
    requires Plain(s)
    ensures Trim(s) == s
    ensures ',' !in s
  {
  }

  /** Trimming fields without white space changes none of them. */
  lemma TrimAllPlain(parts: seq<string>)
    requires forall i :: 0 <= i < |parts| ==> Plain(parts[i])
    ensures TrimAll(parts) == parts
  {
    forall i | 0 <= i < |parts|
      ensures TrimAll(parts)[i] == parts[i]
    {
      PlainText(parts[i]);
    }
  }

  /** The row's fields one by one. */
  lemma SamplePartsAt()
    ensures |SampleParts| == 9 && SampleParts[2..] == SampleNumbers
    ensures SampleParts[0] == "2025-07-04" && SampleParts[1] == "1851"
    ensures SampleNumbers == ["3", "16", "23", "38", "47", "7", "11"]
  {
  }

  /** Every field of the row is plain text. */
  lemma SamplePartsPlain()
    ensures forall i :: 0 <= i < |SampleParts| ==> Plain(SampleParts[i])
  {
    SamplePartsAt();
    assert Plain("2025-07-04") && Plain("1851") && Plain("3") && Plain("16") && Plain("23");
    assert Plain("38") && Plain("47") && Plain("7") && Plain("11");
  }

  /** The trimmed fields of the row. */
  lemma SampleFields()
    ensures LineFields(SampleLine) == SampleParts
  {
    SamplePartsPlain();
    forall i | 0 <= i < |SampleParts|
      ensures ',' !in SampleParts[i]
    {
      PlainText(SampleParts[i]);
    }
    SplitOfJoin(SampleParts, ',');
    TrimAllPlain(SampleParts);
  }

  /** Every number field of the row is a non-empty string of digits. */
  lemma SampleDigits()
    ensures forall i :: 0 <= i < |SampleNumbers| ==> SampleNumbers[i] != [] && AllDigits(SampleNumbers[i])
  {
    SamplePartsAt();
  }

  /** A list of seven known values. */
  lemma Seven(s: seq<int>, a: int, b: int, c: int, d: int, e: int, f: int, g: int)
    requires |s| == 7
    requires s[0] == a && s[1] == b && s[2] == c && s[3] == d && s[4] == e && s[5] == f && s[6] == g
    ensures s == [a, b, c, d, e, f, g]
  {
  }

  /** The decimal value of one, two or four digits. */
  lemma ShortDigitsValue(s: string)
    requires |s| == 1 || |s| == 2 || |s| == 4
    ensures |s| == 1 ==> DigitsValue(s, 10) == DigitValue(s[0])
    ensures |s| == 2 ==> DigitsValue(s, 10) == DigitValue(s[0]) * 10 + DigitValue(s[1])
    ensures |s| == 4 ==>
      DigitsValue(s, 10) == ((DigitValue(s[0]) * 10 + DigitValue(s[1])) * 10 + DigitValue(s[2])) * 10 + DigitValue(s[3])
  {
    var t := s[..|s| - 1];
    assert |s| >= 2 ==> t[..|t| - 1] == s[..|s| - 2];
    assert |s| == 4 ==> s[..2][..1] == s[..1] && s[..3][..2] == s[..2];
  }

  /** The values the row's number fields spell. */
  lemma SampleDigitValues()
    ensures DigitsValue("3", 10) == 3 && DigitsValue("16", 10) == 16 && DigitsValue("23", 10) == 23
    ensures DigitsValue("38", 10) == 38 && DigitsValue("47", 10) == 47
    ensures DigitsValue("7", 10) == 7 && DigitsValue("11", 10) == 11
    ensures DigitsValue("1851", 10) == 1851
  {
    ShortDigitsValue("3");
    ShortDigitsValue("16");
    ShortDigitsValue("23");
    ShortDigitsValue("38");
    ShortDigitsValue("47");
    ShortDigitsValue("7");
    ShortDigitsValue("11");
    ShortDigitsValue("1851");
  }

  /** The values of the number fields, in order. */
  lemma SampleValues()
    ensures NumberValues(SampleNumbers) == [3, 16, 23, 38, 47, 7, 11]
  {
    SampleDigits();
    NumberValuesOfDigits(SampleNumbers);
    SamplePartsAt();
    SampleDigitValues();
    Seven(RunValues(SampleNumbers), 3, 16, 23, 38, 47, 7, 11);
  }

  /** No field of the row names a jackpot or a win. */
  lemma SamplePlain()
    ensures Scan(SampleNumbers).jackpotAmount == 0.0
    ensures Scan(SampleNumbers).jackpotWon == "No"
  {
    SampleDigits();
    DigitFieldsPlain(SampleNumbers);
  }

  /** All seven values are in 1..50. */
  lemma SampleKeepMain()
    ensures Keep([3, 16, 23, 38, 47, 7, 11], 1, 50) == [3, 16, 23, 38, 47, 7, 11]
  {
    KeepAll([3, 16, 23, 38, 47, 7, 11], 1, 50);
  }

  /** The values split around the four that are past 12. */
  lemma SampleStarParts()
    ensures Keep([3, 16, 23, 38, 47, 7, 11], 1, 12)
         == Keep([3], 1, 12) + Keep([16, 23, 38, 47], 1, 12) + Keep([7, 11], 1, 12)
  {
    var xs, ys, zs := [3], [16, 23, 38, 47], [7, 11];
    assert xs + ys + zs == [3, 16, 23, 38, 47, 7, 11];
    KeepAppend(xs + ys, zs, 1, 12);
    KeepAppend(xs, ys, 1, 12);
  }

  /** What each part keeps. */
  lemma SampleStarPieces()
    ensures Keep([3], 1, 12) == [3]
    ensures Keep([16, 23, 38, 47], 1, 12) == []
    ensures Keep([7, 11], 1, 12) == [7, 11]
  {
    KeepAll([3], 1, 12);
    KeepNone([16, 23, 38, 47], 1, 12);
    KeepAll([7, 11], 1, 12);
  }

  lemma SampleStarsJoined()
    ensures [3] + [] + [7, 11] == [3, 7, 11]
  {
  }

  /** 3, 7 and 11 are the values in 1..12. */
  lemma SampleKeepStars()
    ensures Keep([3, 16, 23, 38, 47, 7, 11], 1, 12) == [3, 7, 11]
  {
    SampleStarParts();
    SampleStarPieces();
    SampleStarsJoined();
  }

  /** What the field loop collects from the row. */
  lemma SampleScan()
    ensures Scan(SampleNumbers) == RowScan([3, 16, 23, 38, 47], [3, 7], 0.0, "No")
  {
    SampleValues();
    ScanNumbers(SampleNumbers);
    SampleKeepMain();
    SampleKeepStars();
    SamplePlain();
  }

  /** The collected lists are already in order. */
  lemma SampleSorted()
    ensures Sorted([3, 16, 23, 38, 47]) && Sorted([3, 7])
  {
  }

  /** The draw number field parses to 1851. */
  lemma SampleDrawNumber()
    ensures ParseIntOrZero("1851") == 1851
  {
    ParseIntOfDigits("1851");
    SampleDigitValues();
  }

  /** What the line loop builds from the row's fields. */
  lemma SampleBuilt(input: DrawInput)
    requires BuiltFrom(SampleParts, input)
    ensures input.date == "2025-07-04" && input.drawNumber == 1851
    ensures input.mainNumbers == [3, 16, 23, 38, 47]
    ensures input.luckyStars == [3, 7]
    ensures input.jackpotAmount == 0.0 && input.jackpotWon == "No"
  {
    SamplePartsAt();
    SampleDrawNumber();
    SampleScan();
    var scan := Scan(SampleNumbers);
    SampleSorted();
    PaddedFull(scan.mainNumbers, input.mainNumbers);
    PaddedFull(scan.luckyStars, input.luckyStars);
  }

  /** The row is stored, and every draw built from it carries date
      2025-07-04, draw number 1851, main numbers 3, 16, 23, 38, 47, stars
      3 and 7, no jackpot amount and "No". */
  lemma SampleRowStored(input: DrawInput)
    requires BuiltFrom(LineFields(SampleLine), input)
    ensures Persistable(SampleLine)
    ensures input.date == "2025-07-04" && input.drawNumber == 1851
    ensures input.mainNumbers == [3, 16, 23, 38, 47]
    ensures input.luckyStars == [3, 7]
    ensures input.jackpotAmount == 0.0 && input.jackpotWon == "No"
  {
    SampleFields();
    PersistableFields(SampleLine);
    SampleBuilt(input);
  }
}
