/** The CSV upload: each data line becomes one draw. Fields from the third
    on are scanned for a jackpot amount, a "won" marker and number tokens;
    short lists are padded with unused random values; both lists are sorted
    and the draw is stored. */
module CsvIngest {
  import opened Common
  import opened JsText
  import opened Schema
  import opened Storage

  // ---------------------------------------------------------------------
  // Lines and fields

  predicate NonBlank(line: string) {
    Trim(line) != ""
  }

  /** `parts.map(p => p.trim())` */
  function TrimAll(parts: seq<string>): (r: seq<string>)
    ensures |r| == |parts|
    ensures forall i :: 0 <= i < |r| ==> r[i] == Trim(parts[i])
  {
    if parts == [] then [] else [Trim(parts[0])] + TrimAll(parts[1..])
  }

  /** `line.split(',').map(field => field.trim())` */
  function LineFields(line: string): (fields: seq<string>)
    ensures |fields| >= 1
  {
    TrimAll(Split(line, ','))
  }

  /** `lines.filter(line => line.trim())`: exactly the non-blank lines, in
      their order. */
  function NonBlankLines(ls: seq<string>): (r: seq<string>)
    ensures |r| <= |ls|
    ensures forall x {:trigger x in r} :: x in r <==> x in ls && NonBlank(x)
  {
    Filter(ls, NonBlank)
  }

  /** `content.split('\n').filter(line => line.trim())` */
  function Lines(content: string): seq<string> {
    NonBlankLines(Split(content, '\n'))
  }

  /** A line the loop turns into a stored draw: at least two fields and a
      non-empty date. */
  predicate Persistable(line: string) {
    var parts := Split(line, ',');
    |parts| >= 2 && Trim(parts[0]) != ""
  }

  /** The trimmed first field of a line: the draw's date. */
  function DateField(line: string): string {
    Trim(Split(line, ',')[0])
  }

  /** Persistable is the upload's own test on the trimmed fields: at least
      two of them, and a non-empty date. */
  lemma PersistableFields(line: string)
    ensures Persistable(line) <==> |LineFields(line)| >= 2 && LineFields(line)[0] != ""
    ensures DateField(line) == LineFields(line)[0]
  {
  }

  // ---------------------------------------------------------------------
  // Field classification

  /** `field.includes('€') || field.includes('EUR')` */
  predicate IsJackpotField(field: string) {
    Contains(field, "€") || Contains(field, "EUR")
  }

  /** `field.toLowerCase().includes('yes') || field.toLowerCase().includes('won')` */
  predicate IsWonField(field: string) {
    Contains(ToLower(field), "yes") || Contains(ToLower(field), "won")
  }

  /** A field that is scanned for numbers. */
  predicate IsNumberField(field: string) {
    !IsJackpotField(field) && !IsWonField(field)
  }

  /** A character the currency strip removes. */
  predicate IsCurrencyChar(c: char) {
    c in "€,EUR"
  }

  /** `field.replace(/[€,EUR]/g, '')`: the bracket is a character class, so
      every '€', ',', 'E', 'U' and 'R' is removed and every other character
      is kept, in order. */
  function StripCurrency(field: string): (r: string)
    ensures |r| <= |field|
    ensures forall c {:trigger c in r} :: c in r <==> c in field && c !in "€,EUR"
  {
    Filter(field, (c: char) => !IsCurrencyChar(c))
  }

  /** `parseFloat(field.replace(/[€,EUR]/g, '')) || 0` */
  function JackpotValue(field: string): real {
    ParseFloatOrZero(StripCurrency(field))
  }

  // ---------------------------------------------------------------------
  // Scanning the fields

  datatype RowScan = RowScan(mainNumbers: seq<int>, luckyStars: seq<int>, jackpotAmount: real, jackpotWon: string)

  const EmptyScan: RowScan := RowScan([], [], 0.0, "No")

  /** `ns.filter(n => n >= lo && n <= hi)`: exactly the values in range, in
      their order. */
  function Keep(ns: seq<int>, lo: int, hi: int): (r: seq<int>)
    ensures |r| <= |ns|
    ensures forall x {:trigger x in r} :: x in r <==> x in ns && lo <= x <= hi
    ensures AllIn(r, lo, hi)
  {
    var r := Filter(ns, (n: int) => lo <= n <= hi);
    assert forall i :: 0 <= i < |r| ==> r[i] in r;
    r
  }

  /** `ns.forEach(n => { if (acc.length < cap && n >= lo && n <= hi) acc.push(n); })` */
  function Admit(acc: seq<int>, ns: seq<int>, lo: int, hi: int, cap: nat): seq<int> {
    if ns == [] then acc
    else
      var a := Admit(acc, ns[..|ns| - 1], lo, hi, cap);
      var n := ns[|ns| - 1];
      if |a| < cap && lo <= n <= hi then a + [n] else a
  }

  /** One turn of the field loop. */
  function ScanField(acc: RowScan, field: string): RowScan {
    if IsJackpotField(field) then acc.(jackpotAmount := JackpotValue(field))
    else if IsWonField(field) then acc.(jackpotWon := "Yes")
    else
      var numbers := Keep(MatchNumbers(field), 1, 50);
      var stars := Keep(MatchNumbers(field), 1, 12);
      var main := if |acc.mainNumbers| < 5 then Admit(acc.mainNumbers, numbers, 1, 50, 5) else acc.mainNumbers;
      var lucky := if |acc.luckyStars| < 2 then Admit(acc.luckyStars, stars, 1, 12, 2) else acc.luckyStars;
      acc.(mainNumbers := main, luckyStars := lucky)
  }

  /** The state after scanning the given fields in order. */
  function Scan(fields: seq<string>): RowScan {
    if fields == [] then EmptyScan
    else ScanField(Scan(fields[..|fields| - 1]), fields[|fields| - 1])
  }

  /** An inner `forEach` loop pushing values while the list is short. */
  method AdmitLoop(acc: seq<int>, ns: seq<int>, lo: int, hi: int, cap: nat) returns (r: seq<int>)
    ensures r == Admit(acc, ns, lo, hi, cap)
  {
    r := acc;
    var k := 0;
    while k < |ns|
      invariant 0 <= k <= |ns|
      invariant r == Admit(acc, ns[..k], lo, hi, cap)
    {
      assert ns[..k + 1][..k] == ns[..k];
      if |r| < cap && lo <= ns[k] <= hi {
        r := r + [ns[k]];
      }
      k := k + 1;
    }
    assert ns[..k] == ns;
  }

  /** One turn of the field loop. */
  method ScanOneField(before: RowScan, field: string) returns (after: RowScan)
    ensures after == ScanField(before, field)
  {
    after := before;
    if IsJackpotField(field) {
      after := after.(jackpotAmount := JackpotValue(field));
    } else if IsWonField(field) {
      after := after.(jackpotWon := "Yes");
    } else {
      var numbers := Keep(MatchNumbers(field), 1, 50);
      var stars := Keep(MatchNumbers(field), 1, 12);
      if |after.mainNumbers| < 5 {
        var main := AdmitLoop(after.mainNumbers, numbers, 1, 50, 5);
        after := after.(mainNumbers := main);
      }
      if |after.luckyStars| < 2 {
        var lucky := AdmitLoop(after.luckyStars, stars, 1, 12, 2);
        after := after.(luckyStars := lucky);
      }
    }
  }

  lemma ScanSnoc(fs: seq<string>, f: string)
    ensures Scan(fs + [f]) == ScanField(Scan(fs), f)
  {
    assert (fs + [f])[..|fs|] == fs;
  }

  lemma ScanStep(fields: seq<string>, j: nat)
    requires 2 <= j < |fields|
    ensures Scan(fields[2..j + 1]) == ScanField(Scan(fields[2..j]), fields[j])
  {
    assert fields[2..j + 1] == fields[2..j] + [fields[j]];
    ScanSnoc(fields[2..j], fields[j]);
  }

  /** The field loop of the ingester, from the third field on. */
  method ScanRow(fields: seq<string>) returns (scan: RowScan)
    requires |fields| >= 2
    ensures scan == Scan(fields[2..])
  {
    scan := EmptyScan;
    var j := 2;
    assert Scan(fields[2..2]) == EmptyScan by {
      assert fields[2..2] == [];
    }
    while j < |fields|
      invariant 2 <= j <= |fields|
      invariant scan == Scan(fields[2..j])
    {
      ScanStep(fields, j);
      scan := ScanOneField(scan, fields[j]);
      j := j + 1;
    }
    assert fields[2..j] == fields[2..];
  }

  // ---------------------------------------------------------------------
  // What the scan collects, stated without the loop

  /** The first n elements of s, or all of s when it is shorter. */
  function Prefix(s: seq<int>, n: nat): (r: seq<int>)
    ensures |r| <= n && r <= s
    ensures |s| <= n ==> r == s
  {
    if |s| <= n then s else s[..n]
  }

  lemma PrefixInRange(s: seq<int>, n: nat, lo: int, hi: int)
    requires AllIn(s, lo, hi)
    ensures AllIn(Prefix(s, n), lo, hi)
  {
    var r := Prefix(s, n);
    assert forall i :: 0 <= i < |r| ==> r[i] == s[i];
  }

  /** The numbers of every number field, field after field. */
  function NumberValues(fields: seq<string>): seq<int> {
    if fields == [] then []
    else
      var f := fields[|fields| - 1];
      NumberValues(fields[..|fields| - 1]) + (if IsNumberField(f) then MatchNumbers(f) else [])
  }

  lemma KeepAppend(xs: seq<int>, ys: seq<int>, lo: int, hi: int)
    ensures Keep(xs + ys, lo, hi) == Keep(xs, lo, hi) + Keep(ys, lo, hi)
  {
    FilterAppend(xs, ys, (n: int) => lo <= n <= hi);
  }

  lemma {:induction false} KeepKeep(xs: seq<int>, lo: int, hi: int)
    ensures Keep(Keep(xs, lo, hi), lo, hi) == Keep(xs, lo, hi)
  {
    if xs != [] {
      var init := xs[..|xs| - 1];
      KeepKeep(init, lo, hi);
      var x := xs[|xs| - 1];
      KeepAppend(Keep(init, lo, hi), if lo <= x <= hi then [x] else [], lo, hi);
      if lo <= x <= hi {
        assert [x][..0] == [];
      }
    }
  }

  /** Admitting values one at a time up to a cap keeps the first values in
      range until the list is full. */
  lemma {:induction false} AdmitSpec(acc: seq<int>, ns: seq<int>, lo: int, hi: int, cap: nat)
    requires |acc| <= cap
    ensures Admit(acc, ns, lo, hi, cap) == Prefix(acc + Keep(ns, lo, hi), cap)
  {
    if ns != [] {
      var init := ns[..|ns| - 1];
      var n := ns[|ns| - 1];
      AdmitSpec(acc, init, lo, hi, cap);
      var a := Admit(acc, init, lo, hi, cap);
      var whole := acc + Keep(init, lo, hi);
      if lo <= n <= hi {
        assert acc + Keep(ns, lo, hi) == whole + [n];
        if |a| < cap {
          assert a == whole;
        } else {
          assert |whole| >= cap;
          assert (whole + [n])[..cap] == whole[..cap];
        }
      } else {
        assert acc + Keep(ns, lo, hi) == whole;
      }
    }
  }

  /** Truncating before appending more does not change the final truncation. */
  lemma PrefixTwice(a: seq<int>, b: seq<int>, n: nat)
    ensures Prefix(Prefix(a, n) + b, n) == Prefix(a + b, n)
  {
    if |a| > n {
      assert (a + b)[..n] == a[..n];
    }
  }

  /** One step of the capped collection, stated on the whole list of values. */
  lemma CollectStep(acc: seq<int>, vs: seq<int>, ws: seq<int>, lo: int, hi: int, cap: nat)
    requires acc == Prefix(Keep(vs, lo, hi), cap)
    ensures (if |acc| < cap then Admit(acc, Keep(ws, lo, hi), lo, hi, cap) else acc)
      == Prefix(Keep(vs + ws, lo, hi), cap)
  {
    KeepAppend(vs, ws, lo, hi);
    if |acc| < cap {
      AdmitSpec(acc, Keep(ws, lo, hi), lo, hi, cap);
      KeepKeep(ws, lo, hi);
      PrefixTwice(Keep(vs, lo, hi), Keep(ws, lo, hi), cap);
    } else {
      assert |Keep(vs, lo, hi)| >= cap;
      assert (Keep(vs, lo, hi) + Keep(ws, lo, hi))[..cap] == Keep(vs, lo, hi)[..cap];
    }
  }

  /** The scan keeps the first five values in 1..50 and, independently, the
      first two values in 1..12 among all digit runs of the number fields,
      in field order. */
  lemma {:induction false} ScanNumbers(fields: seq<string>)
    ensures Scan(fields).mainNumbers == Prefix(Keep(NumberValues(fields), 1, 50), 5)
    ensures Scan(fields).luckyStars == Prefix(Keep(NumberValues(fields), 1, 12), 2)
  {
    if fields != [] {
      var init := fields[..|fields| - 1];
      var f := fields[|fields| - 1];
      ScanNumbers(init);
      var before := Scan(init);
      if IsNumberField(f) {
        CollectStep(before.mainNumbers, NumberValues(init), MatchNumbers(f), 1, 50, 5);
        CollectStep(before.luckyStars, NumberValues(init), MatchNumbers(f), 1, 12, 2);
      } else {
        assert NumberValues(fields) == NumberValues(init) + [];
        assert NumberValues(init) + [] == NumberValues(init);
      }
    }
  }

  /** Field i is a jackpot field and no later one is. */
  predicate LastJackpotField(fields: seq<string>, i: nat)
    requires i < |fields|
  {
    IsJackpotField(fields[i]) && forall j :: i < j < |fields| ==> !IsJackpotField(fields[j])
  }

  /** jackpotWon is "Yes" exactly when some field that is not a jackpot
      field mentions "yes" or "won", and "No" otherwise. */
  lemma {:induction false} ScanWon(fields: seq<string>)
    ensures Scan(fields).jackpotWon == "Yes" <==>
      exists i :: 0 <= i < |fields| && !IsJackpotField(fields[i]) && IsWonField(fields[i])
    ensures Scan(fields).jackpotWon == "Yes" || Scan(fields).jackpotWon == "No"
  {
    if fields != [] {
      var init := fields[..|fields| - 1];
      var f := fields[|fields| - 1];
      assert fields == init + [f];
      ScanWon(init);
      ScanSnoc(init, f);
      ScanFieldFlags(Scan(init), f);
      if Scan(init).jackpotWon == "Yes" {
        var i :| 0 <= i < |init| && !IsJackpotField(init[i]) && IsWonField(init[i]);
        assert fields[i] == init[i];
      }
      if exists i :: 0 <= i < |fields| && !IsJackpotField(fields[i]) && IsWonField(fields[i]) {
        var i :| 0 <= i < |fields| && !IsJackpotField(fields[i]) && IsWonField(fields[i]);
        if i < |init| {
          assert fields[i] == init[i];
        }
      }
    }
  }

  /** The amount is that of the last jackpot field, and 0 when there is none. */
  lemma {:induction false} ScanAmount(fields: seq<string>)
    ensures forall i :: 0 <= i < |fields| && LastJackpotField(fields, i) ==>
      Scan(fields).jackpotAmount == JackpotValue(fields[i])
    ensures (forall i :: 0 <= i < |fields| ==> !IsJackpotField(fields[i])) ==> Scan(fields).jackpotAmount == 0.0
  {
    if fields != [] {
      var init := fields[..|fields| - 1];
      var f := fields[|fields| - 1];
      assert fields == init + [f];
      ScanAmount(init);
      ScanSnoc(init, f);
      ScanFieldFlags(Scan(init), f);
      if !IsJackpotField(f) {
        forall i | 0 <= i < |fields| && LastJackpotField(fields, i)
          ensures Scan(fields).jackpotAmount == JackpotValue(fields[i])
        {
          assert fields[i] == init[i];
          assert LastJackpotField(init, i) by {
            forall j | i < j < |init|
              ensures !IsJackpotField(init[j])
            {
              assert fields[j] == init[j];
            }
          }
        }
        if forall i :: 0 <= i < |fields| ==> !IsJackpotField(fields[i]) {
          forall i | 0 <= i < |init|
            ensures !IsJackpotField(init[i])
          {
            assert fields[i] == init[i];
          }
        }
      }
    }
  }

  /** What one field does to the two jackpot values. */
  lemma ScanFieldFlags(acc: RowScan, f: string)
    ensures ScanField(acc, f).jackpotWon == if !IsJackpotField(f) && IsWonField(f) then "Yes" else acc.jackpotWon
    ensures ScanField(acc, f).jackpotAmount == if IsJackpotField(f) then JackpotValue(f) else acc.jackpotAmount
  {
  }

  // ---------------------------------------------------------------------
  // Building and storing one draw

  /** The numbers of a stored upload: five sorted values in 1..50 and two
      sorted values in 1..12. */
  predicate WellFormedNumbers(input: DrawInput) {
    && |input.mainNumbers| == 5 && Sorted(input.mainNumbers) && AllIn(input.mainNumbers, 1, 50)
    && |input.luckyStars| == 2 && Sorted(input.luckyStars) && AllIn(input.luckyStars, 1, 12)
  }

  /** `result` holds every scanned value exactly as often as the scan
      does, plus padding values, each of which is new and occurs once. */
  predicate PaddedFrom(scanned: seq<int>, result: seq<int>) {
    && multiset(scanned) <= multiset(result)
    && (forall x :: x in scanned ==> multiset(result)[x] == multiset(scanned)[x])
    && (forall x :: x in result && x !in scanned ==> multiset(result)[x] == 1)
  }

  /** The `while (list.length < target)` padding loop followed by the numeric sort. */
  method PadAndSort(scanned: seq<int>, lo: int, hi: int, target: nat) returns (r: seq<int>)
    requires lo <= hi && |scanned| <= target <= hi - lo + 1
    requires AllIn(scanned, lo, hi)
    ensures |r| == target && Sorted(r) && AllIn(r, lo, hi)
    ensures PaddedFrom(scanned, r)
  {
    FreeValues(scanned, lo, hi);
    var filled := FillDistinct(scanned, Range(lo, hi), target);
    ghost var added := filled[|scanned|..];
    assert filled == scanned + added;
    assert AllIn(filled, lo, hi);
    r := SortAsc(filled);
    assert |r| == |multiset(r)| == |multiset(filled)| == |filled|;
    PermutationKeepsBounds(filled, r, lo, hi);
    assert multiset(r) == multiset(scanned) + multiset(added);
    forall x | x in r && x !in scanned
      ensures multiset(r)[x] == 1
    {
      assert x in multiset(r);
      assert x in filled;
      assert x in added;
      DistinctOccursOnce(added, x);
      assert multiset(scanned)[x] == 0;
    }
    forall x | x in scanned
      ensures multiset(r)[x] == multiset(scanned)[x]
    {
      assert x !in added;
    }
  }

  /** `drawNumber`: field 1 parsed (0 when it is no number) when it is
      present and differs from the date, else a random value in
      1000..10998 (`Math.floor(Math.random() * 9999) + 1000`). */
  method ChooseDrawNumber(date: string, drawNumberStr: string) returns (drawNumber: int)
    ensures drawNumberStr != "" && drawNumberStr != date ==> drawNumber == ParseIntOrZero(drawNumberStr)
    ensures !(drawNumberStr != "" && drawNumberStr != date) ==> 1000 <= drawNumber <= 10998
  {
    if drawNumberStr != "" && drawNumberStr != date {
      drawNumber := ParseIntOrZero(drawNumberStr);
    } else {
      drawNumber :| 1000 <= drawNumber <= 10998;
    }
  }

  /** What the line loop builds from a row's trimmed fields: the date is
      field 0; the draw number is field 1 parsed when it is present and
      differs from the date, else a value in 1000..10998; the numbers are
      the scanned ones, padded with new values, in order and in range; the
      jackpot amount and the won flag are the scan's. */
  predicate BuiltFrom(fields: seq<string>, input: DrawInput) {
    && |fields| >= 2
    && input.date == fields[0]
    && (fields[1] != "" && fields[1] != fields[0] ==> input.drawNumber == ParseIntOrZero(fields[1]))
    && (!(fields[1] != "" && fields[1] != fields[0]) ==> 1000 <= input.drawNumber <= 10998)
    && WellFormedNumbers(input)
    && PaddedFrom(Scan(fields[2..]).mainNumbers, input.mainNumbers)
    && PaddedFrom(Scan(fields[2..]).luckyStars, input.luckyStars)
    && input.jackpotAmount == Scan(fields[2..]).jackpotAmount
    && input.jackpotWon == Scan(fields[2..]).jackpotWon
  }

  /** The body of the line loop up to the store call. */
  method BuildDrawInput(fields: seq<string>) returns (input: DrawInput)
    requires |fields| >= 2
    ensures BuiltFrom(fields, input)
  {
    var date := fields[0];
    var drawNumber := ChooseDrawNumber(date, fields[1]);
    var scan := ScanRow(fields);
    ScanNumbers(fields[2..]);
    PrefixInRange(Keep(NumberValues(fields[2..]), 1, 50), 5, 1, 50);
    PrefixInRange(Keep(NumberValues(fields[2..]), 1, 12), 2, 1, 12);
    var mainNumbers := PadAndSort(scan.mainNumbers, 1, 50, 5);
    var luckyStars := PadAndSort(scan.luckyStars, 1, 12, 2);
    input := DrawInput(date, drawNumber, mainNumbers, luckyStars, scan.jackpotAmount, scan.jackpotWon);
  }

  /** The data lines: the non-blank lines after the first, which is the header. */
  function DataLines(content: string): seq<string> {
    var lines := Lines(content);
    if lines == [] then [] else lines[1..]
  }

  /** The lines that become draws, in order. */
  function PersistableLines(ls: seq<string>): (r: seq<string>)
    ensures |r| <= |ls|
    ensures forall l {:trigger l in r} :: l in r <==> l in ls && Persistable(l)
  {
    Filter(ls, Persistable)
  }

  lemma PersistableSnoc(s: seq<string>, x: string)
    ensures PersistableLines(s + [x]) == PersistableLines(s) + (if Persistable(x) then [x] else [])
  {
    FilterSnoc(s, x, Persistable);
  }

  /** The draws from position n0 on are one per line of persisted, in
      order, each built from that line's fields. */
  ghost predicate Recorded(draws: seq<Draw>, n0: nat, persisted: seq<string>) {
    && |draws| == n0 + |persisted|
    && forall k :: 0 <= k < |persisted| ==> BuiltFrom(LineFields(persisted[k]), draws[n0 + k].input)
  }

  /** What Recorded says, draw by draw. */
  lemma RecordedAt(draws: seq<Draw>, n0: nat, persisted: seq<string>, k: nat)
    requires Recorded(draws, n0, persisted)
    requires k < |persisted|
    ensures BuiltFrom(LineFields(persisted[k]), draws[n0 + k].input)
    ensures draws[n0 + k].input.date == DateField(persisted[k])
    ensures WellFormedNumbers(draws[n0 + k].input)
  {
    PersistableFields(persisted[k]);
  }

  lemma RecordedSnoc(draws: seq<Draw>, n0: nat, persisted: seq<string>, after: seq<Draw>, line: string)
    requires Recorded(draws, n0, persisted)
    requires |after| == |draws| + 1 && after[..|draws|] == draws
    requires BuiltFrom(LineFields(line), after[|draws|].input)
    ensures Recorded(after, n0, persisted + [line])
  {
    var ps := persisted + [line];
    forall k | 0 <= k < |ps|
      ensures BuiltFrom(LineFields(ps[k]), after[n0 + k].input)
    {
      if k < |persisted| {
        assert ps[k] == persisted[k];
        assert after[n0 + k] == draws[n0 + k];
      }
    }
  }

  /** The persisted lines after one more line: it joins them exactly when
      it is persistable. */
  lemma PersistedStep(rows: seq<string>, i: nat, persisted: seq<string>, stored: bool)
    requires i < |rows|
    requires persisted == PersistableLines(rows[..i])
    requires stored == Persistable(rows[i])
    ensures persisted + (if stored then [rows[i]] else []) == PersistableLines(rows[..i + 1])
  {
    assert rows[..i + 1] == rows[..i] + [rows[i]];
    PersistableSnoc(rows[..i], rows[i]);
  }

  /** The record after one more line: a stored line's draw extends it, and
      a skipped line leaves the draws as they were. */
  lemma RecordedStep(n0: nat, persisted: seq<string>, line: string,
                     before: seq<Draw>, after: seq<Draw>, stored: bool)
    requires Recorded(before, n0, persisted)
    requires !stored ==> after == before
    requires stored ==> |after| == |before| + 1 && after[..|before|] == before
    requires stored ==> BuiltFrom(LineFields(line), after[|before|].input)
    ensures Recorded(after, n0, persisted + (if stored then [line] else []))
    ensures after[..n0] == before[..n0]
  {
    assert n0 <= |before|;
    if stored {
      RecordedSnoc(before, n0, persisted, after, line);
      PrefixOfPrefix(after, before, n0);
    } else {
      assert persisted + [] == persisted;
    }
  }

  lemma PrefixOfPrefix<T>(after: seq<T>, before: seq<T>, n0: nat)
    requires n0 <= |before| < |after| && after[..|before|] == before
    ensures after[..n0] == before[..n0]
  {
    assert after[..n0] == after[..|before|][..n0];
  }

  /** One turn of the upload loop: a line with at least two fields and a
      non-empty date becomes one stored draw, built from its fields, and
      the active model is retrained on the new number of draws; any other
      line changes nothing. */
  method IngestLine(store: MemStorage, line: string, now: int) returns (stored: bool)
    requires store.Valid()
    modifies store
    ensures store.Valid()
    ensures stored == Persistable(line)
    ensures !stored ==> store.draws == old(store.draws)
    ensures !stored ==> store.models == old(store.models) && store.currentDrawId == old(store.currentDrawId)
    ensures stored ==> |store.draws| == |old(store.draws)| + 1 && store.draws[..|old(store.draws)|] == old(store.draws)
    ensures stored ==> var d := store.draws[|old(store.draws)|];
      && d.id == old(store.currentDrawId) && d.createdAt == now
      && d.input.date == DateField(line) && BuiltFrom(LineFields(line), d.input)
    ensures stored ==> store.models == RetrainAt(old(store.models), ActiveIndex(old(store.models)).value, |store.draws|, now)
    ensures ActiveIndex(store.models) == ActiveIndex(old(store.models))
    ensures stored ==> store.currentDrawId == old(store.currentDrawId) + 1
    ensures store.predictionsList == old(store.predictionsList)
    ensures store.currentPredictionId == old(store.currentPredictionId)
    ensures store.currentModelId == old(store.currentModelId)
  {
    var fields := LineFields(line);
    PersistableFields(line);
    stored := false;
    if |fields| >= 2 {
      var input := BuildDrawInput(fields);
      if input.date != "" {
        var draw := store.CreateDraw(input, now);
        assert store.draws[..|old(store.draws)|] == old(store.draws);
        RetrainAtKeepsActive(old(store.models), ActiveIndex(old(store.models)).value, |store.draws|, now);
        stored := true;
      }
    }
  }

  /** What the upload loop has done after the lines rows[..i], starting
      from n0 draws and the next draw id c0: a draw built from each
      persistable line so far, in order, and one id taken per stored draw. */
  ghost predicate Progress(draws: seq<Draw>, currentDrawId: int, rows: seq<string>, i: nat, n0: nat, c0: int)
    requires i <= |rows|
  {
    var persisted := PersistableLines(rows[..i]);
    && Recorded(draws, n0, persisted)
    && currentDrawId == c0 + |persisted|
  }

  /** Before the first line nothing has been done. */
  lemma ProgressStart(draws: seq<Draw>, id: int, rows: seq<string>)
    ensures Progress(draws, id, rows, 0, |draws|, id)
  {
    assert rows[..0] == [];
  }

  /** After the last line the record covers every persistable line. */
  lemma ProgressDone(draws: seq<Draw>, id: int, rows: seq<string>, n0: nat, c0: int)
    requires Progress(draws, id, rows, |rows|, n0, c0)
    ensures |draws| == n0 + |PersistableLines(rows)|
    ensures Recorded(draws, n0, PersistableLines(rows))
    ensures id == c0 + |PersistableLines(rows)|
  {
    assert rows[..|rows|] == rows;
  }

  /** Turn i of the upload loop: the upload has moved on by line i, which
      was stored exactly when it is persistable. */
  method IngestTurn(store: MemStorage, rows: seq<string>, i: nat, now: int, ghost d0: seq<Draw>, ghost c0: int)
    returns (stored: bool)
    requires store.Valid() && i < |rows|
    requires Progress(store.draws, store.currentDrawId, rows, i, |d0|, c0)
    requires store.draws[..|d0|] == d0
    modifies store
    ensures store.Valid()
    ensures stored == Persistable(rows[i])
    ensures store.currentDrawId == old(store.currentDrawId) + (if stored then 1 else 0)
    ensures Progress(store.draws, store.currentDrawId, rows, i + 1, |d0|, c0)
    ensures store.draws[..|d0|] == d0
    ensures store.predictionsList == old(store.predictionsList)
    ensures store.currentPredictionId == old(store.currentPredictionId)
    ensures store.currentModelId == old(store.currentModelId)
  {
    ghost var persisted := PersistableLines(rows[..i]);
    stored := IngestLine(store, rows[i], now);
    PersistedStep(rows, i, persisted, stored);
    RecordedStep(|d0|, persisted, rows[i], old(store.draws), store.draws, stored);
  }

  /** The upload loop over the data lines. It stores one draw per
      persistable line, in order, each built from that line's fields, and
      reports how many it stored. */
  method IngestRows(store: MemStorage, rows: seq<string>, now: int) returns (recordsProcessed: nat)
    requires store.Valid()
    modifies store
    ensures store.Valid()
    ensures recordsProcessed == |PersistableLines(rows)|
    ensures |store.draws| == |old(store.draws)| + recordsProcessed
    ensures store.draws[..|old(store.draws)|] == old(store.draws)
    ensures Recorded(store.draws, |old(store.draws)|, PersistableLines(rows))
    ensures store.currentDrawId == old(store.currentDrawId) + recordsProcessed
    ensures store.predictionsList == old(store.predictionsList)
    ensures store.currentPredictionId == old(store.currentPredictionId)
    ensures store.currentModelId == old(store.currentModelId)
  {
    ghost var d0, c0 := store.draws, store.currentDrawId;
    recordsProcessed := 0;
    var i := 0;
    ProgressStart(d0, c0, rows);
    while i < |rows|
      invariant 0 <= i <= |rows|
      invariant store.Valid()
      invariant Progress(store.draws, store.currentDrawId, rows, i, |d0|, c0)
      invariant store.draws[..|d0|] == d0
      invariant recordsProcessed == store.currentDrawId - c0
      invariant store.predictionsList == old(store.predictionsList)
      invariant store.currentPredictionId == old(store.currentPredictionId)
      invariant store.currentModelId == old(store.currentModelId)
    {
      var stored := IngestTurn(store, rows, i, now, d0, c0);
      recordsProcessed := recordsProcessed + if stored then 1 else 0;
      i := i + 1;
    }
    ProgressDone(store.draws, store.currentDrawId, rows, |d0|, c0);
  }

  /** The upload: the first non-blank line is the header; every later
      persistable line becomes one stored draw. */
  method Ingest(store: MemStorage, content: string, now: int) returns (recordsProcessed: nat)
    requires store.Valid()
    modifies store
    ensures store.Valid()
    ensures recordsProcessed == |PersistableLines(DataLines(content))|
    ensures |store.draws| == |old(store.draws)| + recordsProcessed
    ensures store.draws[..|old(store.draws)|] == old(store.draws)
    ensures Recorded(store.draws, |old(store.draws)|, PersistableLines(DataLines(content)))
    ensures store.currentDrawId == old(store.currentDrawId) + recordsProcessed
    ensures store.predictionsList == old(store.predictionsList)
    ensures store.currentPredictionId == old(store.currentPredictionId)
    ensures store.currentModelId == old(store.currentModelId)
  {
    var lines := Lines(content);
    var rows := if lines == [] then [] else lines[1..];
    recordsProcessed := IngestRows(store, rows, now);
  }
}
