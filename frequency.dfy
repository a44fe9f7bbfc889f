/** Frequency counting over drawn numbers, shared by the server's prediction
    generator and frequency analysis and by the client engine: the
    `Map<number, number>` of occurrence counts built with
    `map.set(n, (map.get(n) || 0) + 1)`, its entries sorted by descending
    count, the most and least frequent numbers taken from that list, and the
    five decile buckets. */
module Frequency {
  import opened Common

  /** One `[number, count]` entry of the frequency map. */
  datatype Entry = Entry(key: int, count: nat)

  function EntryKey(e: Entry): int { e.key }
  function EntryCount(e: Entry): int { e.count }

  function Keys(es: seq<Entry>): (ks: seq<int>)
    ensures |ks| == |es|
    ensures forall i :: 0 <= i < |es| ==> ks[i] == es[i].key
  {
    if es == [] then [] else [es[0].key] + Keys(es[1..])
  }

  predicate KeysDistinct(es: seq<Entry>) {
    forall i, j :: 0 <= i < j < |es| ==> es[i].key != es[j].key
  }

  /** `map.set(x, (map.get(x) || 0) + 1)` */
  function Bump(es: seq<Entry>, x: int): seq<Entry> {
    var old_count := match IndexOfId(es, EntryKey, x)
      case Some(i) => es[i].count
      case None => 0;
    MapSet(es, EntryKey, Entry(x, old_count + 1))
  }

  /** The frequency map after counting xs from left to right. */
  function Tally(xs: seq<int>): seq<Entry> {
    if xs == [] then [] else Bump(Tally(xs[..|xs| - 1]), xs[|xs| - 1])
  }

  lemma TallyAppend(ys: seq<int>, x: int)
    ensures Tally(ys + [x]) == Bump(Tally(ys), x)
  {
    assert (ys + [x])[..|ys|] == ys;
  }

  /** The position of the first occurrence of k in xs. */
  function FirstOcc(xs: seq<int>, k: int): (i: nat)
    requires k in xs
    ensures i < |xs| && xs[i] == k && k !in xs[..i]
  {
    if xs[0] == k then 0 else 1 + FirstOcc(xs[1..], k)
  }

  lemma {:induction false} FirstOccAppend(ys: seq<int>, x: int, k: int)
    requires k in ys
    ensures FirstOcc(ys + [x], k) == FirstOcc(ys, k)
  {
    if ys[0] != k {
      assert (ys + [x])[1..] == ys[1..] + [x];
      FirstOccAppend(ys[1..], x, k);
    }
  }

  /** The frequency map has exactly one entry per distinct value of xs. */
  lemma {:induction false} TallyKeys(xs: seq<int>)
    ensures KeysDistinct(Tally(xs))
    ensures forall x :: x in Keys(Tally(xs)) <==> x in xs
  {
    if xs != [] {
      var ys := xs[..|xs| - 1];
      var x := xs[|xs| - 1];
      assert xs == ys + [x];
      TallyKeys(ys);
      var es := Tally(ys);
      var r := Tally(xs);
      match IndexOfId(es, EntryKey, x)
      case Some(p) =>
        assert r == es[p := Entry(x, es[p].count + 1)];
        assert Keys(r) == Keys(es);
      case None =>
        assert r == es + [Entry(x, 1)];
        assert Keys(r) == Keys(es) + [x];
    }
  }

  /** Each entry holds the number of times its value occurs in xs. */
  lemma {:induction false} TallyCounts(xs: seq<int>)
    ensures forall i :: 0 <= i < |Tally(xs)| ==> Tally(xs)[i].count == multiset(xs)[Tally(xs)[i].key]
  {
    if xs != [] {
      var ys := xs[..|xs| - 1];
      var x := xs[|xs| - 1];
      assert xs == ys + [x];
      TallyCounts(ys);
      TallyKeys(ys);
      var es := Tally(ys);
      var r := Tally(xs);
      assert multiset(xs) == multiset(ys) + multiset{x};
      match IndexOfId(es, EntryKey, x)
      case Some(p) =>
        assert r == es[p := Entry(x, es[p].count + 1)];
        forall i | 0 <= i < |r| && i != p
          ensures r[i].count == multiset(xs)[r[i].key]
        {
          assert r[i] == es[i] && es[i].key != x;
        }
      case None =>
        assert r == es + [Entry(x, 1)];
        assert x !in ys by {
          assert x !in Keys(es);
        }
        forall i | 0 <= i < |es|
          ensures r[i].count == multiset(xs)[r[i].key]
        {
          assert r[i] == es[i] && es[i].key != x;
        }
    }
  }

  /** Counting x leaves the keys as they were when x is among them, and adds
      x at the end otherwise. */
  lemma BumpKeys(es: seq<Entry>, x: int)
    ensures Keys(Bump(es, x)) == if x in Keys(es) then Keys(es) else Keys(es) + [x]
  {
    match IndexOfId(es, EntryKey, x)
    case Some(p) =>
      assert Bump(es, x) == es[p := Entry(x, es[p].count + 1)];
      assert Keys(es)[p] == x;
      assert Keys(Bump(es, x)) == Keys(es);
    case None =>
      assert Bump(es, x) == es + [Entry(x, 1)];
      assert x !in Keys(es);
      assert Keys(Bump(es, x)) == Keys(es) + [x];
  }

  /** The values ks all occur in xs, in the order of their first occurrences. */
  predicate InFirstOccOrder(xs: seq<int>, ks: seq<int>) {
    && (forall i :: 0 <= i < |ks| ==> ks[i] in xs)
    && (forall i, j :: 0 <= i < j < |ks| ==> FirstOcc(xs, ks[i]) < FirstOcc(xs, ks[j]))
  }

  /** Appending a value to xs keeps the first occurrences of the values
      already there. */
  lemma OrderAppend(ys: seq<int>, x: int, ks: seq<int>)
    requires InFirstOccOrder(ys, ks)
    ensures InFirstOccOrder(ys + [x], ks)
  {
    forall i, j | 0 <= i < j < |ks|
      ensures ks[i] in ys + [x] && ks[j] in ys + [x]
      ensures FirstOcc(ys + [x], ks[i]) < FirstOcc(ys + [x], ks[j])
    {
      assert ks[i] in ys && ks[j] in ys;
      assert FirstOcc(ys, ks[i]) < FirstOcc(ys, ks[j]);
      FirstOccAppend(ys, x, ks[i]);
      FirstOccAppend(ys, x, ks[j]);
    }
  }

  /** A value seen for the first time goes after all the others. */
  lemma OrderNewKey(ys: seq<int>, x: int, ks: seq<int>)
    requires InFirstOccOrder(ys, ks)
    requires forall i :: 0 <= i < |ks| ==> ks[i] in ys
    requires x !in ys
    ensures InFirstOccOrder(ys + [x], ks + [x])
  {
    var xs := ys + [x];
    var r := ks + [x];
    OrderAppend(ys, x, ks);
    assert FirstOcc(xs, x) == |ys| by {
      assert xs[..|ys|] == ys;
    }
    forall i, j | 0 <= i < j < |r|
      ensures r[i] in xs && r[j] in xs && FirstOcc(xs, r[i]) < FirstOcc(xs, r[j])
    {
      assert r[i] == ks[i];
      FirstOccAppend(ys, x, ks[i]);
      if j < |ks| {
        assert r[j] == ks[j];
      }
    }
  }

  /** The entries come in the order in which their values first occur. */
  lemma {:induction false} TallyOrder(xs: seq<int>)
    ensures InFirstOccOrder(xs, Keys(Tally(xs)))
  {
    if xs != [] {
      var ys := xs[..|xs| - 1];
      var x := xs[|xs| - 1];
      assert xs == ys + [x];
      TallyOrder(ys);
      TallyKeys(ys);
      var ks := Keys(Tally(ys));
      TallyAppend(ys, x);
      BumpKeys(Tally(ys), x);
      OrderAppend(ys, x, ks);
      if x !in ks {
        OrderNewKey(ys, x, ks);
      }
    }
  }

  /** The entry counting y, for a value y of xs. */
  lemma EntryOf(xs: seq<int>, y: int) returns (j: nat)
    requires y in xs
    ensures j < |Tally(xs)| && Tally(xs)[j].key == y && Tally(xs)[j].count == multiset(xs)[y]
  {
    TallyKeys(xs);
    TallyCounts(xs);
    assert y in Keys(Tally(xs));
    j :| 0 <= j < |Tally(xs)| && Keys(Tally(xs))[j] == y;
  }

  /** What entry i of the frequency map holds. */
  lemma EntryAt(xs: seq<int>, i: nat)
    requires i < |Tally(xs)|
    ensures Tally(xs)[i].key in xs && Tally(xs)[i].count == multiset(xs)[Tally(xs)[i].key]
  {
    TallyKeys(xs);
    TallyCounts(xs);
    assert Keys(Tally(xs))[i] == Tally(xs)[i].key;
  }

  /** An earlier entry's value occurs first in xs. */
  lemma EntriesOrdered(xs: seq<int>, i: nat, j: nat)
    requires i < j < |Tally(xs)|
    ensures Tally(xs)[i].key in xs && Tally(xs)[j].key in xs
    ensures FirstOcc(xs, Tally(xs)[i].key) < FirstOcc(xs, Tally(xs)[j].key)
  {
    TallyOrder(xs);
    assert Keys(Tally(xs))[i] == Tally(xs)[i].key && Keys(Tally(xs))[j] == Tally(xs)[j].key;
  }

  /** `sortedFrequency[0]?.[0] || 23`: the number at the head of the list
      sorted by descending count, with 23 for an empty map and for a stored 0. */
  function MostFrequent(es: seq<Entry>): (n: int)
    ensures n != 0
  {
    var sorted := SortDescBy(es, EntryCount);
    if sorted == [] || sorted[0].key == 0 then 23 else sorted[0].key
  }

  /** `sortedFrequency[sortedFrequency.length - 1]?.[0] || 11`: the number at
      the tail of the sorted list, with 11 for an empty map and for a stored 0. */
  function LeastFrequent(es: seq<Entry>): (n: int)
    ensures n != 0
  {
    var sorted := SortDescBy(es, EntryCount);
    if sorted == [] || sorted[|sorted| - 1].key == 0 then 11 else sorted[|sorted| - 1].key
  }

  /** The entry with the highest count compares with any other value of xs:
      it occurs at least as often, and no later when as often. */
  lemma MostFrequentAgainst(xs: seq<int>, i: nat, y: int)
    requires xs != [] && i == FirstMaxIndex(Tally(xs), EntryCount) && y in xs
    ensures Tally(xs)[i].key in xs
    ensures multiset(xs)[y] <= multiset(xs)[Tally(xs)[i].key]
    ensures multiset(xs)[y] == multiset(xs)[Tally(xs)[i].key] ==> FirstOcc(xs, Tally(xs)[i].key) <= FirstOcc(xs, y)
  {
    var es := Tally(xs);
    EntryAt(xs, i);
    var j := EntryOf(xs, y);
    assert es[j].count <= es[i].count by {
      assert EntryCount(es[j]) <= EntryCount(es[i]);
    }
    assert j < i ==> es[j].count < es[i].count by {
      if j < i {
        assert EntryCount(es[j]) < EntryCount(es[i]);
      }
    }
    if es[j].count == es[i].count && j > i {
      EntriesOrdered(xs, i, j);
    }
  }

  /** For a non-empty count, the reported most frequent number is a value w
      of xs (or the fallback 23 when w is 0) that occurs at least as often as
      every other value, and among values occurring as often, w occurs first. */
  lemma MostFrequentSpec(xs: seq<int>)
    requires xs != []
    ensures exists w ::
      && w in xs
      && MostFrequent(Tally(xs)) == (if w == 0 then 23 else w)
      && (forall y :: y in xs ==> multiset(xs)[y] <= multiset(xs)[w])
      && (forall y :: y in xs && multiset(xs)[y] == multiset(xs)[w] ==> FirstOcc(xs, w) <= FirstOcc(xs, y))
  {
    var es := Tally(xs);
    var j0 := EntryOf(xs, xs[0]);
    var i := FirstMaxIndex(es, EntryCount);
    SortDescHead(es, EntryCount);
    EntryAt(xs, i);
    var w := es[i].key;
    assert MostFrequent(es) == (if w == 0 then 23 else w);
    forall y | y in xs
      ensures multiset(xs)[y] <= multiset(xs)[w]
      ensures multiset(xs)[y] == multiset(xs)[w] ==> FirstOcc(xs, w) <= FirstOcc(xs, y)
    {
      MostFrequentAgainst(xs, i, y);
    }
  }

  /** The entry with the lowest count, last among equals, compares with any
      other value of xs: it occurs at most as often, and no earlier when as
      often. */
  lemma LeastFrequentAgainst(xs: seq<int>, i: nat, y: int)
    requires xs != [] && i == LastMinIndex(Tally(xs), EntryCount) && y in xs
    ensures Tally(xs)[i].key in xs
    ensures multiset(xs)[Tally(xs)[i].key] <= multiset(xs)[y]
    ensures multiset(xs)[y] == multiset(xs)[Tally(xs)[i].key] ==> FirstOcc(xs, y) <= FirstOcc(xs, Tally(xs)[i].key)
  {
    var es := Tally(xs);
    EntryAt(xs, i);
    var j := EntryOf(xs, y);
    assert es[i].count <= es[j].count by {
      assert EntryCount(es[i]) <= EntryCount(es[j]);
    }
    assert j > i ==> es[i].count < es[j].count by {
      if j > i {
        assert EntryCount(es[i]) < EntryCount(es[j]);
      }
    }
    if es[j].count == es[i].count && j < i {
      EntriesOrdered(xs, j, i);
    }
  }

  /** For a non-empty count, the reported least frequent number is a value w
      of xs (or the fallback 11 when w is 0) that occurs at most as often as
      every other value, and among values occurring as rarely, w occurs last. */
  lemma LeastFrequentSpec(xs: seq<int>)
    requires xs != []
    ensures exists w ::
      && w in xs
      && LeastFrequent(Tally(xs)) == (if w == 0 then 11 else w)
      && (forall y :: y in xs ==> multiset(xs)[w] <= multiset(xs)[y])
      && (forall y :: y in xs && multiset(xs)[y] == multiset(xs)[w] ==> FirstOcc(xs, y) <= FirstOcc(xs, w))
  {
    var es := Tally(xs);
    var j0 := EntryOf(xs, xs[0]);
    var i := LastMinIndex(es, EntryCount);
    SortDescLast(es, EntryCount);
    EntryAt(xs, i);
    var w := es[i].key;
    assert LeastFrequent(es) == (if w == 0 then 11 else w);
    forall y | y in xs
      ensures multiset(xs)[w] <= multiset(xs)[y]
      ensures multiset(xs)[y] == multiset(xs)[w] ==> FirstOcc(xs, y) <= FirstOcc(xs, w)
    {
      LeastFrequentAgainst(xs, i, y);
    }
  }

  // ---------------------------------------------------------------------
  // Flattening the main numbers of a list of draws

  /** The numbers of every group, group after group. */
  function Flatten(groups: seq<seq<int>>): seq<int> {
    if groups == [] then [] else Flatten(groups[..|groups| - 1]) + groups[|groups| - 1]
  }

  lemma FlattenAppend(groups: seq<seq<int>>, g: seq<int>)
    ensures Flatten(groups + [g]) == Flatten(groups) + g
  {
    assert (groups + [g])[..|groups|] == groups;
  }

  /** `map.set(x, (map.get(x) || 0) + 1)` on the map of the numbers seen so far. */
  method CountOne(es: seq<Entry>, ghost seen: seq<int>, x: int) returns (r: seq<Entry>)
    requires es == Tally(seen)
    ensures r == Tally(seen + [x])
  {
    TallyAppend(seen, x);
    r := Bump(es, x);
  }

  /** The inner `forEach`: one draw's numbers added to the frequency map. */
  method CountGroup(es: seq<Entry>, ghost seen: seq<int>, g: seq<int>) returns (r: seq<Entry>)
    requires es == Tally(seen)
    ensures r == Tally(seen + g)
  {
    r := es;
    var j := 0;
    assert seen + g[..0] == seen;
    while j < |g|
      invariant 0 <= j <= |g|
      invariant r == Tally(seen + g[..j])
    {
      r := CountOne(r, seen + g[..j], g[j]);
      SnocSlice(seen, g, j);
      j := j + 1;
    }
    assert g[..j] == g;
  }

  /** The nested `forEach` that fills the frequency map from the groups' numbers. */
  method CountFrequencies(groups: seq<seq<int>>) returns (es: seq<Entry>)
    ensures es == Tally(Flatten(groups))
  {
    es := [];
    var i := 0;
    while i < |groups|
      invariant 0 <= i <= |groups|
      invariant es == Tally(Flatten(groups[..i]))
    {
      assert groups[..i + 1] == groups[..i] + [groups[i]];
      FlattenAppend(groups[..i], groups[i]);
      es := CountGroup(es, Flatten(groups[..i]), groups[i]);
      i := i + 1;
    }
    assert groups[..i] == groups;
  }

  // ---------------------------------------------------------------------
  // Decile buckets

  /** `numbers.filter(n => n >= lo && n <= hi).length` */
  function InRange(xs: seq<int>, lo: int, hi: int): (c: nat)
    ensures c <= |xs|
  {
    if xs == [] then 0
    else InRange(xs[..|xs| - 1], lo, hi) + (if lo <= xs[|xs| - 1] <= hi then 1 else 0)
  }

  /** `draws.reduce((count, draw) => count + <in-range count of the draw>, 0)` */
  function BucketCount(groups: seq<seq<int>>, lo: int, hi: int): int {
    if groups == [] then 0
    else BucketCount(groups[..|groups| - 1], lo, hi) + InRange(groups[|groups| - 1], lo, hi)
  }

  /** The five decile counts 1–10, 11–20, 21–30, 31–40, 41–50. */
  function FrequencyData(groups: seq<seq<int>>): (data: seq<int>)
    ensures |data| == 5
  {
    [BucketCount(groups, 1, 10), BucketCount(groups, 11, 20), BucketCount(groups, 21, 30),
     BucketCount(groups, 31, 40), BucketCount(groups, 41, 50)]
  }

  lemma {:induction false} InRangeAppend(xs: seq<int>, ys: seq<int>, lo: int, hi: int)
    ensures InRange(xs + ys, lo, hi) == InRange(xs, lo, hi) + InRange(ys, lo, hi)
    decreases |ys|
  {
    if ys == [] {
      assert xs + ys == xs;
    } else {
      var ys' := ys[..|ys| - 1];
      assert (xs + ys)[..|xs + ys| - 1] == xs + ys';
      InRangeAppend(xs, ys', lo, hi);
    }
  }

  /** Counting per draw and adding up is counting over all numbers at once. */
  lemma {:induction false} BucketCountFlat(groups: seq<seq<int>>, lo: int, hi: int)
    ensures BucketCount(groups, lo, hi) == InRange(Flatten(groups), lo, hi)
  {
    if groups != [] {
      var init := groups[..|groups| - 1];
      BucketCountFlat(init, lo, hi);
      InRangeAppend(Flatten(init), groups[|groups| - 1], lo, hi);
    }
  }

  /** Adjacent ranges count disjoint numbers. */
  lemma {:induction false} InRangeSplit(xs: seq<int>, a: int, b: int, c: int)
    requires a <= b < c
    ensures InRange(xs, a, c) == InRange(xs, a, b) + InRange(xs, b + 1, c)
  {
    if xs != [] {
      InRangeSplit(xs[..|xs| - 1], a, b, c);
    }
  }

  /** The five buckets together count every occurrence of a number in 1–50. */
  lemma FrequencyDataSum(groups: seq<seq<int>>)
    ensures Sum(FrequencyData(groups)) == InRange(Flatten(groups), 1, 50)
  {
    var xs := Flatten(groups);
    BucketCountFlat(groups, 1, 10);
    BucketCountFlat(groups, 11, 20);
    BucketCountFlat(groups, 21, 30);
    BucketCountFlat(groups, 31, 40);
    BucketCountFlat(groups, 41, 50);
    InRangeSplit(xs, 1, 10, 50);
    InRangeSplit(xs, 11, 20, 50);
    InRangeSplit(xs, 21, 30, 50);
    InRangeSplit(xs, 31, 40, 50);
    var d := FrequencyData(groups);
    assert Sum(d[..1]) == d[0] by {
      assert d[..1][..0] == [];
    }
    assert Sum(d[..2]) == d[0] + d[1] by {
      assert d[..2][..1] == d[..1];
    }
    assert Sum(d[..3]) == d[0] + d[1] + d[2] by {
      assert d[..3][..2] == d[..2];
    }
    assert Sum(d[..4]) == d[0] + d[1] + d[2] + d[3] by {
      assert d[..4][..3] == d[..3];
    }
    assert Sum(d) == d[0] + d[1] + d[2] + d[3] + d[4] by {
      assert d[..4] == d[..|d| - 1];
    }
  }
}
