/** Shared vocabulary: optional values, facts about integer lists, the two
    sorts the JavaScript code relies on (numeric ascending and a stable
    descending sort by a key), and the "draw random values until enough
    distinct ones are collected" loop that appears four times in the code. */
module Common {

  datatype Option<+T> = None | Some(value: T)

  datatype Result<+T, +E> = Success(value: T) | Failure(error: E)

  predicate Sorted(s: seq<int>) {
    forall i, j :: 0 <= i < j < |s| ==> s[i] <= s[j]
  }

  predicate Distinct<T(==)>(s: seq<T>) {
    forall i, j :: 0 <= i < j < |s| ==> s[i] != s[j]
  }

  predicate AllIn(s: seq<int>, lo: int, hi: int) {
    forall i :: 0 <= i < |s| ==> lo <= s[i] <= hi
  }

  function Elems<T>(s: seq<T>): set<T> {
    set x | x in s
  }

  /** The integers lo..hi: the outcomes of `Math.floor(Math.random() * n) + lo`
      with n == hi - lo + 1. */
  function Range(lo: int, hi: int): (r: set<int>)
    ensures forall x :: x in r <==> lo <= x <= hi
    ensures |r| == if lo <= hi then hi - lo + 1 else 0
    decreases hi - lo
  {
    if lo > hi then {} else {lo} + Range(lo + 1, hi)
  }

  /** JavaScript's `n % 2 === 1`: the remainder truncates toward zero, so a
      negative odd number gives -1 and does not count as odd. */
  predicate IsOddJs(n: int) {
    n > 0 && n % 2 == 1
  }

  /** `Math.min(a, b)` on reals. */
  function Min(a: real, b: real): (m: real)
    ensures m <= a && m <= b && (m == a || m == b)
  {
    if a <= b then a else b
  }

  /** `Math.max(a, b)` on reals. */
  function Max(a: real, b: real): (m: real)
    ensures m >= a && m >= b && (m == a || m == b)
  {
    if a >= b then a else b
  }

  /** `Math.round(x)`: the nearest integer, halves rounded up. */
  function RoundJs(x: real): (r: int)
    ensures r as real - 0.5 <= x < r as real + 0.5
  {
    (x + 0.5).Floor
  }

  /** `s.filter(p)`, written from the back so that filtering a list grown by
      one element is filtering the old list and then that element. */
  function Filter<T(!new)>(s: seq<T>, p: T -> bool): (r: seq<T>)
    ensures |r| <= |s|
    ensures forall x {:trigger x in r} :: x in r <==> x in s && p(x)
  {
    if s == [] then []
    else
      var init := s[..|s| - 1];
      assert s == init + [s[|s| - 1]];
      Filter(init, p) + (if p(s[|s| - 1]) then [s[|s| - 1]] else [])
  }

  /** Filtering a list grown by one element. */
  lemma FilterSnoc<T(!new)>(s: seq<T>, x: T, p: T -> bool)
    ensures Filter(s + [x], p) == Filter(s, p) + (if p(x) then [x] else [])
  {
    assert (s + [x])[..|s|] == s;
  }

  /** The key strictly increases along the list. */
  predicate IncreasingBy<T>(s: seq<T>, id: T -> int) {
    forall i, j :: 0 <= i < j < |s| ==> id(s[i]) < id(s[j])
  }

  /** Filtering keeps an increasing key increasing. */
  lemma {:induction false} FilterIncreasing<T(!new)>(s: seq<T>, p: T -> bool, id: T -> int)
    requires IncreasingBy(s, id)
    ensures IncreasingBy(Filter(s, p), id)
  {
    if s != [] {
      var init, last := s[..|s| - 1], s[|s| - 1];
      assert s == init + [last];
      FilterSnoc(init, last, p);
      FilterIncreasing(init, p, id);
      var f := Filter(init, p);
      var r := Filter(s, p);
      assert r == f + (if p(last) then [last] else []);
      forall i, j | 0 <= i < j < |r|
        ensures id(r[i]) < id(r[j])
      {
        assert r[i] == f[i] && f[i] in f;
        if j == |f| {
          assert r[j] == last && f[i] in init;
          var k :| 0 <= k < |init| && init[k] == f[i];
          assert s[k] == f[i];
        } else {
          assert r[j] == f[j];
        }
      }
    }
  }

  /** Filtering two lists one after the other filters each. */
  lemma {:induction false} FilterAppend<T(!new)>(xs: seq<T>, ys: seq<T>, p: T -> bool)
    ensures Filter(xs + ys, p) == Filter(xs, p) + Filter(ys, p)
    decreases |ys|
  {
    if ys == [] {
      assert xs + ys == xs;
    } else {
      var init := ys[..|ys| - 1];
      var y := ys[|ys| - 1];
      assert ys == init + [y];
      assert xs + ys == (xs + init) + [y];
      FilterAppend(xs, init, p);
      FilterSnoc(xs + init, y, p);
      FilterSnoc(init, y, p);
    }
  }

  /** A JavaScript `Map` is kept as the sequence of its values in iteration
      order (the order in which keys were first set), each value carrying its
      own key. `map.get(k)`: the position of the value stored under key k. */
  function IndexOfId<T>(s: seq<T>, id: T -> int, k: int): (r: Option<nat>)
    ensures r.Some? ==> r.value < |s| && id(s[r.value]) == k
    ensures r.None? <==> forall j :: 0 <= j < |s| ==> id(s[j]) != k
  {
    if s == [] then None
    else if id(s[0]) == k then Some(0)
    else match IndexOfId(s[1..], id, k)
      case None => None
      case Some(i) => Some(i + 1)
  }

  /** `map.set(id(v), v)`: replaces the value stored under the same key in
      place, or appends a new key at the end of the iteration order. */
  function MapSet<T>(s: seq<T>, id: T -> int, v: T): (r: seq<T>)
    ensures IndexOfId(s, id, id(v)).Some? ==> r == s[IndexOfId(s, id, id(v)).value := v]
    ensures IndexOfId(s, id, id(v)).None? ==> r == s + [v]
  {
    match IndexOfId(s, id, id(v))
    case Some(k) => s[k := v]
    case None => s + [v]
  }

  /** Extending a prefix of g by one element, after a fixed front part a. */
  lemma SnocSlice<T>(a: seq<T>, g: seq<T>, j: nat)
    requires j < |g|
    ensures a + g[..j + 1] == (a + g[..j]) + [g[j]]
  {
    assert g[..j + 1] == g[..j] + [g[j]];
  }

  function Sum(s: seq<int>): int {
    if s == [] then 0 else Sum(s[..|s| - 1]) + s[|s| - 1]
  }

  /** `num <= 25` */
  predicate IsLow(n: int) {
    n <= 25
  }

  /** How many elements of xs satisfy p. */
  function CountWhere(xs: seq<int>, p: int -> bool): (c: nat)
    ensures c <= |xs|
  {
    if xs == [] then 0
    else CountWhere(xs[..|xs| - 1], p) + (if p(xs[|xs| - 1]) then 1 else 0)
  }

  /** Counting over one more element adds one exactly when it qualifies. */
  lemma CountWhereSnoc(xs: seq<int>, x: int, p: int -> bool)
    ensures CountWhere(xs + [x], p) == CountWhere(xs, p) + (if p(x) then 1 else 0)
  {
    assert (xs + [x])[..|xs|] == xs;
  }

  /** Summing two lists one after the other adds their sums. */
  lemma {:induction false} SumAppend(xs: seq<int>, ys: seq<int>)
    ensures Sum(xs + ys) == Sum(xs) + Sum(ys)
    decreases |ys|
  {
    if ys == [] {
      assert xs + ys == xs;
    } else {
      var ys' := ys[..|ys| - 1];
      assert (xs + ys)[..|xs + ys| - 1] == xs + ys';
      SumAppend(xs, ys');
    }
  }

  // ---------------------------------------------------------------------
  // Numeric ascending sort: `xs.sort((a, b) => a - b)`

  /** Places x in front of the first element not smaller than it. */
  function Insert(x: int, s: seq<int>): (r: seq<int>)
    ensures multiset(r) == multiset(s) + multiset{x}
    ensures |r| == |s| + 1 && (r[0] == x || (s != [] && r[0] == s[0]))
  {
    if s == [] || x <= s[0] then [x] + s
    else
      assert s == [s[0]] + s[1..];
      [s[0]] + Insert(x, s[1..])
  }

  lemma {:induction false} InsertSorted(x: int, s: seq<int>)
    requires Sorted(s)
    ensures Sorted(Insert(x, s))
  {
    if s != [] && x > s[0] {
      var t := Insert(x, s[1..]);
      InsertSorted(x, s[1..]);
      assert Insert(x, s) == [s[0]] + t;
      assert s[0] <= t[0];
      assert forall k :: 0 <= k < |t| ==> s[0] <= t[k];
    }
  }

  function SortAsc(s: seq<int>): (r: seq<int>)
    ensures |r| == |s| && Sorted(r)
    ensures multiset(r) == multiset(s)
  {
    if s == [] then []
    else
      assert s == [s[0]] + s[1..];
      var t := SortAsc(s[1..]);
      InsertSorted(s[0], t);
      Insert(s[0], t)
  }

  lemma {:induction false} DistinctOccursOnce<T>(s: seq<T>, v: T)
    requires Distinct(s)
    ensures multiset(s)[v] <= 1
  {
    if s != [] {
      assert s == [s[0]] + s[1..];
      DistinctOccursOnce(s[1..], v);
      if v == s[0] {
        assert v !in s[1..];
      }
    }
  }

  lemma TwiceOccurs<T>(s: seq<T>, i: nat, j: nat)
    requires i < j < |s| && s[i] == s[j]
    ensures multiset(s)[s[i]] >= 2
  {
    assert s == s[..j] + s[j..];
    assert s[i] in s[..j];
    assert s[j..][0] == s[j];
  }

  /** A permutation of a list without repetitions has none either. */
  lemma PermutationKeepsDistinct<T>(a: seq<T>, b: seq<T>)
    requires multiset(a) == multiset(b) && Distinct(a)
    ensures Distinct(b)
  {
    forall i, j | 0 <= i < j < |b|
      ensures b[i] != b[j]
    {
      if b[i] == b[j] {
        TwiceOccurs(b, i, j);
        DistinctOccursOnce(a, b[i]);
        assert false;
      }
    }
  }

  /** A permutation keeps every element inside the same bounds. */
  lemma PermutationKeepsBounds(a: seq<int>, b: seq<int>, lo: int, hi: int)
    requires multiset(a) == multiset(b) && AllIn(a, lo, hi)
    ensures AllIn(b, lo, hi)
  {
    forall i | 0 <= i < |b|
      ensures lo <= b[i] <= hi
    {
      assert b[i] in multiset(b);
      assert b[i] in a;
    }
  }

  // ---------------------------------------------------------------------
  // Stable descending sort by an integer key:
  // `xs.sort((a, b) => key(b) - key(a))`. ECMAScript 2019 requires
  // Array.prototype.sort to be stable, so equal keys keep their input order.

  predicate SortedDescBy<T>(s: seq<T>, key: T -> int) {
    forall i, j :: 0 <= i < j < |s| ==> key(s[i]) >= key(s[j])
  }

  /** Places e in front of the first element whose key is not larger than
      e's: e came earlier in the input than every element of s. */
  function InsertDescBy<T>(e: T, s: seq<T>, key: T -> int): (r: seq<T>)
    ensures multiset(r) == multiset(s) + multiset{e}
    ensures |r| == |s| + 1 && (r[0] == e || (s != [] && r[0] == s[0]))
  {
    if s == [] || key(s[0]) <= key(e) then [e] + s
    else
      assert s == [s[0]] + s[1..];
      [s[0]] + InsertDescBy(e, s[1..], key)
  }

  lemma {:induction false} InsertDescSorted<T>(e: T, s: seq<T>, key: T -> int)
    requires SortedDescBy(s, key)
    ensures SortedDescBy(InsertDescBy(e, s, key), key)
  {
    if s != [] && key(s[0]) > key(e) {
      var t := InsertDescBy(e, s[1..], key);
      InsertDescSorted(e, s[1..], key);
      assert InsertDescBy(e, s, key) == [s[0]] + t;
      assert key(t[0]) <= key(s[0]);
      assert forall k :: 0 <= k < |t| ==> key(t[k]) <= key(s[0]);
    }
  }

  function SortDescBy<T>(s: seq<T>, key: T -> int): (r: seq<T>)
    ensures |r| == |s| && SortedDescBy(r, key)
    ensures multiset(r) == multiset(s)
  {
    if s == [] then []
    else
      assert s == [s[0]] + s[1..];
      var t := SortDescBy(s[1..], key);
      InsertDescSorted(s[0], t, key);
      InsertDescBy(s[0], t, key)
  }

  /** Among elements with equal keys, the tie-break key increases. */
  predicate StableBy<T>(s: seq<T>, key: T -> int, id: T -> int) {
    forall i, j :: 0 <= i < j < |s| && key(s[i]) == key(s[j]) ==> id(s[i]) < id(s[j])
  }

  lemma ConsStable<T>(x: T, u: seq<T>, key: T -> int, id: T -> int)
    requires StableBy(u, key, id)
    requires forall y :: y in u && key(y) == key(x) ==> id(x) < id(y)
    ensures StableBy([x] + u, key, id)
  {
    var r := [x] + u;
    forall i, j | 0 <= i < j < |r| && key(r[i]) == key(r[j])
      ensures id(r[i]) < id(r[j])
    {
      assert r[j] == u[j - 1] && r[j] in u;
      if i > 0 {
        assert r[i] == u[i - 1];
      }
    }
  }

  lemma {:induction false} InsertDescStable<T>(e: T, s: seq<T>, key: T -> int, id: T -> int)
    requires SortedDescBy(s, key) && StableBy(s, key, id)
    requires forall x :: x in s ==> id(e) < id(x)
    ensures StableBy(InsertDescBy(e, s, key), key, id)
  {
    if s == [] || key(s[0]) <= key(e) {
      ConsStable(e, s, key, id);
    } else {
      var u := InsertDescBy(e, s[1..], key);
      InsertDescStable(e, s[1..], key, id);
      forall y | y in u && key(y) == key(s[0])
        ensures id(s[0]) < id(y)
      {
        assert y in multiset(s[1..]) + multiset{e};
        if y != e {
          var m :| 0 <= m < |s[1..]| && s[1..][m] == y;
          assert s[m + 1] == y;
        }
      }
      ConsStable(s[0], u, key, id);
    }
  }

  /** The insertion sort is stable: elements with equal keys keep their
      input order, so a tie-break key that increases along the input
      increases along every run of equal keys. */
  lemma {:induction false} SortDescStable<T>(s: seq<T>, key: T -> int, id: T -> int)
    requires forall i, j :: 0 <= i < j < |s| ==> id(s[i]) < id(s[j])
    ensures StableBy(SortDescBy(s, key), key, id)
  {
    if s != [] {
      var t := SortDescBy(s[1..], key);
      SortDescStable(s[1..], key, id);
      forall x | x in t
        ensures id(s[0]) < id(x)
      {
        assert x in multiset(t);
        assert x in s[1..];
      }
      InsertDescStable(s[0], t, key, id);
    }
  }

  lemma SortedByHead<T>(a: seq<T>, b: seq<T>, key: T -> int, id: T -> int)
    requires a != [] && multiset(a) == multiset(b)
    requires SortedDescBy(a, key) && StableBy(a, key, id)
    requires SortedDescBy(b, key) && StableBy(b, key, id)
    ensures b != [] && id(a[0]) == id(b[0])
  {
    assert a[0] in multiset(b) && b[0] in multiset(a);
    var i :| 0 <= i < |b| && b[i] == a[0];
    var j :| 0 <= j < |a| && a[j] == b[0];
    assert key(b[0]) >= key(a[0]) && key(a[0]) >= key(b[0]);
  }

  /** A list sorted by descending key, ties by ascending tie-break key, is
      determined by its elements when the tie-break key tells them apart. */
  lemma {:induction false} SortedByUnique<T>(a: seq<T>, b: seq<T>, key: T -> int, id: T -> int)
    requires multiset(a) == multiset(b)
    requires SortedDescBy(a, key) && StableBy(a, key, id)
    requires SortedDescBy(b, key) && StableBy(b, key, id)
    requires forall x, y :: x in a && y in a && id(x) == id(y) ==> x == y
    ensures a == b
    decreases |a|
  {
    if a != [] {
      SortedByHead(a, b, key, id);
      assert b[0] in multiset(a);
      assert a[0] == b[0];
      TailMultiset(a, b);
      SortedByUnique(a[1..], b[1..], key, id);
    } else {
      assert |b| == |multiset(b)| == 0;
    }
  }

  /** The index of the first element with the largest key. */
  function FirstMaxIndex<T>(s: seq<T>, key: T -> int): (i: nat)
    requires |s| > 0
    ensures i < |s|
    ensures forall j :: 0 <= j < |s| ==> key(s[j]) <= key(s[i])
    ensures forall j :: 0 <= j < i ==> key(s[j]) < key(s[i])
  {
    if |s| == 1 then 0
    else
      var k := FirstMaxIndex(s[1..], key);
      if key(s[0]) >= key(s[k + 1]) then 0 else k + 1
  }

  /** The index of the last element with the smallest key. */
  function LastMinIndex<T>(s: seq<T>, key: T -> int): (i: nat)
    requires |s| > 0
    ensures i < |s|
    ensures forall j :: 0 <= j < |s| ==> key(s[i]) <= key(s[j])
    ensures forall j :: i < j < |s| ==> key(s[i]) < key(s[j])
  {
    if |s| == 1 then 0
    else
      var k := LastMinIndex(s[1..], key);
      if key(s[k + 1]) > key(s[0]) then 0 else k + 1
  }

  /** Stability at the front: the head of the sorted list is the first
      element of the input with the largest key. */
  lemma {:induction false} SortDescHead<T>(s: seq<T>, key: T -> int)
    requires |s| > 0
    ensures |SortDescBy(s, key)| == |s|
    ensures SortDescBy(s, key)[0] == s[FirstMaxIndex(s, key)]
  {
    var r := SortDescBy(s, key);
    if |s| > 1 {
      SortDescHead(s[1..], key);
    }
  }

  lemma {:induction false} InsertDescLast<T>(e: T, s: seq<T>, key: T -> int)
    requires SortedDescBy(s, key)
    ensures var r := InsertDescBy(e, s, key);
      |r| == |s| + 1 &&
      r[|r| - 1] == (if s == [] || key(s[|s| - 1]) <= key(e) then (if s == [] then e else s[|s| - 1]) else e)
  {
    var r := InsertDescBy(e, s, key);
    if s != [] && key(s[0]) > key(e) {
      InsertDescLast(e, s[1..], key);
    }
  }

  /** Stability at the back: the tail of the sorted list is the last element
      of the input with the smallest key. */
  lemma {:induction false} SortDescLast<T>(s: seq<T>, key: T -> int)
    requires |s| > 0
    ensures |SortDescBy(s, key)| == |s|
    ensures SortDescBy(s, key)[|s| - 1] == s[LastMinIndex(s, key)]
  {
    var r := SortDescBy(s, key);
    if |s| > 1 {
      var t := SortDescBy(s[1..], key);
      SortDescLast(s[1..], key);
      InsertDescLast(s[0], t, key);
    }
  }

  // ---------------------------------------------------------------------
  // The rejection loop
  //   while (list.length < target) {
  //     const x = Math.floor(Math.random() * n) + lo;
  //     if (!used.has(x)) { list.push(x); used.add(x); }
  //   }
  // A draw that hits a value already present changes nothing, so the model
  // lets each iteration choose among the values that are still free: the
  // outcomes are exactly those of the terminating runs of the source loop.

  lemma {:induction false} DistinctElems<T>(s: seq<T>)
    requires Distinct(s)
    ensures |Elems(s)| == |s|
  {
    if s != [] {
      var t := s[..|s| - 1];
      DistinctElems(t);
      assert s == t + [s[|s| - 1]];
      assert Elems(s) == Elems(t) + {s[|s| - 1]};
      assert s[|s| - 1] !in t;
    }
  }

  lemma {:induction false} ElemsCard<T>(s: seq<T>)
    ensures |Elems(s)| <= |s|
  {
    if s != [] {
      var t := s[..|s| - 1];
      ElemsCard(t);
      assert s == t + [s[|s| - 1]];
      assert Elems(s) == Elems(t) + {s[|s| - 1]};
    }
  }

  /** A list of values in lo..hi leaves at least (hi - lo + 1) - |s| values
      of that range unused. */
  lemma FreeValues(s: seq<int>, lo: int, hi: int)
    requires AllIn(s, lo, hi) && lo <= hi
    ensures |Range(lo, hi) - Elems(s)| >= hi - lo + 1 - |s|
  {
    var a := Range(lo, hi);
    var e := Elems(s);
    ElemsCard(s);
    assert e <= a;
    var d := a - e;
    assert a == d + e;
    assert d * e == {};
    assert |a| == |d| + |e|;
  }

  lemma {:induction false} PickOutside<T>(a: set<T>, b: set<T>) returns (w: T)
    requires b <= a && |b| < |a|
    ensures w in a && w !in b
  {
    var d := a - b;
    assert a == d + b;
    assert d * b == {};
    assert |a| == |d| + |b|;
    w :| w in d;
  }

  /** Appends target - |start| values from pool that are neither in start nor
      repeated. The source loop only terminates when enough such values exist,
      which is what the precondition states. */
  method FillDistinct(start: seq<int>, pool: set<int>, target: nat) returns (r: seq<int>)
    requires |start| <= target
    requires target - |start| <= |pool - Elems(start)|
    ensures |r| == target
    ensures r[..|start|] == start
    ensures Distinct(r[|start|..])
    ensures forall i :: |start| <= i < |r| ==> r[i] in pool && r[i] !in start
  {
    r := start;
    var used := Elems(start);
    while |r| < target
      invariant |start| <= |r| <= target
      invariant r[..|start|] == start
      invariant Distinct(r[|start|..])
      invariant forall i :: |start| <= i < |r| ==> r[i] in pool && r[i] !in start
      invariant used == Elems(r)
      decreases target - |r|
    {
      ghost var added := r[|start|..];
      assert r == start + added;
      DistinctElems(added);
      assert Elems(added) <= pool - Elems(start);
      ghost var w := PickOutside(pool - Elems(start), Elems(added));
      assert w in pool && w !in used;
      var x :| x in pool && x !in used;
      r := r + [x];
      assert r[|start|..] == added + [x];
      used := used + {x};
    }
  }

  /** k distinct values from pool, in ascending order. */
  predicate Chosen(s: seq<int>, k: nat, pool: set<int>) {
    && |s| == k && Sorted(s) && Distinct(s)
    && forall i :: 0 <= i < |s| ==> s[i] in pool
  }

  lemma ChosenInRange(s: seq<int>, k: nat, lo: int, hi: int)
    requires Chosen(s, k, Range(lo, hi))
    ensures AllIn(s, lo, hi)
  {
  }

  /** Sorting the collected values keeps them distinct and inside the pool. */
  lemma SortKeepsChoice(s: seq<int>, pool: set<int>)
    requires Distinct(s) && forall i :: 0 <= i < |s| ==> s[i] in pool
    ensures Chosen(SortAsc(s), |s|, pool)
  {
    var r := SortAsc(s);
    assert |r| == |multiset(r)| == |multiset(s)| == |s|;
    PermutationKeepsDistinct(s, r);
    forall i | 0 <= i < |r|
      ensures r[i] in pool
    {
      assert r[i] in multiset(r);
      assert r[i] in multiset(s);
    }
  }

  lemma TailMultiset<T>(a: seq<T>, b: seq<T>)
    requires a != [] && b != [] && a[0] == b[0] && multiset(a) == multiset(b)
    ensures multiset(a[1..]) == multiset(b[1..])
  {
    assert a == [a[0]] + a[1..] && b == [b[0]] + b[1..];
    assert multiset(a) == multiset{a[0]} + multiset(a[1..]);
    assert multiset(b) == multiset{a[0]} + multiset(b[1..]);
    assert multiset(a[1..]) == multiset(a) - multiset{a[0]};
    assert multiset(b[1..]) == multiset(b) - multiset{a[0]};
  }

  /** A sorted list is determined by its elements: two sorted lists with
      the same multiset are equal. */
  lemma {:induction false} SortedUnique(a: seq<int>, b: seq<int>)
    requires Sorted(a) && Sorted(b) && multiset(a) == multiset(b)
    ensures a == b
    decreases |a|
  {
    assert |a| == |multiset(a)| == |multiset(b)| == |b|;
    if a != [] {
      assert a[0] in multiset(b) && b[0] in multiset(a);
      assert a[0] == b[0];
      TailMultiset(a, b);
      SortedUnique(a[1..], b[1..]);
    }
  }

  /** A sub-multiset as large as the whole is the whole. */
  lemma SubMultisetSameSize<T>(a: multiset<T>, b: multiset<T>)
    requires a <= b && |a| == |b|
    ensures a == b
  {
    var d := b - a;
    assert b == a + d;
    assert |d| == 0;
  }

  /** A selection loop followed by the ascending sort: k distinct values
      drawn from pool, sorted. */
  method Select(pool: set<int>, k: nat) returns (s: seq<int>)
    requires k <= |pool|
    ensures Chosen(s, k, pool)
  {
    assert pool - Elems([]) == pool;
    var picked := FillDistinct([], pool, k);
    assert picked[0..] == picked;
    SortKeepsChoice(picked, pool);
    s := SortAsc(picked);
  }
}
