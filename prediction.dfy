/** The server's prediction route (`POST /api/predictions/generate`): count
    how often each value was drawn, rank the values by a stable descending
    sort on their counts, draw distinct values at random from the top of the
    ranking, sort them, and attach a confidence score that grows with the
    size of the history together with its threshold label. */
module PredictionGenerator {
  import opened Common
  import opened Frequency
  import opened Schema
  import opened Storage

  /** How far down the ranking the main-number and the star selection reach. */
  const MainTop: nat := 25
  const StarTop: nat := 8

  /** `Array.from(frequency.entries()).sort((a, b) => b[1] - a[1])` */
  function Ranked(xs: seq<int>): seq<Entry> {
    SortDescBy(Tally(xs), EntryCount)
  }

  /** `Math.min(top, sorted.length)`: the number of entries the random index
      can reach. */
  function TopCount(ranked: seq<Entry>, top: nat): nat {
    if top < |ranked| then top else |ranked|
  }

  /** The keys among the first m entries that are not 0. */
  function TopKeys(ranked: seq<Entry>, m: nat): set<int>
    requires m <= |ranked|
  {
    set i | 0 <= i < m && ranked[i].key != 0 :: ranked[i].key
  }

  /** `sorted[randomIndex]?.[0] || Math.floor(Math.random() * n) + 1` falls
      back to a uniform value when the index range is empty (the entry is
      undefined) or holds a stored 0 (which is falsy). */
  predicate FallbackReachable(ranked: seq<Entry>, top: nat) {
    var m := TopCount(ranked, top);
    m == 0 || exists i :: 0 <= i < m && ranked[i].key == 0
  }

  /** Every value one turn of a selection loop can produce. */
  function Candidates(ranked: seq<Entry>, top: nat, n: int): set<int> {
    TopKeys(ranked, TopCount(ranked, top)) + (if FallbackReachable(ranked, top) then Range(1, n) else {})
  }

  /** The values a selection loop can pick: any of 1..n without a history,
      the top of the ranking of the drawn values otherwise. */
  function Choices(groups: seq<seq<int>>, top: nat, n: int): set<int> {
    if groups == [] then Range(1, n) else Candidates(Ranked(Flatten(groups)), top, n)
  }

  /** A selection loop never collects enough distinct values: the request
      never completes. */
  predicate Stalls(history: seq<Draw>) {
    || |Choices(MainGroups(history), MainTop, 50)| < 5
    || |Choices(StarGroups(history), StarTop, 12)| < 2
  }

  /** `confidenceScore`: 75 without a history, else
      `Math.min(97, 75 + (n / 100) * 15)`. */
  function Confidence(n: nat): real {
    if n == 0 then 75.0 else Min(97.0, 75.0 + (n as real / 100.0) * 15.0)
  }

  /** `activeModel?.version || "v2.4.1"` */
  function VersionOf(active: Option<MLModel>): (version: string)
    ensures version != ""
    ensures active.Some? && active.value.version != "" ==> version == active.value.version
    ensures active.None? ==> version == DefaultVersion
  {
    if active.Some? && active.value.version != "" then active.value.version else DefaultVersion
  }

  /** One frequency map, its ranking and the values the selection loop over
      it can pick. */
  method Pool(groups: seq<seq<int>>, top: nat, n: int) returns (pool: set<int>)
    ensures pool == Choices(groups, top, n)
  {
    if groups == [] {
      pool := Range(1, n);
    } else {
      var frequency := CountFrequencies(groups);
      var sorted := SortDescBy(frequency, EntryCount);
      pool := Candidates(sorted, top, n);
    }
  }

  /** What the route hands to `createPrediction`, or None when a selection
      loop would spin forever. */
  method GenerateInput(history: seq<Draw>, active: Option<MLModel>) returns (r: Option<PredictionInput>)
    ensures r.None? <==> Stalls(history)
    ensures r.Some? ==> Chosen(r.value.mainNumbers, 5, Choices(MainGroups(history), MainTop, 50))
    ensures r.Some? ==> Chosen(r.value.luckyStars, 2, Choices(StarGroups(history), StarTop, 12))
    ensures r.Some? ==> r.value.confidenceScore == Confidence(|history|)
    ensures r.Some? ==> r.value.modelVersion == VersionOf(active)
    ensures r.Some? ==> r.value.patternMatch == PatternLabel(Confidence(|history|))
    ensures history == [] ==> r.Some? && r.value.confidenceScore == 75.0
    ensures history == [] ==> AllIn(r.value.mainNumbers, 1, 50) && AllIn(r.value.luckyStars, 1, 12)
  {
    var mainPool := Pool(MainGroups(history), MainTop, 50);
    var starPool := Pool(StarGroups(history), StarTop, 12);
    var confidence := 75.0;
    if |history| > 0 {
      confidence := Min(97.0, 75.0 + (|history| as real / 100.0) * 15.0);
    }
    if |mainPool| < 5 || |starPool| < 2 {
      return None;
    }
    var mainNumbers := Select(mainPool, 5);
    var luckyStars := Select(starPool, 2);
    if history == [] {
      assert MainGroups(history) == [] && StarGroups(history) == [];
      ChosenInRange(mainNumbers, 5, 1, 50);
      ChosenInRange(luckyStars, 2, 1, 12);
    }
    r := Some(PredictionInput(mainNumbers, luckyStars, confidence, VersionOf(active), PatternLabel(confidence)));
  }

  /** The route: read the history and the active model, generate, store. */
  method GeneratePrediction(store: MemStorage, dateKey: string -> int, now: int) returns (r: Option<Prediction>)
    requires store.Valid()
    modifies store
    ensures store.Valid()
    ensures store.draws == old(store.draws) && store.models == old(store.models)
    ensures r.None? ==> |store.draws| > 0 && store.predictionsList == old(store.predictionsList)
    ensures r.Some? ==> store.predictionsList == old(store.predictionsList) + [r.value]
    ensures r.Some? ==> r.value.id == old(store.currentPredictionId) && r.value.createdAt == now
    ensures r.Some? ==> var p := r.value.input;
      && |p.mainNumbers| == 5 && Sorted(p.mainNumbers) && Distinct(p.mainNumbers)
      && |p.luckyStars| == 2 && Sorted(p.luckyStars) && Distinct(p.luckyStars)
      && p.confidenceScore == Confidence(|store.draws|)
      && p.patternMatch == PatternLabel(Confidence(|store.draws|))
      && p.modelVersion == VersionOf(Some(store.models[ActiveIndex(store.models).value]))
    ensures r.Some? && store.draws == [] ==>
      AllIn(r.value.input.mainNumbers, 1, 50) && AllIn(r.value.input.luckyStars, 1, 12)
    ensures exists h ::
              && DrawsByDate(h, store.draws, dateKey)
              && (r.None? <==> Stalls(h))
              && (r.Some? ==> Chosen(r.value.input.mainNumbers, 5, Choices(MainGroups(h), MainTop, 50)))
              && (r.Some? ==> Chosen(r.value.input.luckyStars, 2, Choices(StarGroups(h), StarTop, 12)))
  {
    var history := store.GetAllDraws(dateKey);
    assert DrawsByDate(history, store.draws, dateKey);
    assert |history| == |multiset(history)| == |multiset(store.draws)| == |store.draws|;
    var active := store.GetActiveModel();
    var input := GenerateInput(history, active);
    assert store.draws == [] <==> history == [];
    if input.None? {
      return None;
    }
    var saved := store.CreatePrediction(input.value, now);
    r := Some(saved);
    assert DrawsByDate(history, store.draws, dateKey);
  }

  // ---------------------------------------------------------------------
  // Confidence

  /** The score lies in [75, 97], is 75 exactly without a history, reaches
      "High" from 67 draws on and is never labelled "Low". */
  lemma ConfidenceBounds(n: nat)
    ensures 75.0 <= Confidence(n) <= 97.0
    ensures Confidence(n) == 75.0 <==> n == 0
    ensures Confidence(n) == 97.0 <==> n >= 147
    ensures PatternLabel(Confidence(n)) == "High" <==> n >= 67
    ensures PatternLabel(Confidence(n)) == "Medium" <==> n < 67
    ensures PatternLabel(Confidence(n)) != "Low"
  {
    if n > 0 {
      var raw := 75.0 + (n as real / 100.0) * 15.0;
      assert raw > 75.0;
      if n >= 147 {
        assert raw >= 75.0 + (147.0 / 100.0) * 15.0;
      } else {
        assert n as real <= 146.0;
        assert raw <= 75.0 + (146.0 / 100.0) * 15.0;
      }
      if n >= 67 {
        assert raw >= 75.0 + (67.0 / 100.0) * 15.0;
      } else {
        assert n as real <= 66.0;
        assert raw <= 75.0 + (66.0 / 100.0) * 15.0;
      }
    }
  }

  // ---------------------------------------------------------------------
  // The ranking

  lemma TallyDistinctEntries(xs: seq<int>)
    ensures Distinct(Tally(xs))
  {
    TallyKeys(xs);
    var t := Tally(xs);
    forall i, j | 0 <= i < j < |t|
      ensures t[i] != t[j]
    {
      assert t[i].key != t[j].key;
    }
  }

  /** The entries of the ranking are those of the frequency map, reordered. */
  lemma RankedFromTally(xs: seq<int>, i: nat)
    requires i < |Ranked(xs)|
    ensures Ranked(xs)[i] in Tally(xs)
  {
    var r := Ranked(xs);
    assert r[i] in multiset(r);
  }

  lemma RankedKeysDistinct(xs: seq<int>)
    ensures KeysDistinct(Ranked(xs))
  {
    var r := Ranked(xs);
    var t := Tally(xs);
    TallyKeys(xs);
    TallyDistinctEntries(xs);
    forall i, j | 0 <= i < j < |r|
      ensures r[i].key != r[j].key
    {
      if r[i] == r[j] {
        TwiceOccurs(r, i, j);
        DistinctOccursOnce(t, r[i]);
        assert false;
      } else {
        RankedFromTally(xs, i);
        RankedFromTally(xs, j);
        var p :| 0 <= p < |t| && t[p] == r[i];
        var q :| 0 <= q < |t| && t[q] == r[j];
        assert p != q;
        if p < q {
          assert t[p].key != t[q].key;
        } else {
          assert t[q].key != t[p].key;
        }
      }
    }
  }

  /** Every ranked entry is a drawn value with its number of occurrences. */
  lemma RankedEntry(xs: seq<int>, i: nat)
    requires i < |Ranked(xs)|
    ensures Ranked(xs)[i].key in xs
    ensures Ranked(xs)[i].count == multiset(xs)[Ranked(xs)[i].key]
  {
    RankedFromTally(xs, i);
    var t := Tally(xs);
    var p :| 0 <= p < |t| && t[p] == Ranked(xs)[i];
    EntryAt(xs, p);
  }

  /** Every drawn value has an entry in the ranking. */
  lemma RankedIndexOf(xs: seq<int>, y: int) returns (j: nat)
    requires y in xs
    ensures j < |Ranked(xs)| && Ranked(xs)[j].key == y
  {
    var p := EntryOf(xs, y);
    var t := Tally(xs);
    var r := Ranked(xs);
    assert t[p] in multiset(t);
    assert t[p] in multiset(r);
    j :| 0 <= j < |r| && r[j] == t[p];
  }

  /** The ranking has one entry per distinct drawn value. */
  lemma RankedLength(xs: seq<int>)
    ensures |Ranked(xs)| == |Elems(xs)|
  {
    TallyKeys(xs);
    var t := Tally(xs);
    var ks := Keys(t);
    assert Distinct(ks) by {
      forall i, j | 0 <= i < j < |ks|
        ensures ks[i] != ks[j]
      {
        assert ks[i] == t[i].key && ks[j] == t[j].key;
      }
    }
    DistinctElems(ks);
    forall x
      ensures x in Elems(ks) <==> x in Elems(xs)
    {
    }
    assert Elems(ks) == Elems(xs);
    var r := Ranked(xs);
    assert |r| == |multiset(r)| == |multiset(t)| == |t|;
  }

  lemma {:induction false} TopKeysCount(ranked: seq<Entry>, m: nat)
    requires m <= |ranked|
    requires KeysDistinct(ranked)
    requires forall i :: 0 <= i < m ==> ranked[i].key != 0
    ensures |TopKeys(ranked, m)| == m
  {
    if m > 0 {
      TopKeysCount(ranked, m - 1);
      var k := ranked[m - 1].key;
      assert TopKeys(ranked, m) == TopKeys(ranked, m - 1) + {k};
      assert k !in TopKeys(ranked, m - 1);
    }
  }

  /** Without a stored 0, a selection loop can pick exactly the top
      `min(top, k)` values, k being the number of distinct drawn values. */
  lemma CandidatesCount(xs: seq<int>, top: nat, n: int)
    requires xs != [] && 0 !in xs
    ensures !FallbackReachable(Ranked(xs), top) || top == 0
    ensures top > 0 ==> |Candidates(Ranked(xs), top, n)| == if top < |Elems(xs)| then top else |Elems(xs)|
  {
    var r := Ranked(xs);
    RankedLength(xs);
    RankedKeysDistinct(xs);
    assert xs[0] in Elems(xs);
    var m := TopCount(r, top);
    forall i | 0 <= i < m
      ensures r[i].key != 0
    {
      RankedEntry(xs, i);
    }
    TopKeysCount(r, m);
  }

  /** The selection loops stall exactly when the history holds fewer than
      five distinct main numbers or fewer than two distinct stars, as long
      as no number and no star stored is 0. */
  lemma StallsIff(history: seq<Draw>)
    requires history != []
    requires Flatten(MainGroups(history)) != [] && 0 !in Flatten(MainGroups(history))
    requires Flatten(StarGroups(history)) != [] && 0 !in Flatten(StarGroups(history))
    ensures Stalls(history) <==>
      |Elems(Flatten(MainGroups(history)))| < 5 || |Elems(Flatten(StarGroups(history)))| < 2
  {
    CandidatesCount(Flatten(MainGroups(history)), MainTop, 50);
    CandidatesCount(Flatten(StarGroups(history)), StarTop, 12);
  }

  /** A value picked from the ranking (not from the fallback) was drawn at
      least as often as every non-zero drawn value the loop cannot pick. */
  lemma CandidatesMostFrequent(xs: seq<int>, top: nat, n: int, x: int, y: int)
    requires x in TopKeys(Ranked(xs), TopCount(Ranked(xs), top))
    requires y in xs && y != 0 && y !in Candidates(Ranked(xs), top, n)
    ensures x in xs
    ensures multiset(xs)[y] <= multiset(xs)[x]
  {
    var r := Ranked(xs);
    var m := TopCount(r, top);
    var i :| 0 <= i < m && r[i].key != 0 && r[i].key == x;
    var j := RankedIndexOf(xs, y);
    if j < m {
      assert false;
    }
    RankedEntry(xs, i);
    RankedEntry(xs, j);
    assert EntryCount(r[i]) >= EntryCount(r[j]);
  }
}
