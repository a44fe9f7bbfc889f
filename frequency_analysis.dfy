/** The server's frequency analysis (`GET /api/analysis/frequency`): decile
    bucket counts of the main numbers, the most and least frequent number,
    odd/even and low/high tallies, the average sum of a draw and a
    "sequential accuracy" that grows with the size of the history. */
module FrequencyAnalysis {
  import opened Common
  import opened Frequency
  import opened Schema
  import opened Storage

  /** The report. The source turns the four tallies into ratio strings and
      the average sum into a "lo-hi" string; the model keeps the numbers. */
  datatype Analysis = Analysis(
    frequencyData: seq<int>,
    mostFrequent: int,
    leastFrequent: int,
    trending: int,
    totalOdd: nat,
    totalEven: nat,
    totalLow: nat,
    totalHigh: nat,
    avgSum: int,
    sumRangeLow: int,
    sumRangeHigh: int,
    sequentialAccuracy: real)

  /** The 404 answer without history, the report otherwise. */
  datatype AnalysisResponse = NoHistoricalData | Report(analysis: Analysis)

  /** `Math.min(95, 70 + (n / 50))` */
  function SequentialAccuracy(n: nat): real {
    Min(95.0, 70.0 + n as real / 50.0)
  }

  /** The accuracy lies in [70, 95], is 70 only for an empty history and
      saturates from 1250 draws on. */
  lemma SequentialAccuracyBounds(n: nat)
    ensures 70.0 <= SequentialAccuracy(n) <= 95.0
    ensures SequentialAccuracy(n) == 70.0 <==> n == 0
    ensures SequentialAccuracy(n) == 95.0 <==> n >= 1250
  {
    if n < 1250 {
      assert n as real / 50.0 < 25.0;
    }
  }

  /** The inner `forEach` over one draw's numbers: moves the four tallies
      on from the numbers already seen to those numbers followed by g. */
  method CountPatternGroup(ghost seen: seq<int>, g: seq<int>, odd0: nat, even0: nat, low0: nat, high0: nat)
    returns (odd: nat, even: nat, low: nat, high: nat)
    requires odd0 == CountWhere(seen, IsOddJs) && odd0 + even0 == |seen|
    requires low0 == CountWhere(seen, IsLow) && low0 + high0 == |seen|
    ensures odd == CountWhere(seen + g, IsOddJs) && odd + even == |seen| + |g|
    ensures low == CountWhere(seen + g, IsLow) && low + high == |seen| + |g|
  {
    odd, even, low, high := odd0, even0, low0, high0;
    var j := 0;
    assert seen + g[..0] == seen;
    while j < |g|
      invariant 0 <= j <= |g|
      invariant odd == CountWhere(seen + g[..j], IsOddJs) && odd + even == |seen| + j
      invariant low == CountWhere(seen + g[..j], IsLow) && low + high == |seen| + j
    {
      var num := g[j];
      SnocSlice(seen, g, j);
      CountWhereSnoc(seen + g[..j], num, IsOddJs);
      CountWhereSnoc(seen + g[..j], num, IsLow);
      if num > 0 && num % 2 == 1 {
        odd := odd + 1;
      } else {
        even := even + 1;
      }
      if num <= 25 {
        low := low + 1;
      } else {
        high := high + 1;
      }
      j := j + 1;
    }
    assert g[..j] == g;
  }

  /** The nested `forEach` that tallies odd/even and low/high numbers and adds
      up every draw's sum. An odd number is one with `num % 2 === 1`, which
      in JavaScript excludes negative odd numbers: those count as even. */
  method CountPatterns(groups: seq<seq<int>>) returns (odd: nat, even: nat, low: nat, high: nat, sumTotal: int)
    ensures odd == CountWhere(Flatten(groups), IsOddJs)
    ensures low == CountWhere(Flatten(groups), IsLow)
    ensures odd + even == |Flatten(groups)|
    ensures low + high == |Flatten(groups)|
    ensures sumTotal == Sum(Flatten(groups))
  {
    odd, even, low, high, sumTotal := 0, 0, 0, 0, 0;
    ghost var seen: seq<int> := [];
    var i := 0;
    while i < |groups|
      invariant 0 <= i <= |groups|
      invariant seen == Flatten(groups[..i])
      invariant odd == CountWhere(seen, IsOddJs) && odd + even == |seen|
      invariant low == CountWhere(seen, IsLow) && low + high == |seen|
      invariant sumTotal == Sum(seen)
    {
      var g := groups[i];
      assert groups[..i + 1] == groups[..i] + [g];
      FlattenAppend(groups[..i], g);
      SumAppend(seen, g);
      odd, even, low, high := CountPatternGroup(seen, g, odd, even, low, high);
      sumTotal := sumTotal + Sum(g);
      seen := seen + g;
      i := i + 1;
    }
    assert groups[..i] == groups;
  }

  /** The analysis of a history, in the order `getAllDraws` returns it. */
  method Analyze(history: seq<Draw>) returns (r: AnalysisResponse)
    ensures r.NoHistoricalData? <==> history == []
    ensures r.Report? ==> var a := r.analysis; var xs := Flatten(MainGroups(history));
      && a.frequencyData == FrequencyData(MainGroups(history))
      && a.mostFrequent == MostFrequent(Tally(xs))
      && a.leastFrequent == LeastFrequent(Tally(xs))
      && a.trending == a.mostFrequent
      && a.totalOdd == CountWhere(xs, IsOddJs) && a.totalOdd + a.totalEven == |xs|
      && a.totalLow == CountWhere(xs, IsLow) && a.totalLow + a.totalHigh == |xs|
      && a.avgSum == RoundJs(Sum(xs) as real / |history| as real)
      && a.sumRangeLow == a.avgSum - 20 && a.sumRangeHigh == a.avgSum + 20
      && a.sequentialAccuracy == SequentialAccuracy(|history|)
  {
    if |history| == 0 {
      return NoHistoricalData;
    }
    var groups := MainGroups(history);
    var numberFrequency := CountFrequencies(groups);
    var frequencyData := FrequencyData(groups);
    var mostFrequent := MostFrequent(numberFrequency);
    var leastFrequent := LeastFrequent(numberFrequency);
    var odd, even, low, high, sumTotal := CountPatterns(groups);
    var avgSum := RoundJs(sumTotal as real / |history| as real);
    r := Report(Analysis(frequencyData, mostFrequent, leastFrequent, mostFrequent,
      odd, even, low, high, avgSum, avgSum - 20, avgSum + 20, SequentialAccuracy(|history|)));
  }

  /** The route: the report over the stored draws, newest first. */
  method FrequencyRoute(store: MemStorage, dateKey: string -> int) returns (r: AnalysisResponse)
    requires store.IdsValid()
    ensures r.NoHistoricalData? <==> store.draws == []
    ensures r.Report? ==> r.analysis.sequentialAccuracy == SequentialAccuracy(|store.draws|)
    ensures r.Report? ==> r.analysis.mostFrequent != 0 && r.analysis.trending == r.analysis.mostFrequent
    ensures exists h ::
              && DrawsByDate(h, store.draws, dateKey)
              && (r.Report? ==> var a := r.analysis; var xs := Flatten(MainGroups(h));
                    && a.frequencyData == FrequencyData(MainGroups(h))
                    && Sum(a.frequencyData) == InRange(xs, 1, 50)
                    && a.mostFrequent == MostFrequent(Tally(xs))
                    && a.leastFrequent == LeastFrequent(Tally(xs))
                    && (xs != [] && 0 !in xs ==>
                          && a.mostFrequent in xs && a.leastFrequent in xs
                          && (forall y :: y in xs ==> multiset(xs)[y] <= multiset(xs)[a.mostFrequent])
                          && (forall y :: y in xs ==> multiset(xs)[a.leastFrequent] <= multiset(xs)[y]))
                    && a.totalOdd == CountWhere(xs, IsOddJs) && a.totalOdd + a.totalEven == |xs|
                    && a.totalLow == CountWhere(xs, IsLow) && a.totalLow + a.totalHigh == |xs|
                    && a.avgSum == RoundJs(Sum(xs) as real / |store.draws| as real)
                    && a.sumRangeLow == a.avgSum - 20 && a.sumRangeHigh == a.avgSum + 20)
  {
    var history := store.GetAllDraws(dateKey);
    assert |history| == |multiset(history)| == |multiset(store.draws)| == |store.draws|;
    r := Analyze(history);
    var xs := Flatten(MainGroups(history));
    FrequencyDataSum(MainGroups(history));
    if xs != [] {
      MostFrequentSpec(xs);
      LeastFrequentSpec(xs);
    }
    assert DrawsByDate(history, store.draws, dateKey);
  }
}
