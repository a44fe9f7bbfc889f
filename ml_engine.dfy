/** The client's scoring engine (`MLEngine`): random generation of a
    candidate line, pattern scores for its numbers and stars, a confidence
    derived from them with its threshold label, and a summary of a history.
    The engine keeps no state of its own, so its operations are plain
    functions and methods. */
module MLEngine {
  import opened Common
  import opened Frequency
  import opened Schema

  // ---------------------------------------------------------------------
  // Generation

  /** `generateMainNumbers`: the rejection loop over 1..50, then the sort. */
  method GenerateMainNumbers() returns (numbers: seq<int>)
    ensures |numbers| == 5 && Sorted(numbers) && Distinct(numbers) && AllIn(numbers, 1, 50)
  {
    numbers := Select(Range(1, 50), 5);
    ChosenInRange(numbers, 5, 1, 50);
  }

  /** `generateLuckyStars`: the rejection loop over 1..12, then the sort. */
  method GenerateLuckyStars() returns (stars: seq<int>)
    ensures |stars| == 2 && Sorted(stars) && Distinct(stars) && AllIn(stars, 1, 12)
  {
    stars := Select(Range(1, 12), 2);
    ChosenInRange(stars, 2, 1, 12);
  }

  // ---------------------------------------------------------------------
  // Number patterns

  function Abs(x: int): nat {
    if x < 0 then -x else x
  }

  /** `Math.abs(oddCount - evenCount) <= 1` */
  predicate OddEvenOptimal(numbers: seq<int>) {
    var odd := CountWhere(numbers, IsOddJs);
    Abs(odd - (|numbers| - odd)) <= 1
  }

  /** `Math.abs(lowCount - highCount) <= 1` */
  predicate HighLowOptimal(numbers: seq<int>) {
    var low := CountWhere(numbers, IsLow);
    Abs(low - (|numbers| - low)) <= 1
  }

  /** The number of adjacent positions holding consecutive integers. */
  function Consecutive(numbers: seq<int>): (c: nat)
    ensures |numbers| <= 1 ==> c == 0
    ensures |numbers| > 1 ==> c <= |numbers| - 1
  {
    if |numbers| <= 1 then 0
    else
      var n := |numbers|;
      Consecutive(numbers[..n - 1]) + (if numbers[n - 1] == numbers[n - 2] + 1 then 1 else 0)
  }

  /** The score `analyzeNumberPatterns` computes. */
  function NumberScore(numbers: seq<int>): real {
    (if OddEvenOptimal(numbers) then 0.4 else 0.0)
    + (if HighLowOptimal(numbers) then 0.4 else 0.0)
    + (if Consecutive(numbers) <= 2 then 0.2 else 0.0)
  }

  /** The counter loop of `analyzeNumberPatterns`. */
  method CountConsecutive(numbers: seq<int>) returns (count: nat)
    ensures count == Consecutive(numbers)
  {
    count := 0;
    if |numbers| == 0 {
      return;
    }
    var i := 1;
    while i < |numbers|
      invariant 1 <= i <= |numbers|
      invariant count == Consecutive(numbers[..i])
    {
      assert numbers[..i + 1][..i] == numbers[..i];
      if numbers[i] == numbers[i - 1] + 1 {
        count := count + 1;
      }
      i := i + 1;
    }
    assert numbers[..i] == numbers;
  }

  /** `analyzeNumberPatterns` */
  method AnalyzeNumberPatterns(numbers: seq<int>) returns (score: real)
    ensures score == NumberScore(numbers)
  {
    var oddCount := CountWhere(numbers, IsOddJs);
    var evenCount := |numbers| - oddCount;
    var oddEvenOptimal := Abs(oddCount - evenCount) <= 1;
    var lowCount := CountWhere(numbers, IsLow);
    var highCount := |numbers| - lowCount;
    var highLowOptimal := Abs(lowCount - highCount) <= 1;
    var consecutiveCount := CountConsecutive(numbers);
    var consecutiveOptimal := consecutiveCount <= 2;
    score := 0.0;
    if oddEvenOptimal {
      score := score + 0.4;
    }
    if highLowOptimal {
      score := score + 0.4;
    }
    if consecutiveOptimal {
      score := score + 0.2;
    }
  }

  /** The score lies in [0, 1] and is 1 exactly when all three tests pass. */
  lemma NumberScoreBounds(numbers: seq<int>)
    ensures 0.0 <= NumberScore(numbers) <= 1.0
    ensures NumberScore(numbers) == 1.0 <==>
      OddEvenOptimal(numbers) && HighLowOptimal(numbers) && Consecutive(numbers) <= 2
  {
  }

  /** For a line of five numbers, the odd/even test passes exactly for two
      or three odd numbers and the low/high test for two or three low ones. */
  lemma FiveNumberBalance(numbers: seq<int>)
    requires |numbers| == 5
    ensures OddEvenOptimal(numbers) <==> CountWhere(numbers, IsOddJs) in {2, 3}
    ensures HighLowOptimal(numbers) <==> CountWhere(numbers, IsLow) in {2, 3}
  {
  }

  // ---------------------------------------------------------------------
  // Star pattern, confidence, label

  /** `analyzeStarPatterns`: `Math.max(0, 1 - |sum - 13| / 10)`. */
  function StarScore(stars: seq<int>): real {
    Max(0.0, 1.0 - Abs(Sum(stars) - 13) as real / 10.0)
  }

  /** The star score lies in [0, 1], is 1 exactly for a sum of 13 and 0
      exactly when the sum is 10 or more away from 13. */
  lemma StarScoreBounds(stars: seq<int>)
    ensures 0.0 <= StarScore(stars) <= 1.0
    ensures StarScore(stars) == 1.0 <==> Sum(stars) == 13
    ensures StarScore(stars) == 0.0 <==> Abs(Sum(stars) - 13) >= 10
  {
  }

  /** `calculateConfidence`: `Math.min(95, 75 + 15 * numberScore + 10 * starScore)`. */
  function ConfidenceOf(mainNumbers: seq<int>, luckyStars: seq<int>): real {
    Min(95.0, 75.0 + NumberScore(mainNumbers) * 15.0 + StarScore(luckyStars) * 10.0)
  }

  /** The confidence always lies in [75, 95], so the label is never "Low". */
  lemma ConfidenceRange(mainNumbers: seq<int>, luckyStars: seq<int>)
    ensures 75.0 <= ConfidenceOf(mainNumbers, luckyStars) <= 95.0
    ensures PatternLabel(ConfidenceOf(mainNumbers, luckyStars)) != "Low"
  {
    NumberScoreBounds(mainNumbers);
    StarScoreBounds(luckyStars);
  }

  method CalculateConfidence(mainNumbers: seq<int>, luckyStars: seq<int>) returns (confidence: real)
    ensures confidence == ConfidenceOf(mainNumbers, luckyStars)
    ensures 75.0 <= confidence <= 95.0
  {
    var baseConfidence := 75.0;
    var patternScore := AnalyzeNumberPatterns(mainNumbers);
    var patternBonus := patternScore * 15.0;
    var starBonus := StarScore(luckyStars) * 10.0;
    confidence := Min(95.0, baseConfidence + patternBonus + starBonus);
    ConfidenceRange(mainNumbers, luckyStars);
  }

  /** `analyzePatternMatch`: "High" from 85 on, otherwise "Medium"; the
      "Low" branch is unreachable. */
  method AnalyzePatternMatch(mainNumbers: seq<int>, luckyStars: seq<int>) returns (tag: string)
    ensures tag == "High" <==> ConfidenceOf(mainNumbers, luckyStars) >= 85.0
    ensures tag == "Medium" <==> ConfidenceOf(mainNumbers, luckyStars) < 85.0
  {
    var confidence := CalculateConfidence(mainNumbers, luckyStars);
    if confidence >= 85.0 {
      return "High";
    }
    if confidence >= 70.0 {
      return "Medium";
    }
    assert false;
    return "Low";
  }

  /** `generatePrediction`: a random line, its confidence and label, and the
      fixed version "v2.4.1". The history argument is not consulted. */
  method GeneratePrediction(historicalData: seq<Draw>) returns (p: PredictionInput)
    ensures |p.mainNumbers| == 5 && Sorted(p.mainNumbers) && Distinct(p.mainNumbers) && AllIn(p.mainNumbers, 1, 50)
    ensures |p.luckyStars| == 2 && Sorted(p.luckyStars) && Distinct(p.luckyStars) && AllIn(p.luckyStars, 1, 12)
    ensures p.confidenceScore == ConfidenceOf(p.mainNumbers, p.luckyStars)
    ensures p.modelVersion == DefaultVersion
    ensures p.patternMatch == PatternLabel(p.confidenceScore) && p.patternMatch != "Low"
  {
    var mainNumbers := GenerateMainNumbers();
    var luckyStars := GenerateLuckyStars();
    var confidence := CalculateConfidence(mainNumbers, luckyStars);
    var tag := AnalyzePatternMatch(mainNumbers, luckyStars);
    p := PredictionInput(mainNumbers, luckyStars, confidence, DefaultVersion, tag);
  }

  // ---------------------------------------------------------------------
  // History summary

  datatype HistoricalPattern = HistoricalPattern(
    frequencyData: seq<int>,
    mostFrequent: int,
    leastFrequent: int,
    trending: int,
    oddEvenRatio: string,
    highLowSplit: string,
    sumRange: string,
    sequentialAccuracy: real)

  /** The summary reported for a missing or empty history. */
  const DefaultPattern: HistoricalPattern :=
    HistoricalPattern([23, 31, 28, 19, 25], 23, 11, 34, "3:2", "2:3", "110-140", 78.0)

  /** `analyzeHistoricalPatterns`: the fixed default without draws (None
      stands for `null`/`undefined`); otherwise the decile counts and the
      most and least frequent main numbers of the draws, with a constant
      trend and constant pattern strings. */
  method AnalyzeHistoricalPatterns(draws: Option<seq<Draw>>) returns (h: HistoricalPattern)
    ensures draws.None? || draws.value == [] ==> h == DefaultPattern
    ensures draws.Some? && draws.value != [] ==>
      var xs := Flatten(MainGroups(draws.value));
      && h.frequencyData == FrequencyData(MainGroups(draws.value))
      && Sum(h.frequencyData) == InRange(xs, 1, 50)
      && h.mostFrequent == MostFrequent(Tally(xs))
      && h.leastFrequent == LeastFrequent(Tally(xs))
      && h.trending == 34
      && h.oddEvenRatio == "3:2" && h.highLowSplit == "2:3" && h.sumRange == "110-140"
      && h.sequentialAccuracy == 78.0
  {
    if draws.None? || |draws.value| == 0 {
      return DefaultPattern;
    }
    var groups := MainGroups(draws.value);
    var frequencyData := FrequencyData(groups);
    FrequencyDataSum(groups);
    var numberFrequency := CountFrequencies(groups);
    var mostFrequent := MostFrequent(numberFrequency);
    var leastFrequent := LeastFrequent(numberFrequency);
    h := HistoricalPattern(frequencyData, mostFrequent, leastFrequent, 34, "3:2", "2:3", "110-140", 78.0);
  }
}
