/** `KL8Predictor.predict_next_numbers`: every number 1..80 is scored from the
    analyses, the scores are jittered, and the prediction is drawn from the 20
    best-scored numbers. The three random sources are inputs: the per-number
    list of lengths of the combinations `generate_potential_combinations`
    would have produced, the 80 jitter factors of `np.random.uniform`, and the
    order in which `np.random.choice` takes the 20 candidates. */
module Prediction {
  import opened Common
  import opened Counters
  import opened Ranking
  import opened Draws
  import opened Frequency
  import opened SamePeriod
  import opened Patterns
  import opened Trends

  // ---------------------------------------------------------------------
  // The bonuses.

  /** `x / max(total, 1)`. */
  function Share(x: real, total: nat): real {
    x / (Max(total, 1) as real)
  }

  /** `0.1 * len(combination) / 20`, added once per combination. */
  function CombinationBonus(lengths: seq<nat>): (b: real)
    ensures b >= 0.0
    decreases |lengths|
  {
    if lengths == [] then 0.0
    else CombinationBonus(lengths[..|lengths| - 1]) + 0.1 * (lengths[|lengths| - 1] as real) / 20.0
  }

  /** The trend bonus: the first list that holds the number decides. */
  function TrendBonus(trends: TrendLists, num: int): real {
    if num in trends.coldToHot then 0.2
    else if num in trends.stable then 0.15
    else if num in trends.volatile then 0.1
    else 0.0
  }

  /** The parity bonus towards the reference draw's odd count. */
  function ParityBonus(num: int, targetOddCount: int): real {
    if (num % 2 == 1 && targetOddCount > 10) || (num % 2 == 0 && targetOddCount < 10) then 0.1 else 0.0
  }

  /** One of the loops over `range(1, 81)` that add to `number_scores[num]`. */
  datatype Stage =
    | SamePeriodStage(dayFreq: Counter<int>, dayCount: nat, weekdayFreq: Counter<int>, weekdayCount: nat)
    | PairStage(pairNumbers: set<int>, combinations: seq<seq<nat>>)
    | TrendStage(trends: TrendLists)
    | OverlapStage(overlap: seq<int>)
    | ParityStage(targetOddCount: int)

  /** What the stage adds to `num`'s score. */
  function StageBonus(st: Stage, num: int): real {
    match st
    case SamePeriodStage(dayFreq, dayCount, weekdayFreq, weekdayCount) =>
      (Share(Get(dayFreq, num), dayCount) + Share(Get(weekdayFreq, num), weekdayCount)) * 0.1
    case PairStage(pairNumbers, combinations) =>
      (if num in pairNumbers then 0.2 else 0.0)
      + (if 1 <= num <= |combinations| then CombinationBonus(combinations[num - 1]) else 0.0)
    case TrendStage(trends) => TrendBonus(trends, num)
    case OverlapStage(overlap) => if num in overlap then 0.1 else 0.0
    case ParityStage(targetOddCount) => ParityBonus(num, targetOddCount)
  }

  // ---------------------------------------------------------------------
  // The score table.

  /** `x * factor`, named so that the solver treats the product as one term. */
  function Scaled(x: real, factor: real): real {
    x * factor
  }

  /** `number_scores[num] += freq * factor` for one entry `(num, freq)`. */
  function AddWeighted(scores: Counter<int>, entry: (int, real), factor: real): Counter<int> {
    Add(scores, entry.0, Scaled(entry.1, factor))
  }

  /** `for num, freq in table.items(): number_scores[num] += freq * factor`. */
  function AddTable(scores: Counter<int>, table: Counter<int>, factor: real): Counter<int>
    decreases |table|
  {
    if table == [] then scores
    else AddWeighted(AddTable(scores, table[..|table| - 1], factor), table[|table| - 1], factor)
  }

  /** `for num in range(1, n + 1): number_scores[num] += bonus(num)`. */
  function AddBonus(scores: Counter<int>, st: Stage, n: int): Counter<int>
    decreases n
  {
    if n <= 0 then scores else Add(AddBonus(scores, st, n - 1), n, StageBonus(st, n))
  }

  /** `c[k] *= f`. */
  function Scale(c: Counter<int>, k: int, f: real): (r: Counter<int>)
    ensures Get(r, k) == Scaled(Get(c, k), f)
    ensures forall k' :: k' != k ==> Get(r, k') == Get(c, k')
    ensures k in Keys(c) ==> Keys(r) == Keys(c)
    ensures k !in Keys(c) ==> Keys(r) == Keys(c) + [k]
  {
    Put(c, k, Scaled(Get(c, k), f))
  }

  /** `for num in range(1, n + 1): number_scores[num] *= jitter[num - 1]`. */
  function Jitter(scores: Counter<int>, jitter: seq<real>, n: int): Counter<int>
    requires n <= |jitter|
    decreases n
  {
    if n <= 0 then scores else Scale(Jitter(scores, jitter, n - 1), n, jitter[n - 1])
  }

  /** The numbers of the ten most common pairs, as a set. */
  function PairNumbers(pairs: seq<(Pair, real)>): (r: set<int>)
    ensures forall x :: x in r <==> exists i :: 0 <= i < |pairs| && (pairs[i].0.0 == x || pairs[i].0.1 == x)
    decreases |pairs|
  {
    if pairs == [] then {}
    else
      var last := pairs[|pairs| - 1];
      var r := PairNumbers(pairs[..|pairs| - 1]) + {last.0.0, last.0.1};
      assert forall i :: 0 <= i < |pairs| - 1 ==> pairs[..|pairs| - 1][i] == pairs[i];
      r
  }

  /** The stage of the same-period analysis: its frequencies divided by its
      row counts. */
  function SamePeriodOf(h: seq<Draw>, targetDay: int, targetWeekday: int): Stage {
    var sameDay := SameDayOfMonth(h, targetDay);
    var sameWeekday := SameWeekday(h, targetWeekday);
    SamePeriodStage(Tally(sameDay, Unweighted), |sameDay|, Tally(sameWeekday, Unweighted), |sameWeekday|)
  }

  /** The five bonus loops of `predict_next_numbers`, in the order they run. */
  function StagesOf(h: seq<Draw>, targetDay: int, targetWeekday: int, patterns: PatternStats,
                    combinations: seq<seq<nat>>): (r: seq<Stage>)
    ensures |r| == 5
  {
    var sameDay := SameDayOfMonth(h, targetDay);
    [SamePeriodOf(h, targetDay, targetWeekday), PairStage(PairNumbers(patterns.commonNumberPairs), combinations),
     TrendStage(TrendsOf(h)), OverlapStage(Overlap(sameDay)), ParityStage(OddCount(ReferenceDraw(sameDay)))]
  }

  /** The bonus loops of `stages`, one after another. */
  function AddStages(scores: Counter<int>, stages: seq<Stage>, n: int): Counter<int>
    decreases |stages|
  {
    if stages == [] then scores
    else AddBonus(AddStages(scores, stages[..|stages| - 1], n), stages[|stages| - 1], n)
  }

  /** `number_scores` before the jitter, given the pattern analysis. */
  function Unjittered(h: seq<Draw>, targetDay: int, targetWeekday: int, patterns: PatternStats,
                      combinations: seq<seq<nat>>): Counter<int>
  {
    var frequencies := AddTable(AddTable([], Frequency.Frequency(h, 0, true), 0.15), Frequency.Frequency(h, 30, false), 0.15);
    AddStages(frequencies, StagesOf(h, targetDay, targetWeekday, patterns, combinations), Numbers)
  }

  /** `number_scores` after all the loops, given the pattern analysis. */
  function Scores(h: seq<Draw>, targetDay: int, targetWeekday: int, patterns: PatternStats,
                  combinations: seq<seq<nat>>, jitter: seq<real>): Counter<int>
    requires |jitter| == 80
  {
    Jitter(Unjittered(h, targetDay, targetWeekday, patterns, combinations), jitter, Numbers)
  }

  // ---------------------------------------------------------------------
  // The selection.

  /** `order` lists the positions `0..n-1` once each: the permutation that
      `np.random.choice(..., replace=False)` takes its sample from. */
  predicate IsOrder(order: seq<int>, n: int) {
    |order| == n && Distinct(order) && AllIn(order, 0, n - 1)
  }

  /** `[num for num, _ in sorted_numbers[:20]]`. */
  function TopNumbers(scores: Counter<int>): seq<int> {
    Keys(Top(scores, 20))
  }

  /** `sorted(np.random.choice(top, size=count, replace=False))`; a sample
      larger than the population, or of negative size, raises `ValueError`. */
  function Choose(top: seq<int>, order: seq<int>, count: int): Result<seq<int>>
    requires IsOrder(order, |top|)
  {
    if count < 0 || count > |top| then Err(ValueError)
    else Ok(SortInts(seq(count, j requires 0 <= j < count => top[order[j]])))
  }

  /** `predict_next_numbers(count)`. The target's day of the month and weekday
      are those of the day after the newest draw. `iloc[0]` on an empty table
      raises `IndexError`; the pattern analysis may raise `ValueError`. */
  function Predict(h: seq<Draw>, targetDay: int, targetWeekday: int, combinations: seq<seq<nat>>,
                   jitter: seq<real>, order: seq<int>, count: int): Result<seq<int>>
    requires |jitter| == 80 && IsOrder(order, 20)
  {
    if h == [] then Err(IndexError)
    else
      match Patterns.Patterns(RecentRows(h, 30))
      case Err(e) => Err(e)
      case Ok(patterns) =>
        var scores := Scores(h, targetDay, targetWeekday, patterns, combinations, jitter);
        ScoresFacts(h, targetDay, targetWeekday, patterns, combinations, jitter);
        Choose(TopNumbers(scores), order, count)
  }

  // ---------------------------------------------------------------------
  // The loops.

  method PredictNextNumbers(h: seq<Draw>, targetDay: int, targetWeekday: int, combinations: seq<seq<nat>>,
                            jitter: seq<real>, order: seq<int>, predictCount: int) returns (r: Result<seq<int>>)
    requires 0 <= targetWeekday < 7
    requires |jitter| == 80 && IsOrder(order, 20)
    ensures r == Predict(h, targetDay, targetWeekday, combinations, jitter, order, predictCount)
  {
    var allTimeFreq := AnalyzeFrequency(h, 0, true);
    var recentFreq := AnalyzeFrequency(h, 30, false);
    var historicalSamePeriod := AnalyzeHistoricalSamePeriod(h, targetDay, targetWeekday);
    if |h| == 0 {
      return Err(IndexError);
    }
    var numberPatterns := AnalyzeNumberPatterns(h, 30);
    if numberPatterns.Err? {
      return Err(numberPatterns.error);
    }
    var trendPatterns := AnalyzeTrendPatterns(h);
    var patterns := numberPatterns.value;
    var numberScores := ScoreNumbers(h, targetDay, targetWeekday, patterns, combinations, jitter,
                                     allTimeFreq, recentFreq, historicalSamePeriod, trendPatterns);
    ScoresFacts(h, targetDay, targetWeekday, patterns, combinations, jitter);
    r := ChooseNumbers(numberScores, order, predictCount);
  }

  /** The selection of `predict_next_numbers` from the final scores. */
  method ChooseNumbers(numberScores: Counter<int>, order: seq<int>, predictCount: int) returns (r: Result<seq<int>>)
    requires IsOrder(order, |TopNumbers(numberScores)|)
    ensures r == Choose(TopNumbers(numberScores), order, predictCount)
  {
    var top20Numbers := Keys(Top(numberScores, 20));
    if predictCount < 0 || predictCount > |top20Numbers| {
      return Err(ValueError);
    }
    var chosen := seq(predictCount, j requires 0 <= j < predictCount => top20Numbers[order[j]]);
    r := Ok(SortInts(chosen));
  }

  /** The scoring loops of `predict_next_numbers`, given the analyses. */
  method ScoreNumbers(h: seq<Draw>, targetDay: int, targetWeekday: int, patterns: PatternStats,
                      combinations: seq<seq<nat>>, jitter: seq<real>, allTimeFreq: Counter<int>,
                      recentFreq: Counter<int>, historicalSamePeriod: SamePeriodStats, trendPatterns: TrendLists)
                      returns (numberScores: Counter<int>)
    requires |jitter| == 80
    requires allTimeFreq == Frequency.Frequency(h, 0, true) && recentFreq == Frequency.Frequency(h, 30, false)
    requires historicalSamePeriod.sameDayFreq == Tally(SameDayOfMonth(h, targetDay), Unweighted)
    requires historicalSamePeriod.sameWeekdayFreq == Tally(SameWeekday(h, targetWeekday), Unweighted)
    requires historicalSamePeriod.sameDayCount == |SameDayOfMonth(h, targetDay)|
    requires historicalSamePeriod.sameWeekdayCount == |SameWeekday(h, targetWeekday)|
    requires historicalSamePeriod.overlapNumbers == Overlap(SameDayOfMonth(h, targetDay))
    requires historicalSamePeriod.oddCount == OddCount(ReferenceDraw(SameDayOfMonth(h, targetDay)))
    requires trendPatterns == TrendsOf(h)
    ensures numberScores == Scores(h, targetDay, targetWeekday, patterns, combinations, jitter)
  {
    numberScores := ScoreBeforeJitter(h, targetDay, targetWeekday, patterns, combinations, allTimeFreq, recentFreq,
                                      historicalSamePeriod, trendPatterns);
    numberScores := ApplyJitter(numberScores, jitter);
  }

  /** The loops of `predict_next_numbers` up to and including the parity bonus. */
  method ScoreBeforeJitter(h: seq<Draw>, targetDay: int, targetWeekday: int, patterns: PatternStats,
                           combinations: seq<seq<nat>>, allTimeFreq: Counter<int>, recentFreq: Counter<int>,
                           historicalSamePeriod: SamePeriodStats, trendPatterns: TrendLists)
                           returns (numberScores: Counter<int>)
    requires allTimeFreq == Frequency.Frequency(h, 0, true) && recentFreq == Frequency.Frequency(h, 30, false)
    requires historicalSamePeriod.sameDayFreq == Tally(SameDayOfMonth(h, targetDay), Unweighted)
    requires historicalSamePeriod.sameWeekdayFreq == Tally(SameWeekday(h, targetWeekday), Unweighted)
    requires historicalSamePeriod.sameDayCount == |SameDayOfMonth(h, targetDay)|
    requires historicalSamePeriod.sameWeekdayCount == |SameWeekday(h, targetWeekday)|
    requires historicalSamePeriod.overlapNumbers == Overlap(SameDayOfMonth(h, targetDay))
    requires historicalSamePeriod.oddCount == OddCount(ReferenceDraw(SameDayOfMonth(h, targetDay)))
    requires trendPatterns == TrendsOf(h)
    ensures numberScores == Unjittered(h, targetDay, targetWeekday, patterns, combinations)
  {
    numberScores := [];
    numberScores := AddScaled(numberScores, allTimeFreq, 0.15);
    numberScores := AddScaled(numberScores, recentFreq, 0.15);
    FrequencyTablesFacts(h);
    var commonPairs := CollectPairNumbers(patterns.commonNumberPairs);
    numberScores := AddAllBonuses(numberScores, historicalSamePeriod, commonPairs, combinations, trendPatterns);
    var sameDay := SameDayOfMonth(h, targetDay);
    assert SamePeriodOf(h, targetDay, targetWeekday)
      == SamePeriodStage(historicalSamePeriod.sameDayFreq, historicalSamePeriod.sameDayCount,
                         historicalSamePeriod.sameWeekdayFreq, historicalSamePeriod.sameWeekdayCount);
    assert StagesOf(h, targetDay, targetWeekday, patterns, combinations)
      == [SamePeriodOf(h, targetDay, targetWeekday), PairStage(commonPairs, combinations),
          TrendStage(trendPatterns), OverlapStage(historicalSamePeriod.overlapNumbers),
          ParityStage(historicalSamePeriod.oddCount)];
  }

  /** The five bonus loops, one after another, on a table that holds every number. */
  method AddAllBonuses(scores: Counter<int>, samePeriod: SamePeriodStats, commonPairs: set<int>,
                       combinations: seq<seq<nat>>, trendPatterns: TrendLists) returns (r: Counter<int>)
    requires WellFormed(scores)
    ensures r == AddStages(scores, [SamePeriodStage(samePeriod.sameDayFreq, samePeriod.sameDayCount,
                                                    samePeriod.sameWeekdayFreq, samePeriod.sameWeekdayCount),
                                    PairStage(commonPairs, combinations), TrendStage(trendPatterns),
                                    OverlapStage(samePeriod.overlapNumbers), ParityStage(samePeriod.oddCount)], Numbers)
  {
    ghost var s0 := SamePeriodStage(samePeriod.sameDayFreq, samePeriod.sameDayCount,
                                    samePeriod.sameWeekdayFreq, samePeriod.sameWeekdayCount);
    r := AddSamePeriod(scores, samePeriod.sameDayFreq, samePeriod.sameDayCount,
                       samePeriod.sameWeekdayFreq, samePeriod.sameWeekdayCount);
    BonusKeeps(scores, s0);
    ghost var before := r;
    r := AddPairBonuses(r, commonPairs, combinations);
    BonusKeeps(before, PairStage(commonPairs, combinations));
    before := r;
    r := AddTrendBonuses(r, trendPatterns);
    BonusKeeps(before, TrendStage(trendPatterns));
    before := r;
    r := AddOverlapBonuses(r, samePeriod.overlapNumbers);
    BonusKeeps(before, OverlapStage(samePeriod.overlapNumbers));
    r := AddParityBonuses(r, samePeriod.oddCount);
    FiveStages(scores, s0, PairStage(commonPairs, combinations), TrendStage(trendPatterns),
               OverlapStage(samePeriod.overlapNumbers), ParityStage(samePeriod.oddCount), Numbers);
  }

  method AddScaled(scores: Counter<int>, table: Counter<int>, factor: real) returns (r: Counter<int>)
    ensures r == AddTable(scores, table, factor)
  {
    r := scores;
    var i := 0;
    while i < |table|
      invariant 0 <= i <= |table|
      invariant r == AddTable(scores, table[..i], factor)
    {
      AddTableStep(scores, table, factor, i);
      r := AddWeighted(r, table[i], factor);
      i := i + 1;
    }
    assert table[..i] == table;
  }

  method AddSamePeriod(scores: Counter<int>, dayFreq: Counter<int>, dayCount: nat,
                       weekdayFreq: Counter<int>, weekdayCount: nat) returns (r: Counter<int>)
    ensures r == AddBonus(scores, SamePeriodStage(dayFreq, dayCount, weekdayFreq, weekdayCount), Numbers)
  {
    ghost var st := SamePeriodStage(dayFreq, dayCount, weekdayFreq, weekdayCount);
    r := scores;
    var num := 1;
    ghost var done := 0;
    while num <= Numbers
      invariant 1 <= num <= Numbers + 1 && done == num - 1
      invariant r == AddBonus(scores, st, done)
    {
      AddBonusStep(scores, st, done, num);
      var bonus := SamePeriodBonus(dayFreq, dayCount, weekdayFreq, weekdayCount, num);
      r := Add(r, num, bonus);
      done := num;
      num := num + 1;
    }
    assert done == Numbers;
  }

  /** `(same_day_freq.get(num, 0) / max(...) + same_weekday_freq.get(num, 0) / max(...)) * 0.1`. */
  method SamePeriodBonus(dayFreq: Counter<int>, dayCount: nat, weekdayFreq: Counter<int>, weekdayCount: nat,
                         num: int) returns (bonus: real)
    ensures bonus == StageBonus(SamePeriodStage(dayFreq, dayCount, weekdayFreq, weekdayCount), num)
  {
    var dayScore := Share(Get(dayFreq, num), dayCount);
    var weekdayScore := Share(Get(weekdayFreq, num), weekdayCount);
    bonus := (dayScore + weekdayScore) * 0.1;
  }

  method CollectPairNumbers(pairs: seq<(Pair, real)>) returns (commonPairs: set<int>)
    ensures commonPairs == PairNumbers(pairs)
  {
    commonPairs := {};
    var i := 0;
    while i < |pairs|
      invariant 0 <= i <= |pairs|
      invariant commonPairs == PairNumbers(pairs[..i])
    {
      var (p, _) := pairs[i];
      assert pairs[..i + 1][..i] == pairs[..i];
      commonPairs := commonPairs + {p.0};
      commonPairs := commonPairs + {p.1};
      i := i + 1;
    }
    assert pairs[..i] == pairs;
  }

  /** Every number 1..80 has a score. */
  predicate HasAllNumbers(scores: Counter<int>) {
    forall k :: 1 <= k <= 80 ==> k in Keys(scores)
  }

  method AddPairBonuses(scores: Counter<int>, commonPairs: set<int>, combinations: seq<seq<nat>>) returns (r: Counter<int>)
    requires HasAllNumbers(scores)
    ensures r == AddBonus(scores, PairStage(commonPairs, combinations), Numbers)
  {
    ghost var st := PairStage(commonPairs, combinations);
    r := scores;
    var num := 1;
    ghost var done := 0;
    while num <= Numbers
      invariant 1 <= num <= Numbers + 1 && done == num - 1
      invariant r == AddBonus(scores, st, done)
    {
      AddBonusStep(scores, st, done, num);
      AddBonusHasKey(scores, st, done, num, r);
      var lengths: seq<nat> := if num <= |combinations| then combinations[num - 1] else [];
      r := AddPairBonus(r, num, commonPairs, lengths);
      assert StageBonus(st, num) == (if num in commonPairs then 0.2 else 0.0) + CombinationBonus(lengths);
      done := num;
      num := num + 1;
    }
    assert done == Numbers;
  }

  /** The body of the pair loop for one number. */
  method AddPairBonus(scores: Counter<int>, num: int, commonPairs: set<int>, lengths: seq<nat>) returns (r: Counter<int>)
    requires num in Keys(scores)
    ensures r == Add(scores, num, (if num in commonPairs then 0.2 else 0.0) + CombinationBonus(lengths))
  {
    r := scores;
    if num in commonPairs {
      r := Add(r, num, 0.2);
      r := AddCombinations(r, num, lengths);
      AddTwice(scores, num, 0.2, CombinationBonus(lengths));
    } else {
      r := AddCombinations(r, num, lengths);
      assert 0.0 + CombinationBonus(lengths) == CombinationBonus(lengths);
    }
  }

  /** `for potential_combination in ...: number_scores[num] += 0.1 * len / 20`. */
  method AddCombinations(scores: Counter<int>, num: int, lengths: seq<nat>) returns (r: Counter<int>)
    requires num in Keys(scores)
    ensures r == Add(scores, num, CombinationBonus(lengths))
  {
    r := scores;
    AddZero(scores, num);
    assert lengths[..0] == [];
    var i := 0;
    while i < |lengths|
      invariant 0 <= i <= |lengths|
      invariant r == Add(scores, num, CombinationBonus(lengths[..i]))
    {
      CombinationStep(scores, num, lengths, i);
      r := Add(r, num, 0.1 * (lengths[i] as real) / 20.0);
      i := i + 1;
    }
    assert lengths[..i] == lengths;
  }

  method AddTrendBonuses(scores: Counter<int>, trends: TrendLists) returns (r: Counter<int>)
    requires HasAllNumbers(scores)
    ensures r == AddBonus(scores, TrendStage(trends), Numbers)
  {
    ghost var st := TrendStage(trends);
    r := scores;
    var num := 1;
    ghost var done := 0;
    while num <= Numbers
      invariant 1 <= num <= Numbers + 1 && done == num - 1
      invariant r == AddBonus(scores, st, done)
    {
      AddBonusStep(scores, st, done, num);
      AddBonusHasKey(scores, st, done, num, r);
      AddZero(r, num);
      if num in trends.coldToHot {
        r := Add(r, num, 0.2);
      } else if num in trends.stable {
        r := Add(r, num, 0.15);
      } else if num in trends.volatile {
        r := Add(r, num, 0.1);
      }
      done := num;
      num := num + 1;
    }
    assert done == Numbers;
  }

  method AddOverlapBonuses(scores: Counter<int>, overlapNumbers: seq<int>) returns (r: Counter<int>)
    requires HasAllNumbers(scores)
    ensures r == AddBonus(scores, OverlapStage(overlapNumbers), Numbers)
  {
    ghost var st := OverlapStage(overlapNumbers);
    r := scores;
    var num := 1;
    ghost var done := 0;
    while num <= Numbers
      invariant 1 <= num <= Numbers + 1 && done == num - 1
      invariant r == AddBonus(scores, st, done)
    {
      AddBonusStep(scores, st, done, num);
      AddBonusHasKey(scores, st, done, num, r);
      AddZero(r, num);
      if num in overlapNumbers {
        r := Add(r, num, 0.1);
      }
      done := num;
      num := num + 1;
    }
    assert done == Numbers;
  }

  method AddParityBonuses(scores: Counter<int>, targetOddCount: int) returns (r: Counter<int>)
    requires HasAllNumbers(scores)
    ensures r == AddBonus(scores, ParityStage(targetOddCount), Numbers)
  {
    ghost var st := ParityStage(targetOddCount);
    r := scores;
    var num := 1;
    ghost var done := 0;
    while num <= Numbers
      invariant 1 <= num <= Numbers + 1 && done == num - 1
      invariant r == AddBonus(scores, st, done)
    {
      AddBonusStep(scores, st, done, num);
      AddBonusHasKey(scores, st, done, num, r);
      AddZero(r, num);
      if (num % 2 == 1 && targetOddCount > 10) || (num % 2 == 0 && targetOddCount < 10) {
        r := Add(r, num, 0.1);
      }
      done := num;
      num := num + 1;
    }
    assert done == Numbers;
  }

  method ApplyJitter(scores: Counter<int>, jitter: seq<real>) returns (r: Counter<int>)
    requires |jitter| == 80
    ensures r == Jitter(scores, jitter, Numbers)
  {
    r := scores;
    var num := 1;
    ghost var done := 0;
    while num <= Numbers
      invariant 1 <= num <= Numbers + 1 && done == num - 1
      invariant r == Jitter(scores, jitter, done)
    {
      JitterStep(scores, jitter, done, num);
      r := Scale(r, num, jitter[num - 1]);
      done := num;
      num := num + 1;
    }
    assert done == Numbers;
  }

  // ---------------------------------------------------------------------
  // Steps of the loops.

  lemma AddTableStep(c: Counter<int>, t: Counter<int>, f: real, i: int)
    requires 0 <= i < |t|
    ensures AddTable(c, t[..i + 1], f) == AddWeighted(AddTable(c, t[..i], f), t[i], f)
  {
    var s := t[..i + 1];
    assert s[..|s| - 1] == t[..i];
    assert s[|s| - 1] == t[i];
  }

  lemma FiveStages(c: Counter<int>, s0: Stage, s1: Stage, s2: Stage, s3: Stage, s4: Stage, n: int)
    ensures AddStages(c, [s0, s1, s2, s3, s4], n)
      == AddBonus(AddBonus(AddBonus(AddBonus(AddBonus(c, s0, n), s1, n), s2, n), s3, n), s4, n)
  {
    var stages := [s0, s1, s2, s3, s4];
    assert stages[..0] == [];
    AddStagesStep(c, stages, 0, n);
    AddStagesStep(c, stages, 1, n);
    AddStagesStep(c, stages, 2, n);
    AddStagesStep(c, stages, 3, n);
    AddStagesStep(c, stages, 4, n);
    assert stages[..5] == stages;
  }

  lemma AddStagesStep(c: Counter<int>, stages: seq<Stage>, i: int, n: int)
    requires 0 <= i < |stages|
    ensures AddStages(c, stages[..i + 1], n) == AddBonus(AddStages(c, stages[..i], n), stages[i], n)
  {
    var s := stages[..i + 1];
    assert s[..|s| - 1] == stages[..i];
  }

  lemma AddBonusStep(c: Counter<int>, st: Stage, done: int, n: int)
    requires n == done + 1 && n >= 1
    ensures AddBonus(c, st, n) == Add(AddBonus(c, st, done), n, StageBonus(st, n))
  {
    assert done == n - 1;
    var prev := AddBonus(c, st, n - 1);
    assert AddBonus(c, st, n) == Add(prev, n, StageBonus(st, n));
  }

  lemma JitterStep(c: Counter<int>, jitter: seq<real>, done: int, n: int)
    requires n == done + 1 && 1 <= n <= |jitter|
    ensures Jitter(c, jitter, n) == Scale(Jitter(c, jitter, done), n, jitter[n - 1])
  {
    assert done == n - 1;
    var prev := Jitter(c, jitter, n - 1);
    assert Jitter(c, jitter, n) == Scale(prev, n, jitter[n - 1]);
  }

  lemma CombinationBonusStep(lengths: seq<nat>, i: int)
    requires 0 <= i < |lengths|
    ensures CombinationBonus(lengths[..i + 1]) == CombinationBonus(lengths[..i]) + 0.1 * (lengths[i] as real) / 20.0
  {
    var s := lengths[..i + 1];
    assert s[..|s| - 1] == lengths[..i];
    assert s[|s| - 1] == lengths[i];
  }

  lemma CombinationStep(c: Counter<int>, num: int, lengths: seq<nat>, i: int)
    requires 0 <= i < |lengths|
    ensures Add(Add(c, num, CombinationBonus(lengths[..i])), num, 0.1 * (lengths[i] as real) / 20.0)
         == Add(c, num, CombinationBonus(lengths[..i + 1]))
  {
    CombinationBonusStep(lengths, i);
    AddTwice(c, num, CombinationBonus(lengths[..i]), 0.1 * (lengths[i] as real) / 20.0);
  }

  /** The bonus loops keep every number 1..80 in the table. */
  lemma AddBonusHasKey(c: Counter<int>, st: Stage, n: int, k: int, r: Counter<int>)
    requires HasAllNumbers(c) && 1 <= k <= 80 && r == AddBonus(c, st, n)
    ensures k in Keys(r)
  {
    AddBonusMembers(c, st, n, k);
  }

  // ---------------------------------------------------------------------
  // Facts about the table.

  /** Adding nothing to a stored key changes nothing. */
  lemma {:induction false} AddZero(c: Counter<int>, k: int)
    requires k in Keys(c)
    ensures Add(c, k, 0.0) == c
    decreases |c|
  {
    assert Keys(c) == [c[0].0] + Keys(c[1..]);
    if c[0].0 != k {
      AddZero(c[1..], k);
      assert c == [c[0]] + c[1..];
    } else {
      assert c == [c[0]] + c[1..];
    }
  }

  /** Two additions to one key are one addition of their sum. */
  lemma {:induction false} AddTwice(c: Counter<int>, k: int, a: real, b: real)
    ensures Add(Add(c, k, a), k, b) == Add(c, k, a + b)
    decreases |c|
  {
    if c != [] && c[0].0 != k {
      AddTwice(c[1..], k, a, b);
      var t := Add(c[1..], k, a);
      assert ([c[0]] + t)[0] == c[0] && ([c[0]] + t)[1..] == t;
    } else if c != [] {
      var t := [(k, c[0].1 + a)] + c[1..];
      assert t[0].0 == k && t[1..] == c[1..];
    }
  }

  lemma AddBonusMembersStep(c: Counter<int>, st: Stage, done: int, n: int, k: int)
    requires n == done + 1 && n >= 1
    requires k in Keys(AddBonus(c, st, done)) <==> k in Keys(c) || 1 <= k <= done
    ensures k in Keys(AddBonus(c, st, n)) <==> k in Keys(c) || 1 <= k <= n
  {
    AddBonusStep(c, st, done, n);
    AddMembersAfter(c, AddBonus(c, st, done), AddBonus(c, st, n), done, n, StageBonus(st, n), k);
  }

  /** One more number added to a table holding the keys of `c0` and 1..done. */
  lemma AddMembersAfter(c0: Counter<int>, prev: Counter<int>, r: Counter<int>, done: int, n: int, w: real, k: int)
    requires n == done + 1 && n >= 1 && r == Add(prev, n, w)
    requires k in Keys(prev) <==> k in Keys(c0) || 1 <= k <= done
    ensures k in Keys(r) <==> k in Keys(c0) || 1 <= k <= n
  {
    AddMembers(prev, n, w, k);
    if k == n {
      assert k in Keys(r);
    } else {
      assert k in Keys(r) <==> k in Keys(prev);
    }
  }

  /** The bonus loops hold exactly the keys they started with and 1..n. */
  lemma {:induction false} AddBonusMembers(c: Counter<int>, st: Stage, n: int, k: int)
    ensures k in Keys(AddBonus(c, st, n)) <==> k in Keys(c) || 1 <= k <= n
    decreases n
  {
    if n > 0 {
      var done := n - 1;
      AddBonusMembers(c, st, done, k);
      AddBonusMembersStep(c, st, done, n, k);
    }
  }

  lemma AddBonusWellFormedStep(c: Counter<int>, st: Stage, done: int, n: int)
    requires n == done + 1 && n >= 1
    requires WellFormed(AddBonus(c, st, done))
    ensures WellFormed(AddBonus(c, st, n))
  {
    AddBonusStep(c, st, done, n);
    AddWellFormed(AddBonus(c, st, done), n, StageBonus(st, n));
  }

  lemma {:induction false} AddBonusWellFormed(c: Counter<int>, st: Stage, n: int)
    requires WellFormed(c)
    ensures WellFormed(AddBonus(c, st, n))
    decreases n
  {
    if n > 0 {
      var done := n - 1;
      AddBonusWellFormed(c, st, done);
      AddBonusWellFormedStep(c, st, done, n);
    }
  }

  lemma AddBonusGetStep(c: Counter<int>, st: Stage, done: int, n: int, k: int)
    requires n == done + 1 && n >= 1
    requires Get(AddBonus(c, st, done), k) == Get(c, k) + (if 1 <= k <= done then StageBonus(st, k) else 0.0)
    ensures Get(AddBonus(c, st, n), k) == Get(c, k) + (if 1 <= k <= n then StageBonus(st, k) else 0.0)
  {
    AddBonusStep(c, st, done, n);
    var prev := AddBonus(c, st, done);
    if k == n {
      assert Get(AddBonus(c, st, n), k) == Get(prev, k) + StageBonus(st, n);
      assert Get(prev, k) == Get(c, k);
    } else {
      assert Get(AddBonus(c, st, n), k) == Get(prev, k);
    }
  }

  lemma {:induction false} AddBonusGet(c: Counter<int>, st: Stage, n: int, k: int)
    ensures Get(AddBonus(c, st, n), k) == Get(c, k) + (if 1 <= k <= n then StageBonus(st, k) else 0.0)
    decreases n
  {
    if n > 0 {
      var done := n - 1;
      AddBonusGet(c, st, done, k);
      AddBonusGetStep(c, st, done, n, k);
    }
  }

  lemma AddTableKeys(c: Counter<int>, t: Counter<int>, f: real)
    ensures forall k :: k in Keys(AddTable(c, t, f)) <==> k in Keys(c) || k in Keys(t)
    ensures WellFormed(c) ==> WellFormed(AddTable(c, t, f))
  {
    forall k ensures k in Keys(AddTable(c, t, f)) <==> k in Keys(c) || k in Keys(t) {
      AddTableMembers(c, t, f, k);
    }
    if WellFormed(c) {
      AddTableWellFormed(c, t, f);
    }
  }

  lemma AddTableLast(c: Counter<int>, t: Counter<int>, f: real)
    requires t != []
    ensures AddTable(c, t, f) == Add(AddTable(c, t[..|t| - 1], f), t[|t| - 1].0, Scaled(t[|t| - 1].1, f))
    ensures Keys(t) == Keys(t[..|t| - 1]) + [t[|t| - 1].0]
  {
    assert t == t[..|t| - 1] + [t[|t| - 1]];
  }

  lemma AddTableMembersStep(c: Counter<int>, t: Counter<int>, f: real, k: int)
    requires t != []
    requires k in Keys(AddTable(c, t[..|t| - 1], f)) <==> k in Keys(c) || k in Keys(t[..|t| - 1])
    ensures k in Keys(AddTable(c, t, f)) <==> k in Keys(c) || k in Keys(t)
  {
    var init := t[..|t| - 1];
    var last := t[|t| - 1];
    AddTableLast(c, t, f);
    AddMembers(AddTable(c, init, f), last.0, Scaled(last.1, f), k);
    if k == last.0 {
      assert k in Keys(t);
    } else {
      assert k in Keys(t) <==> k in Keys(init);
    }
  }

  lemma {:induction false} AddTableMembers(c: Counter<int>, t: Counter<int>, f: real, k: int)
    ensures k in Keys(AddTable(c, t, f)) <==> k in Keys(c) || k in Keys(t)
    decreases |t|
  {
    if t != [] {
      AddTableMembers(c, t[..|t| - 1], f, k);
      AddTableMembersStep(c, t, f, k);
    }
  }

  lemma AddTableWellFormedStep(c: Counter<int>, t: Counter<int>, f: real)
    requires t != [] && WellFormed(AddTable(c, t[..|t| - 1], f))
    ensures WellFormed(AddTable(c, t, f))
  {
    AddTableLast(c, t, f);
    AddWellFormed(AddTable(c, t[..|t| - 1], f), t[|t| - 1].0, Scaled(t[|t| - 1].1, f));
  }

  lemma {:induction false} AddTableWellFormed(c: Counter<int>, t: Counter<int>, f: real)
    requires WellFormed(c)
    ensures WellFormed(AddTable(c, t, f))
    decreases |t|
  {
    if t != [] {
      AddTableWellFormed(c, t[..|t| - 1], f);
      AddTableWellFormedStep(c, t, f);
    }
  }

  /** `Get` of a counter with one more key appended at its end. */
  lemma {:induction false} GetSnoc(c: Counter<int>, e: (int, real), k: int)
    requires e.0 !in Keys(c)
    ensures Get(c + [e], k) == if k == e.0 then e.1 else Get(c, k)
    decreases |c|
  {
    if c == [] {
      assert [e][1..] == [];
    } else {
      assert Keys(c) == [c[0].0] + Keys(c[1..]);
      assert (c + [e])[0] == c[0] && (c + [e])[1..] == c[1..] + [e];
      GetSnoc(c[1..], e, k);
    }
  }

  /** A well-formed table is its well-formed front plus a last entry whose key
      the front does not hold. */
  lemma WellFormedFront(t: Counter<int>)
    requires WellFormed(t) && t != []
    ensures WellFormed(t[..|t| - 1]) && t[|t| - 1].0 !in Keys(t[..|t| - 1])
    ensures t == t[..|t| - 1] + [t[|t| - 1]]
  {
    var init := t[..|t| - 1];
    assert forall i :: 0 <= i < |Keys(init)| ==> Keys(init)[i] == Keys(t)[i];
  }

  lemma ScaledZero(f: real)
    ensures Scaled(0.0, f) == 0.0
  {
  }

  lemma AddWeightedGet(c: Counter<int>, e: (int, real), f: real, k: int)
    ensures Get(AddWeighted(c, e, f), k) == Get(c, k) + (if k == e.0 then Scaled(e.1, f) else 0.0)
  {
  }

  lemma {:induction false} AddTableGet(c: Counter<int>, t: Counter<int>, f: real, k: int)
    requires WellFormed(t)
    ensures Get(AddTable(c, t, f), k) == Get(c, k) + Scaled(Get(t, k), f)
    decreases |t|
  {
    if t == [] {
      ScaledZero(f);
      assert Get(t, k) == 0.0;
      assert AddTable(c, t, f) == c;
      assert Get(AddTable(c, t, f), k) == Get(c, k) + Scaled(Get(t, k), f);
    } else {
      var init := t[..|t| - 1];
      var last := t[|t| - 1];
      WellFormedFront(t);
      var prev := AddTable(c, init, f);
      assert AddTable(c, t, f) == AddWeighted(prev, last, f);
      AddWeightedGet(prev, last, f, k);
      AddTableGet(c, init, f, k);
      GetSnoc(init, last, k);
      if k == last.0 {
        GetAbsent(init, k);
        ScaledZero(f);
        assert Get(t, k) == last.1;
        assert Get(AddTable(c, t, f), k) == Get(c, k) + Scaled(last.1, f);
        assert Get(AddTable(c, t, f), k) == Get(c, k) + Scaled(Get(t, k), f);
      } else {
        assert Get(t, k) == Get(init, k);
        assert Get(AddTable(c, t, f), k) == Get(c, k) + Scaled(Get(init, k), f);
        assert Get(AddTable(c, t, f), k) == Get(c, k) + Scaled(Get(t, k), f);
      }
    }
  }

  lemma ScaleWellFormed(c: Counter<int>, k: int, f: real)
    requires WellFormed(c)
    ensures WellFormed(Scale(c, k, f))
  {
    PutWellFormed(c, k, Scaled(Get(c, k), f));
  }

  lemma JitterKeys(c: Counter<int>, jitter: seq<real>, n: int)
    requires n <= |jitter|
    ensures forall k :: k in Keys(Jitter(c, jitter, n)) <==> k in Keys(c) || 1 <= k <= n
    ensures WellFormed(c) ==> WellFormed(Jitter(c, jitter, n))
  {
    forall k ensures k in Keys(Jitter(c, jitter, n)) <==> k in Keys(c) || 1 <= k <= n {
      JitterMembers(c, jitter, n, k);
    }
    if WellFormed(c) {
      JitterWellFormed(c, jitter, n);
    }
  }

  lemma ScaleMembersAfter(c0: Counter<int>, prev: Counter<int>, r: Counter<int>, done: int, n: int, f: real, k: int)
    requires n == done + 1 && n >= 1 && r == Scale(prev, n, f)
    requires k in Keys(prev) <==> k in Keys(c0) || 1 <= k <= done
    ensures k in Keys(r) <==> k in Keys(c0) || 1 <= k <= n
  {
    if n !in Keys(prev) {
      assert Keys(r) == Keys(prev) + [n];
    }
    if k == n {
      assert k in Keys(r);
    } else {
      assert k in Keys(r) <==> k in Keys(prev);
    }
  }

  lemma JitterMembersStep(c: Counter<int>, jitter: seq<real>, done: int, n: int, k: int)
    requires n == done + 1 && 1 <= n <= |jitter|
    requires k in Keys(Jitter(c, jitter, done)) <==> k in Keys(c) || 1 <= k <= done
    ensures k in Keys(Jitter(c, jitter, n)) <==> k in Keys(c) || 1 <= k <= n
  {
    JitterStep(c, jitter, done, n);
    ScaleMembersAfter(c, Jitter(c, jitter, done), Jitter(c, jitter, n), done, n, jitter[n - 1], k);
  }

  lemma {:induction false} JitterMembers(c: Counter<int>, jitter: seq<real>, n: int, k: int)
    requires n <= |jitter|
    ensures k in Keys(Jitter(c, jitter, n)) <==> k in Keys(c) || 1 <= k <= n
    decreases n
  {
    if n > 0 {
      var done := n - 1;
      JitterMembers(c, jitter, done, k);
      JitterMembersStep(c, jitter, done, n, k);
    }
  }

  lemma JitterWellFormedStep(c: Counter<int>, jitter: seq<real>, done: int, n: int)
    requires n == done + 1 && 1 <= n <= |jitter|
    requires WellFormed(Jitter(c, jitter, done))
    ensures WellFormed(Jitter(c, jitter, n))
  {
    JitterStep(c, jitter, done, n);
    ScaleWellFormed(Jitter(c, jitter, done), n, jitter[n - 1]);
  }

  lemma {:induction false} JitterWellFormed(c: Counter<int>, jitter: seq<real>, n: int)
    requires n <= |jitter| && WellFormed(c)
    ensures WellFormed(Jitter(c, jitter, n))
    decreases n
  {
    if n > 0 {
      var done := n - 1;
      JitterWellFormed(c, jitter, done);
      JitterWellFormedStep(c, jitter, done, n);
    }
  }

  /** What the jitter loop leaves at key `k` after the numbers 1..n. */
  function Jittered(c: Counter<int>, jitter: seq<real>, n: int, k: int): real
    requires n <= |jitter|
  {
    if 1 <= k <= n then Scaled(Get(c, k), jitter[k - 1]) else Get(c, k)
  }

  lemma JitterGetStep(c: Counter<int>, jitter: seq<real>, done: int, n: int, k: int)
    requires n == done + 1 && 1 <= n <= |jitter|
    requires Get(Jitter(c, jitter, done), k) == Jittered(c, jitter, done, k)
    requires Get(Jitter(c, jitter, done), n) == Get(c, n)
    ensures Get(Jitter(c, jitter, n), k) == Jittered(c, jitter, n, k)
  {
    JitterStep(c, jitter, done, n);
    ScaleGetAfter(Jitter(c, jitter, done), Jitter(c, jitter, n), n, jitter[n - 1], k);
    JitteredStep(c, jitter, done, n, k, Get(Jitter(c, jitter, n), k), Get(Jitter(c, jitter, done), k), Get(Jitter(c, jitter, done), n));
  }

  lemma JitteredStep(c: Counter<int>, jitter: seq<real>, done: int, n: int, k: int, now: real, before: real, atN: real)
    requires n == done + 1 && 1 <= n <= |jitter|
    requires before == Jittered(c, jitter, done, k) && atN == Get(c, n)
    requires now == if k == n then Scaled(atN, jitter[n - 1]) else before
    ensures now == Jittered(c, jitter, n, k)
  {
  }

  lemma ScaleGetAfter(prev: Counter<int>, r: Counter<int>, n: int, f: real, k: int)
    requires r == Scale(prev, n, f)
    ensures Get(r, k) == if k == n then Scaled(Get(prev, n), f) else Get(prev, k)
  {
  }

  lemma {:induction false} JitterGet(c: Counter<int>, jitter: seq<real>, n: int, k: int)
    requires n <= |jitter|
    ensures Get(Jitter(c, jitter, n), k) == Jittered(c, jitter, n, k)
    decreases n
  {
    if n > 0 {
      var done := n - 1;
      JitterGet(c, jitter, done, k);
      JitterGet(c, jitter, done, n);
      JitterGetStep(c, jitter, done, n, k);
    }
  }

  /** The numbers 1..n. */
  function Range(n: int): (r: set<int>)
    ensures forall k :: k in r <==> 1 <= k <= n
    ensures n >= 0 ==> |r| == n
    decreases n
  {
    if n <= 0 then {} else Range(n - 1) + {n}
  }

  /** A table holding every number 1..80 has at least 80 keys. */
  lemma AllNumbersSize(c: Counter<int>)
    requires HasAllNumbers(c)
    ensures |c| >= 80
  {
    assert Range(80) <= SetOf(Keys(c));
    SetSubsetSize(Range(80), SetOf(Keys(c)));
    SetOfSize(Keys(c));
  }

  lemma FrequencyTablesFacts(h: seq<Draw>)
    ensures WellFormed(AddTable(AddTable([], Frequency.Frequency(h, 0, true), 0.15), Frequency.Frequency(h, 30, false), 0.15))
  {
    var allTime := Frequency.Frequency(h, 0, true);
    var recent := Frequency.Frequency(h, 30, false);
    FrequencyMeaning(h, 0, true, 0);
    FrequencyMeaning(h, 30, false, 0);
    AddTableKeys([], allTime, 0.15);
    AddTableKeys(AddTable([], allTime, 0.15), recent, 0.15);
  }

  lemma BonusKeeps(c: Counter<int>, st: Stage)
    requires WellFormed(c)
    ensures WellFormed(AddBonus(c, st, Numbers)) && HasAllNumbers(AddBonus(c, st, Numbers))
  {
    AddBonusWellFormed(c, st, Numbers);
    forall k | 1 <= k <= 80
      ensures k in Keys(AddBonus(c, st, Numbers))
    {
      AddBonusMembers(c, st, Numbers, k);
    }
  }

  lemma JitterKeeps(c: Counter<int>, jitter: seq<real>)
    requires |jitter| == 80 && WellFormed(c) && HasAllNumbers(c)
    ensures WellFormed(Jitter(c, jitter, Numbers)) && HasAllNumbers(Jitter(c, jitter, Numbers))
  {
    JitterKeys(c, jitter, Numbers);
  }

  /** The bonus loops keep every number stored once and, once one has run,
      every number 1..80 has a score. */
  lemma {:induction false} StagesKeep(c: Counter<int>, stages: seq<Stage>)
    requires WellFormed(c)
    ensures WellFormed(AddStages(c, stages, Numbers))
    ensures stages != [] ==> HasAllNumbers(AddStages(c, stages, Numbers))
    decreases |stages|
  {
    if stages != [] {
      var init := stages[..|stages| - 1];
      StagesKeep(c, init);
      BonusKeeps(AddStages(c, init, Numbers), stages[|stages| - 1]);
    }
  }

  /** The score table stores each number once and holds every number 1..80. */
  lemma ScoresWellFormed(h: seq<Draw>, targetDay: int, targetWeekday: int, patterns: PatternStats,
                         combinations: seq<seq<nat>>, jitter: seq<real>)
    requires |jitter| == 80
    ensures var scores := Scores(h, targetDay, targetWeekday, patterns, combinations, jitter);
      WellFormed(scores) && HasAllNumbers(scores)
  {
    FrequencyTablesFacts(h);
    var frequencies := AddTable(AddTable([], Frequency.Frequency(h, 0, true), 0.15), Frequency.Frequency(h, 30, false), 0.15);
    StagesKeep(frequencies, StagesOf(h, targetDay, targetWeekday, patterns, combinations));
    JitterKeeps(Unjittered(h, targetDay, targetWeekday, patterns, combinations), jitter);
  }

  /** A table that stores each number once and holds every number 1..80 has
      20 distinct numbers at its top. */
  lemma TopFacts(scores: Counter<int>)
    requires WellFormed(scores) && HasAllNumbers(scores)
    ensures |TopNumbers(scores)| == 20 && Distinct(TopNumbers(scores))
  {
    AllNumbersSize(scores);
    SortDescKeysDistinct(scores);
    var ranked := Keys(SortDesc(scores));
    assert TopNumbers(scores) == ranked[..20];
  }

  lemma ScoresFacts(h: seq<Draw>, targetDay: int, targetWeekday: int, patterns: PatternStats,
                    combinations: seq<seq<nat>>, jitter: seq<real>)
    requires |jitter| == 80
    ensures var scores := Scores(h, targetDay, targetWeekday, patterns, combinations, jitter);
      WellFormed(scores) && HasAllNumbers(scores) && |TopNumbers(scores)| == 20 && Distinct(TopNumbers(scores))
  {
    ScoresWellFormed(h, targetDay, targetWeekday, patterns, combinations, jitter);
    TopFacts(Scores(h, targetDay, targetWeekday, patterns, combinations, jitter));
  }
}
