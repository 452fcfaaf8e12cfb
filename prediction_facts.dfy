/** What `predict_next_numbers` promises: each number's score as one formula
    over the analyses, the trend and parity rules, and the selection of the
    result from the 20 best-scored numbers. */
module PredictionFacts {
  import opened Common
  import opened Counters
  import opened Ranking
  import opened Draws
  import opened Frequency
  import opened SamePeriod
  import opened Patterns
  import opened Trends
  import opened Prediction

  // ---------------------------------------------------------------------
  // The score of one number.

  /** The bonus each trend earns. */
  function TrendValue(t: Trend): real {
    match t
    case ColdToHot => 0.2
    case Stable => 0.15
    case Volatile => 0.1
    case HotToCold => 0.0
  }

  /** A number's list in `trend_patterns` is the one of its own trend, so the
      first list that holds it is that list. */
  lemma TrendBonusOf(h: seq<Draw>, k: int)
    requires 1 <= k <= 80
    ensures StageBonus(TrendStage(TrendsOf(h)), k) == TrendValue(TrendOf(h, k))
  {
    assert Classifier(h)(k) == TrendOf(h, k);
  }

  /** The score of number `k` before the jitter, written per number: the
      weighted frequencies and the bonuses of every stage. */
  function BaseScore(h: seq<Draw>, targetDay: int, targetWeekday: int, patterns: PatternStats,
                     combinations: seq<seq<nat>>, k: int): real
  {
    var sameDay := SameDayOfMonth(h, targetDay);
    0.15 * Get(Frequency.Frequency(h, 0, true), k) + 0.15 * Get(Frequency.Frequency(h, 30, false), k)
    + StageBonus(SamePeriodOf(h, targetDay, targetWeekday), k)
    + StageBonus(PairStage(PairNumbers(patterns.commonNumberPairs), combinations), k)
    + TrendValue(TrendOf(h, k))
    + (if k in Overlap(sameDay) then 0.1 else 0.0)
    + ParityBonus(k, OddCount(ReferenceDraw(sameDay)))
  }

  /** The final table gives every number 1..80 its `BaseScore` times its
      jitter factor. */
  lemma ScoresGet(h: seq<Draw>, targetDay: int, targetWeekday: int, patterns: PatternStats,
                  combinations: seq<seq<nat>>, jitter: seq<real>, k: int)
    requires |jitter| == 80 && 1 <= k <= 80
    ensures Get(Scores(h, targetDay, targetWeekday, patterns, combinations, jitter), k)
      == BaseScore(h, targetDay, targetWeekday, patterns, combinations, k) * jitter[k - 1]
  {
    var before := Unjittered(h, targetDay, targetWeekday, patterns, combinations);
    JitterGet(before, jitter, Numbers, k);
    UnjitteredGet(h, targetDay, targetWeekday, patterns, combinations, k);
    SameScaled(Get(before, k), BaseScore(h, targetDay, targetWeekday, patterns, combinations, k), jitter[k - 1]);
  }

  /** Before the jitter, every number 1..80 has its `BaseScore`. */
  lemma UnjitteredGet(h: seq<Draw>, targetDay: int, targetWeekday: int, patterns: PatternStats,
                      combinations: seq<seq<nat>>, k: int)
    requires 1 <= k <= 80
    ensures Get(Unjittered(h, targetDay, targetWeekday, patterns, combinations), k)
      == BaseScore(h, targetDay, targetWeekday, patterns, combinations, k)
  {
    var allTime := Frequency.Frequency(h, 0, true);
    var recent := Frequency.Frequency(h, 30, false);
    var stages := StagesOf(h, targetDay, targetWeekday, patterns, combinations);
    FrequencyMeaning(h, 0, true, k);
    FrequencyMeaning(h, 30, false, k);
    var frequencies := AddTable(AddTable([], allTime, 0.15), recent, 0.15);
    TablesGet(allTime, recent, k);
    AddStagesGet(frequencies, stages, Numbers, k);
    StagesOfBonus(h, targetDay, targetWeekday, patterns, combinations, k);
  }

  /** The five stages together add the bonus terms of `BaseScore`. */
  lemma StagesOfBonus(h: seq<Draw>, targetDay: int, targetWeekday: int, patterns: PatternStats,
                      combinations: seq<seq<nat>>, k: int)
    requires 1 <= k <= 80
    ensures var sameDay := SameDayOfMonth(h, targetDay);
      StagesBonus(StagesOf(h, targetDay, targetWeekday, patterns, combinations), k)
      == StageBonus(SamePeriodOf(h, targetDay, targetWeekday), k)
         + StageBonus(PairStage(PairNumbers(patterns.commonNumberPairs), combinations), k)
         + TrendValue(TrendOf(h, k))
         + (if k in Overlap(sameDay) then 0.1 else 0.0)
         + ParityBonus(k, OddCount(ReferenceDraw(sameDay)))
  {
    var sameDay := SameDayOfMonth(h, targetDay);
    var s0 := SamePeriodOf(h, targetDay, targetWeekday);
    var s1 := PairStage(PairNumbers(patterns.commonNumberPairs), combinations);
    var s2 := TrendStage(TrendsOf(h));
    var s3 := OverlapStage(Overlap(sameDay));
    var s4 := ParityStage(OddCount(ReferenceDraw(sameDay)));
    StagesOfDisplay(h, targetDay, targetWeekday, patterns, combinations);
    FiveBonuses(s0, s1, s2, s3, s4, k);
    TrendBonusOf(h, k);
    OverlapBonus(Overlap(sameDay), k);
    ParityStageBonus(OddCount(ReferenceDraw(sameDay)), k);
  }

  lemma OverlapBonus(overlap: seq<int>, k: int)
    ensures StageBonus(OverlapStage(overlap), k) == if k in overlap then 0.1 else 0.0
  {
  }

  lemma ParityStageBonus(targetOddCount: int, k: int)
    ensures StageBonus(ParityStage(targetOddCount), k) == ParityBonus(k, targetOddCount)
  {
  }

  /** `StagesOf` as its list of five stages. */
  lemma StagesOfDisplay(h: seq<Draw>, targetDay: int, targetWeekday: int, patterns: PatternStats,
                        combinations: seq<seq<nat>>)
    ensures var sameDay := SameDayOfMonth(h, targetDay);
      StagesOf(h, targetDay, targetWeekday, patterns, combinations)
      == [SamePeriodOf(h, targetDay, targetWeekday), PairStage(PairNumbers(patterns.commonNumberPairs), combinations),
          TrendStage(TrendsOf(h)), OverlapStage(Overlap(sameDay)), ParityStage(OddCount(ReferenceDraw(sameDay)))]
  {
  }

  /** The two frequency tables weighted by 0.15. */
  lemma TablesGet(a: Counter<int>, b: Counter<int>, k: int)
    requires WellFormed(a) && WellFormed(b)
    ensures Get(AddTable(AddTable([], a, 0.15), b, 0.15), k) == 0.15 * Get(a, k) + 0.15 * Get(b, k)
  {
    AddTableGet([], a, 0.15, k);
    AddTableGet(AddTable([], a, 0.15), b, 0.15, k);
  }

  /** What the stages add to `k`'s score, together. */
  function StagesBonus(stages: seq<Stage>, k: int): real
    decreases |stages|
  {
    if stages == [] then 0.0 else StagesBonus(stages[..|stages| - 1], k) + StageBonus(stages[|stages| - 1], k)
  }

  /** Each bonus loop adds its bonus to every number of 1..n. */
  lemma {:induction false} AddStagesGet(c: Counter<int>, stages: seq<Stage>, n: int, k: int)
    requires 1 <= k <= n
    ensures Get(AddStages(c, stages, n), k) == Get(c, k) + StagesBonus(stages, k)
    decreases |stages|
  {
    if stages != [] {
      var init := stages[..|stages| - 1];
      AddStagesGet(c, init, n, k);
      AddBonusGet(AddStages(c, init, n), stages[|stages| - 1], n, k);
    }
  }

  lemma StagesBonusStep(stages: seq<Stage>, i: int, k: int)
    requires 0 <= i < |stages|
    ensures StagesBonus(stages[..i + 1], k) == StagesBonus(stages[..i], k) + StageBonus(stages[i], k)
  {
    var s := stages[..i + 1];
    assert s[..|s| - 1] == stages[..i];
  }

  /** Five stages add their five bonuses. */
  lemma FiveBonuses(s0: Stage, s1: Stage, s2: Stage, s3: Stage, s4: Stage, k: int)
    ensures StagesBonus([s0, s1, s2, s3, s4], k)
      == StageBonus(s0, k) + StageBonus(s1, k) + StageBonus(s2, k) + StageBonus(s3, k) + StageBonus(s4, k)
  {
    var stages := [s0, s1, s2, s3, s4];
    assert stages[..0] == [];
    StagesBonusStep(stages, 0, k);
    StagesBonusStep(stages, 1, k);
    StagesBonusStep(stages, 2, k);
    StagesBonusStep(stages, 3, k);
    StagesBonusStep(stages, 4, k);
    assert stages[..5] == stages;
  }

  lemma SameScaled(x: real, y: real, f: real)
    requires x == y
    ensures Scaled(x, f) == Scaled(y, f)
  {
  }

  /** The parity stage adds 0.1 to the odd numbers when the reference draw
      has more than 10 odd numbers, to the even numbers when it has fewer
      than 10, and nothing to anybody at exactly 10. */
  lemma ParityRule(c: Counter<int>, targetOddCount: int, k: int)
    requires 1 <= k <= 80
    ensures var r := AddBonus(c, ParityStage(targetOddCount), Numbers);
      if targetOddCount > 10 then Get(r, k) == Get(c, k) + (if k % 2 == 1 then 0.1 else 0.0)
      else if targetOddCount < 10 then Get(r, k) == Get(c, k) + (if k % 2 == 0 then 0.1 else 0.0)
      else Get(r, k) == Get(c, k)
  {
    AddBonusGet(c, ParityStage(targetOddCount), Numbers, k);
  }

  /** The trend stage adds 0.2 to a cold-to-hot number, 0.15 to a stable one,
      0.1 to a volatile one and nothing to a hot-to-cold one. */
  lemma TrendRule(c: Counter<int>, h: seq<Draw>, k: int)
    requires 1 <= k <= 80
    ensures var r := AddBonus(c, TrendStage(TrendsOf(h)), Numbers);
      && (TrendOf(h, k) == ColdToHot ==> Get(r, k) == Get(c, k) + 0.2)
      && (TrendOf(h, k) == Stable ==> Get(r, k) == Get(c, k) + 0.15)
      && (TrendOf(h, k) == Volatile ==> Get(r, k) == Get(c, k) + 0.1)
      && (TrendOf(h, k) == HotToCold ==> Get(r, k) == Get(c, k))
  {
    var st := TrendStage(TrendsOf(h));
    AddBonusGet(c, st, Numbers, k);
    TrendBonusOf(h, k);
    TrendAdds(Get(AddBonus(c, st, Numbers), k), Get(c, k), StageBonus(st, k), TrendOf(h, k));
  }

  lemma TrendAdds(after: real, before: real, bonus: real, t: Trend)
    requires after == before + bonus && bonus == TrendValue(t)
    ensures t == ColdToHot ==> after == before + 0.2
    ensures t == Stable ==> after == before + 0.15
    ensures t == Volatile ==> after == before + 0.1
    ensures t == HotToCold ==> after == before
  {
  }

  // ---------------------------------------------------------------------
  // The keys of the score table.

  /** Over a history of valid draws, the score table holds exactly the
      numbers 1..80. */
  lemma ScoreKeys(h: seq<Draw>, targetDay: int, targetWeekday: int, patterns: PatternStats,
                  combinations: seq<seq<nat>>, jitter: seq<real>, k: int)
    requires |jitter| == 80 && AllValid(h)
    ensures k in Keys(Scores(h, targetDay, targetWeekday, patterns, combinations, jitter)) <==> 1 <= k <= 80
  {
    var allTime := Frequency.Frequency(h, 0, true);
    var recent := Frequency.Frequency(h, 30, false);
    FrequencyMeaning(h, 0, true, k);
    FrequencyMeaning(h, 30, false, k);
    OccursInRange(h, 0, k);
    OccursInRange(h, 30, k);
    var frequencies := AddTable(AddTable([], allTime, 0.15), recent, 0.15);
    AddTableMembers([], allTime, 0.15, k);
    AddTableMembers(AddTable([], allTime, 0.15), recent, 0.15, k);
    AddStagesMembers(frequencies, StagesOf(h, targetDay, targetWeekday, patterns, combinations), Numbers, k);
    JitterMembers(Unjittered(h, targetDay, targetWeekday, patterns, combinations), jitter, Numbers, k);
  }

  /** The bonus loops add the numbers 1..n to the table's keys. */
  lemma {:induction false} AddStagesMembers(c: Counter<int>, stages: seq<Stage>, n: int, k: int)
    ensures k in Keys(AddStages(c, stages, n)) <==> k in Keys(c) || (stages != [] && 1 <= k <= n)
    decreases |stages|
  {
    if stages != [] {
      var init := stages[..|stages| - 1];
      AddStagesMembers(c, init, n, k);
      AddBonusMembers(AddStages(c, init, n), stages[|stages| - 1], n, k);
    }
  }

  /** A number that occurs in a window of valid draws is one of 1..80. */
  lemma OccursInRange(h: seq<Draw>, days: int, k: int)
    requires AllValid(h)
    ensures Occurs(Window(h, days), k) ==> 1 <= k <= 80
  {
    if Occurs(Window(h, days), k) {
      var w := Window(h, days);
      var i :| 0 <= i < |w| && k in w[i].numbers;
      WindowMembers(h, days);
      assert w[i] in h;
      var p :| 0 <= p < |h| && h[p] == w[i];
      assert ValidDraw(h[p]);
    }
  }

  // ---------------------------------------------------------------------
  // The selection.

  /** The numbers at the sampled positions, in sampling order. */
  function Sample(top: seq<int>, order: seq<int>, count: int): (s: seq<int>)
    requires IsOrder(order, |top|) && 0 <= count <= |top|
    ensures |s| == count
    ensures forall j :: 0 <= j < count ==> s[j] == top[order[j]]
  {
    seq(count, j requires 0 <= j < count => top[order[j]])
  }

  /** Distinct positions of a list of distinct numbers give distinct numbers. */
  lemma SampleDistinct(top: seq<int>, order: seq<int>, count: int)
    requires IsOrder(order, |top|) && Distinct(top) && 0 <= count <= |top|
    ensures Distinct(Sample(top, order, count))
  {
    var s := Sample(top, order, count);
    forall i, j | 0 <= i < j < |s|
      ensures s[i] != s[j]
    {
      assert order[i] != order[j];
    }
  }

  /** Every sampled number is one of `top`. */
  lemma SampleMembers(top: seq<int>, order: seq<int>, count: int, x: int)
    requires IsOrder(order, |top|) && 0 <= count <= |top|
    requires x in multiset(Sample(top, order, count))
    ensures x in top
  {
    var s := Sample(top, order, count);
    var j :| 0 <= j < |s| && s[j] == x;
    assert top[order[j]] == x;
  }

  /** `np.random.choice(top, size=count, replace=False)` fails exactly when
      `count` is negative or exceeds the population; otherwise the sorted
      sample has `count` distinct numbers of `top`, ascending. */
  lemma ChooseMeaning(top: seq<int>, order: seq<int>, count: int)
    requires IsOrder(order, |top|) && Distinct(top)
    ensures Choose(top, order, count).Err? <==> count < 0 || count > |top|
    ensures Choose(top, order, count).Err? ==> Choose(top, order, count).error == ValueError
    ensures Choose(top, order, count).Ok? ==>
      var r := Choose(top, order, count).value;
      |r| == count && StrictlyAscending(r) && forall x :: x in r ==> x in top
  {
    if 0 <= count <= |top| {
      var s := Sample(top, order, count);
      assert Choose(top, order, count) == Ok(SortInts(s));
      SampleDistinct(top, order, count);
      SortDistinctIsStrict(s);
      forall x | x in SortInts(s)
        ensures x in top
      {
        assert x in multiset(SortInts(s));
        SampleMembers(top, order, count, x);
      }
    }
  }

  /** A number among the top 20 of a table of distinct keys is a key of the
      table that fewer than 20 keys outscore. */
  lemma TopNumberRank(scores: Counter<int>, x: int)
    requires WellFormed(scores) && HasAllNumbers(scores)
    requires x in TopNumbers(scores)
    ensures x in Keys(scores)
    ensures |Outweighing(scores, Get(scores, x))| < 20
  {
    AllNumbersSize(scores);
    var ranked := SortDesc(scores);
    var top := Top(scores, 20);
    assert top == ranked[..20];
    var i :| 0 <= i < |Keys(top)| && Keys(top)[i] == x;
    assert ranked[i].0 == x;
    TopRankBound(scores, i);
    assert ranked[i] in multiset(ranked);
    EntryOfRanked(scores, ranked[i]);
    SortedDescending(scores);
    assert ranked[i] in multiset(scores);
    var p :| 0 <= p < |scores| && scores[p] == ranked[i];
    assert Keys(scores)[p] == x;
  }

  /** The selection from a full score table: `count` distinct numbers,
      ascending, each of which fewer than 20 numbers outscore. */
  lemma SelectionMeaning(scores: Counter<int>, order: seq<int>, count: int)
    requires WellFormed(scores) && HasAllNumbers(scores)
    requires |TopNumbers(scores)| == 20 && Distinct(TopNumbers(scores)) && IsOrder(order, 20)
    requires Choose(TopNumbers(scores), order, count).Ok?
    ensures var r := Choose(TopNumbers(scores), order, count).value;
      && 0 <= count <= 20 && |r| == count && StrictlyAscending(r)
      && forall x :: x in r ==>
           (x in TopNumbers(scores) && x in Keys(scores) && |Outweighing(scores, Get(scores, x))| < 20)
  {
    ChooseMeaning(TopNumbers(scores), order, count);
    forall x | x in TopNumbers(scores)
      ensures x in Keys(scores) && |Outweighing(scores, Get(scores, x))| < 20
    {
      TopNumberRank(scores, x);
    }
  }

  /** `predict_next_numbers(count)`: on a non-empty history whose pattern
      analysis succeeds, the result is `count` distinct numbers, ascending,
      each of which fewer than 20 numbers outscore. */
  lemma PredictionMeaning(h: seq<Draw>, targetDay: int, targetWeekday: int, combinations: seq<seq<nat>>,
                          jitter: seq<real>, order: seq<int>, count: int)
    requires |jitter| == 80 && IsOrder(order, 20)
    requires Predict(h, targetDay, targetWeekday, combinations, jitter, order, count).Ok?
    ensures h != [] && Patterns.Patterns(RecentRows(h, 30)).Ok?
    ensures var r := Predict(h, targetDay, targetWeekday, combinations, jitter, order, count).value;
      var scores := Scores(h, targetDay, targetWeekday, Patterns.Patterns(RecentRows(h, 30)).value, combinations, jitter);
      && 0 <= count <= 20 && |r| == count && StrictlyAscending(r)
      && forall x :: x in r ==>
           (x in TopNumbers(scores) && x in Keys(scores) && |Outweighing(scores, Get(scores, x))| < 20)
  {
    var patterns := Patterns.Patterns(RecentRows(h, 30)).value;
    var scores := Scores(h, targetDay, targetWeekday, patterns, combinations, jitter);
    ScoresFacts(h, targetDay, targetWeekday, patterns, combinations, jitter);
    assert Predict(h, targetDay, targetWeekday, combinations, jitter, order, count) == Choose(TopNumbers(scores), order, count);
    SelectionMeaning(scores, order, count);
  }

  /** `predict_next_numbers(count)` raises `IndexError` on an empty history,
      passes on the pattern analysis's error, and otherwise raises
      `ValueError` exactly when `count` is negative or more than 20. */
  lemma PredictionErrors(h: seq<Draw>, targetDay: int, targetWeekday: int, combinations: seq<seq<nat>>,
                         jitter: seq<real>, order: seq<int>, count: int)
    requires |jitter| == 80 && IsOrder(order, 20)
    ensures h == [] ==> Predict(h, targetDay, targetWeekday, combinations, jitter, order, count) == Err(IndexError)
    ensures h != [] && Patterns.Patterns(RecentRows(h, 30)).Err? ==>
      Predict(h, targetDay, targetWeekday, combinations, jitter, order, count) == Err(Patterns.Patterns(RecentRows(h, 30)).error)
    ensures h != [] && Patterns.Patterns(RecentRows(h, 30)).Ok? ==>
      (Predict(h, targetDay, targetWeekday, combinations, jitter, order, count) == Err(ValueError) <==> count < 0 || count > 20)
  {
    if h != [] && Patterns.Patterns(RecentRows(h, 30)).Ok? {
      var patterns := Patterns.Patterns(RecentRows(h, 30)).value;
      var scores := Scores(h, targetDay, targetWeekday, patterns, combinations, jitter);
      ScoresFacts(h, targetDay, targetWeekday, patterns, combinations, jitter);
      ChooseMeaning(TopNumbers(scores), order, count);
    }
  }
}
