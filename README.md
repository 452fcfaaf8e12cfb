# Luck8 Happy-8 predictor, backtest and record normalisation in Dafny

Happy-8 (快乐8) draws 20 distinct numbers from 1..80. The repository holds three programs. This project models their core:

- **`KL8Predictor`** scores every number from its history of draws:
  - a plain or recency-weighted frequency table over a date window;
  - statistics of draws on the same day of the month or the same weekday;
  - pair, consecutive-pair and zone counts;
  - a four-way trend classification.
  
  It adds a fixed bonus per analysis, multiplies every score by a random jitter factor, and samples the prediction from the 20 best-scored numbers. It also values the ten play types 选一 to 选十 by blending the hypergeometric probability of each prize tier with the tier's frequency in the history, and ranks them.
- **`KL8PredictorTester`** backtests the predictor:
  - it trains a predictor on the draws strictly older than each of the most recent draws;
  - it asks for five predictions of ten numbers and counts the hits of each;
  - it tallies the hit counts into a 0..10 distribution.
- **The history fetcher** does three things:
  - it unwraps the JSONP answer of the lottery site and checks the payload's keys;
  - it normalises each record's winning-number field by splitting on whitespace, converting with `int`, sorting in place and joining with `,`;
  - it sorts the collected records by issue number, newest first.
  
  The normalised field is what the predictor's own parser reads back.

## How the model is built

**Data.**
- A draw is `Draws.Draw(issue, date, dayOfMonth, weekday, numbers)`. The date is a day ordinal, and the two calendar columns that pandas derives from it are given with the record.
- The history is a `seq<Draw>`.
- Python's `Counter` and `defaultdict` become a `Counters.Counter<K>`: a sequence of `(key, weight)` pairs in first-insertion order. Both `.items()` and the stable `sorted(..., reverse=True)` depend on that order.
- Every `sorted(..., key=weight, reverse=True)` is the one stable descending insertion sort `Ranking.SortDesc`.
- Weights, probabilities and scores are `real`, not floats.
- Python exceptions are `Common.Result` errors: `IndexError`, `ValueError`, `KeyError` and `ZeroDivision`.

**Randomness and the calendar** are parameters:
- the 80 jitter factors of `np.random.uniform`;
- the permutation that `np.random.choice(replace=False)` takes its sample from;
- the per-number combination lengths that `generate_potential_combinations` would produce;
- a `calendar` function that gives the day of the month and the weekday of the day after a date.

**Objects.**
- The predictor and the tester only read their tables. Each analysis is therefore a method over the history.
- Its loops are proved equal to a reference function, and the properties are lemmas about that function.
- The tester replaces the predictor's table (`predictor.df = test_df`). The model expresses this by passing the training set to the predictor.

**The fetcher.**
- It is modelled on strings: `Text` is the part of Python's `str` it uses.
- Both in-place sorts (`numbers.sort()` and `all_data.sort(...)`) are insertion sorts on an `array`, proved equal to the functional sorts.

`analyze_trend_patterns` calls `analyze_frequency(days=3)` and `analyze_frequency(days=6)` with the default `weight_recent=True`, so both of its windows are recency-weighted (kl8_predictor.py:311-312).

## Model

| member | source | states |
|---|---|---|
| Common.SortInts | kl8_predictor.py:249 | `sorted(numbers)` is non-decreasing and a permutation (multiset) of its input, of the same length |
| Common.SortDistinctIsStrict | kl8_predictor.py:141 | sorting a draw of distinct numbers gives a strictly ascending list of distinct numbers |
| Common.SortedElements | kl8_predictor.py:181 | `sorted(list(set))` holds exactly the elements of its input, strictly ascending |
| Common.MaxOf | kl8_predictor.py:267 | `max` of a non-empty list is one of its elements and bounds every element |
| Common.MinOf | kl8_predictor.py:289 | `min` of a non-empty list is one of its elements and is at most every element |
| Common.SetOfSize | kl8_predictor_test.py:29 | a set built from a list has at most as many elements as the list, and exactly as many when the list is distinct |
| Counters.Add | kl8_predictor.py:69 | `c[k] += w` raises `k`'s weight by `w`, changes no other key's weight, and appends `k` to the keys only when it was absent |
| Counters.Put | kl8_predictor.py:413 | `c[k] = v` stores `v` at `k`, changes no other weight, and appends `k` only when it was absent |
| Counters.AddAllGet | kl8_predictor.py:68-69 | the counting loop adds `w` to a key once per occurrence of the key in the list |
| Counters.AddAllKeys | kl8_predictor.py:68-69 | after the loop, the keys are those of the counter before plus the counted items |
| Counters.AddAllWellFormed | kl8_predictor.py:68-69 | the loop keeps every key stored once |
| Counters.AddAllTotal | kl8_predictor.py:111-112 | counting with weight 1 raises the total by the number of items counted |
| Counters.AddAllPositive | kl8_predictor.py:68-69 | counting with a positive weight keeps every stored weight positive |
| Counters.AddAllDistinctGet | kl8_predictor.py:259 | counting a list of distinct keys raises each of them by exactly one and nothing else |
| Counters.GetEntry | kl8_predictor.py:315 | `c.get(k, 0)` of a well-formed counter reads the weight stored beside `k` |
| Ranking.SortedDescending | kl8_predictor.py:119-120 | the stable sort by weight, descending, yields a descending permutation of its input |
| Ranking.SortDescStable | kl8_predictor.py:119-120 | among entries of equal weight, the sort keeps their input order |
| Ranking.TopProperties | kl8_predictor.py:284-296 | `sorted(...)[:n]` has at most `n` entries, non-increasing weights, ties in input order, only input entries, and no entry left out outweighs a ranked one |
| Ranking.TopRankBound | kl8_predictor.py:416-419 | the key at rank `i` of a ranked counter has its own weight, and at most `i` keys outweigh it |
| Ranking.SortDescKeysDistinct | kl8_predictor.py:416 | ranking a counter whose keys are stored once keeps every key once |
| Draws.MaxDate | kl8_predictor.py:52 | `df['开奖日期'].max()` is the date of some row and no row is newer |
| Draws.OnOrAfterMembers | kl8_predictor.py:53 | `df[df['开奖日期'] >= cutoff]` holds exactly the rows dated on or after the cutoff |
| Draws.BeforeMembers | kl8_predictor_test.py:54 | `df[df['开奖日期'] < t]` holds exactly the rows dated before `t` |
| Draws.OnDateMembers | kl8_predictor_test.py:19 | `df[df['开奖日期'] == t]` holds exactly the rows dated `t` |
| Draws.SameDayOfMonthMembers | kl8_predictor.py:103 | the same-day selection holds exactly the rows with that day of the month |
| Draws.SameWeekdayMembers | kl8_predictor.py:104 | the same-weekday selection holds exactly the rows with that weekday |
| Draws.WindowMembers | kl8_predictor.py:51-55 | the window of `analyze_frequency` only selects rows of the history |
| Draws.WindowKeepsNewest | kl8_predictor.py:51-53 | a window of a non-negative number of days is never empty on a non-empty history and keeps its newest date |
| Frequency.AnalyzeFrequency | kl8_predictor.py:49-71 | the loops of `analyze_frequency` compute the table `Frequency(h, days, weightRecent)` |
| Frequency.TallyRows | kl8_predictor.py:58-69 | the loop over the selected rows computes their tally under the chosen weighting |
| Frequency.RowWeight | kl8_predictor.py:61-66 | the weight of a row is `1 / (age + 1)` against the window's newest date, or 1 when weighting is off |
| Frequency.AddNumbers | kl8_predictor.py:68-69 | the inner loop adds the row's weight once per number |
| Frequency.RecencyWeightBounds | kl8_predictor.py:63-64 | every recency weight lies in (0, 1], and it is 1 exactly for a row of the newest date |
| Frequency.NewestWeighsOne | kl8_predictor.py:51-64 | within a window, weights are measured against the history's newest date, lie in (0, 1], and the newest rows weigh 1 |
| Frequency.FrequencyTotal | kl8_predictor.py:51-71 | unweighted, the table's total is the number of drawn numbers in the window (20 per well-formed draw), and `days` 0 or `None` selects the whole history |
| Frequency.FrequencyMeaning | kl8_predictor.py:51-71 | the keys are exactly the numbers drawn in the window, each with its weighted count, and a number scores 0 if and only if it was not drawn there |
| Frequency.UnweightedFrequency | kl8_predictor.py:65-69 | unweighted, a number's frequency over well-formed draws is the number of window draws that contain it |
| Frequency.Unscored | kl8_predictor.py:76 | the comprehension yields, strictly ascending, exactly the numbers of 1..n with weight 0 |
| Frequency.AnalyzeColdNumbers | kl8_predictor.py:73-77 | the cold numbers are exactly the numbers of 1..80 not drawn in the window, ascending |
| SamePeriod.AverageWeight | kl8_predictor.py:123-124 | the average is 0 for an empty counter and otherwise times the number of keys gives the total |
| SamePeriod.OddCountCountsOdds | kl8_predictor.py:135 | `odd_count` is the number of odd elements of the reference draw |
| SamePeriod.EvenCountCountsEvens | kl8_predictor.py:136 | `even_count = len(last_draw) - odd_count` is the number of even elements of the reference draw |
| SamePeriod.GapsOfAscending | kl8_predictor.py:139-142 | the gaps of a strictly ascending draw are positive and add up to its largest minus its smallest number |
| SamePeriod.Gaps | kl8_predictor.py:142 | `gaps` has one element fewer than the draw, and none for an empty draw |
| SamePeriod.ZonesTotal | kl8_predictor.py:145-154 | the four zone counters add up to the length of the reference draw |
| SamePeriod.ZonesCount | kl8_predictor.py:145-154 | the first three zones count the numbers in 1-20, 21-40 and 41-60; everything else goes to the last zone |
| SamePeriod.CountZones | kl8_predictor.py:145-154 | the zone loop computes `Zones(last_draw)`, whose counters add up to its length |
| SamePeriod.RunEndingAtMeaning | kl8_predictor.py:161-167 | the run counter at position `i` is the length of the maximal block of consecutive integers ending there |
| SamePeriod.LongestRunMeaning | kl8_predictor.py:156-168 | `max_consecutive` is 0 exactly for an empty draw; otherwise it lies in 1..len, is the length of some run and bounds every run |
| SamePeriod.MaxConsecutive | kl8_predictor.py:157-168 | the loop with `current_consecutive` and `max_consecutive` computes the longest run |
| SamePeriod.CommonElements | kl8_predictor.py:131 | the intersection holds exactly the numbers of both draws |
| SamePeriod.Overlap | kl8_predictor.py:127-131 | `overlap_numbers` is strictly ascending, empty with fewer than two same-day rows, and otherwise exactly the numbers the two newest same-day rows share |
| SamePeriod.AnalyzeHistoricalSamePeriod | kl8_predictor.py:103-186 | every field of the result: the two unweighted counters over the same-day and same-weekday rows, their row counts, top-10 lists and averages, the overlap, and the odd/even split, gaps, zones and longest run of the first same-day row |
| SamePeriod.ReferenceDrawStatistics | kl8_predictor.py:134-168 | for a well-formed reference draw: the odd count lies in 0..20 and the even count `len(last_draw) - odd_count` is the number of even numbers, so the odd and even numbers together are 20; there are 19 positive gaps, the zones add up to 20, and the longest run lies in 1..20 |
| Patterns.CountConsecutivePairs | kl8_predictor.py:252-254 | the loop counts each consecutive-pair key of the sorted draw once |
| Patterns.CountPairs | kl8_predictor.py:257-259 | the double loop counts every key `(s[i], s[j])`, `i < j`, once, in loop order |
| Patterns.CountPairsWith | kl8_predictor.py:258-259 | the inner loop counts the keys of the pairs that start at `i` |
| Patterns.CountZoneTuple | kl8_predictor.py:270-280 | the zone loop builds the zone tuple of the draw |
| Patterns.AnalyzeNumberPatterns | kl8_predictor.py:235-299 | the analysis computes `Patterns` over the rows dated on or after `max date - days` |
| Patterns.ConsecutivePairsMeaning | kl8_predictor.py:252-254 | every consecutive-pair key is `(a, a + 1)` with both numbers drawn, and for an ascending draw `(a, a + 1)` is a key if and only if both were drawn |
| Patterns.AllPairsSize | kl8_predictor.py:257-259 | for a strictly ascending draw the double loop visits `n (n - 1) / 2` distinct keys |
| Patterns.AllPairsMembers | kl8_predictor.py:257-259 | the visited keys are exactly the pairs `(a, b)` of drawn numbers with `a < b` |
| Patterns.PairsOfDraw | kl8_predictor.py:249-259 | a well-formed draw yields 190 distinct pair keys |
| Patterns.PairsOfDrawMembers | kl8_predictor.py:249-259 | the pair keys of a draw of distinct numbers are exactly its pairs `(a, b)` with `a < b` |
| Patterns.PairTableGain | kl8_predictor.py:257-259 | one draw of distinct numbers adds one to each of its pairs `(a, b)`, `a < b`, and nothing to any other key |
| Patterns.PairTableTotal | kl8_predictor.py:257-259 | one well-formed draw raises the pair table's total by 190 |
| Patterns.ZoneTupleTotal | kl8_predictor.py:270-280 | a draw's zone tuple adds up to the draw's length |
| Patterns.PairTableOfRows | kl8_predictor.py:248-259 | over well-formed draws, the pair table's total is 190 per draw |
| Patterns.ZoneTableOfRows | kl8_predictor.py:248-280 | over well-formed draws, every counted zone tuple adds up to 20 |
| Patterns.ConsecutiveTableForm | kl8_predictor.py:248-254 | over well-formed draws, every key of the consecutive-pair table has the form `(a, a + 1)` |
| Patterns.AccumulateSums | kl8_predictor.py:262-267 | the sum list and the max-gap list get one entry per draw |
| Patterns.PatternsMeaning | kl8_predictor.py:235-299 | the analysis fails exactly on an empty window or a draw with fewer than two numbers; otherwise the ranked lists hold at most 5, 10 and 5 entries with non-increasing counts, and the sum range is attained and bounds every sum |
| Trends.Classify | kl8_predictor.py:321-328 | each of the four trends holds exactly for its range of change rates, taking the branches in their order |
| Trends.ChangeRateOf | kl8_predictor.py:315-319 | the change rate computed from the two tables is `ChangeRate(h, num)` |
| Trends.PlaceNumber | kl8_predictor.py:321-328 | appending `num` to the list its change rate selects extends the lists of 1..num-1 to those of 1..num |
| Trends.PlaceAll | kl8_predictor.py:314-328 | the loop over 1..80 builds the four lists of the classification |
| Trends.AnalyzeTrendPatterns | kl8_predictor.py:301-330 | the analysis returns `TrendsOf(h)` |
| Trends.SplitWindow | kl8_predictor.py:53 | the rows on or after `lo` are those on or after `hi` plus those dated in `[lo, hi)`, and their weights add up accordingly |
| Trends.SplitSixThree | kl8_predictor.py:311-316 | the 6-day window's weight is the 3-day window's plus that of the rows 4 to 6 days old |
| Trends.RecencyWindow | kl8_predictor.py:49-64 | with `days > 0` and weighting on, the table tallies the rows on or after `latest - days`, weighed against the newest date |
| Trends.PreviousCountMeaning | kl8_predictor.py:316 | `previous_count` is the weight a number gathers from the rows 4 to 6 days older than the newest row |
| Trends.PreviousCountNonNegative | kl8_predictor.py:316-319 | `previous_count` is never negative, so the denominator `previous_count + 1` is at least 1; with no history both counts are 0 |
| Trends.Bucket | kl8_predictor.py:314-328 | a list is strictly ascending and holds exactly the numbers of 1..n that the classifier puts in its trend |
| Trends.TrendsPartition | kl8_predictor.py:303-330 | every number of 1..80, and nothing else, is in exactly one of the four lists; each list is ascending; together they hold 80 numbers |
| Trends.TrendMembership | kl8_predictor.py:314-328 | a number is in a list if and only if its change rate lies in that list's range |
| Strategy.NumberFromPlayType | kl8_predictor.py:44-47 | the label parses if and only if it has a first character and the rest is one of the ten numerals; the result lies in 1..10; otherwise `KeyError` |
| Strategy.LookupPrizes | kl8_predictor.py:192 | `prize_settings[play_type]` finds the table of a label if and only if the label is a play type |
| Strategy.PlayTypesDistinct | kl8_predictor.py:31-42 | the ten play-type labels are distinct keys |
| Strategy.PrizeSettingsFacts | kl8_predictor.py:25-42 | the `i`-th label names pick size `i + 1`, and its prize table is non-empty with every tier between 0 and the pick size |
| Strategy.PrizesFit | kl8_predictor.py:190-204 | every play type's tiers fit the pick size its label names |
| Strategy.FactorialProduct | kl8_predictor.py:199-200 | `r! (n - r)! C(n, r) == n!` for the binomial coefficient of Pascal's rule |
| Strategy.BinomialPositive | kl8_predictor.py:199-200 | the binomial coefficient is at least 1 when `r <= n` |
| Strategy.NCrIsBinomial | kl8_predictor.py:199-200 | the floor division in `nCr` is exact: `nCr(n, r)` equals `n! / (r! (n - r)!)` |
| Strategy.NCrPositive | kl8_predictor.py:199-200 | `nCr(n, r) >= 1` when `r <= n`, so the probability's denominator never vanishes |
| Strategy.PickOneChance | kl8_predictor.py:207 | the theoretical probability that one picked number is among the 20 drawn is 20/80 |
| Strategy.SelfHitsDistinct | kl8_predictor.py:212 | the first `n` numbers of a distinct draw meet the draw itself in `min(n, len)` numbers |
| Strategy.HitTimesValid | kl8_predictor.py:210-213 | over well-formed draws, `hit_times` is the number of draws when `hit_num == numbers_count` and 0 otherwise |
| Strategy.CountHitTimes | kl8_predictor.py:210-213 | the counting loop computes `hit_times` |
| Strategy.SumTiers | kl8_predictor.py:203-218 | the tier loop fails with `ZeroDivisionError` on an empty history and otherwise sums the blended probability times the prize over the tiers |
| Strategy.EvaluateLookedUp | kl8_predictor.py:190-220 | once the label is parsed and looked up, the method computes `Evaluate` |
| Strategy.EvaluateOk | kl8_predictor.py:195-220 | a parsed label with a prize table on a non-empty history is worth the tier sum minus the cost of 2 |
| Strategy.CalculateExpectedValue | kl8_predictor.py:188-220 | the method computes `ExpectedValue(rows, play_type)` |
| Strategy.ExpectedValueErrors | kl8_predictor.py:188-220 | the value fails with `KeyError` exactly for labels that are no play type, and with `ZeroDivisionError` exactly for a play type on an empty history |
| Strategy.ExpectedValueOk | kl8_predictor.py:188-230 | every play type has a value exactly when the history is non-empty, and its label names pick size `i + 1` |
| Strategy.PickOneValue | kl8_predictor.py:203-220 | over well-formed draws, "pick 1" is worth `(0.3 * 1/4 + 0.7 * 1) * 4.6 - 2 = 1.565` |
| Strategy.FindBestStrategy | kl8_predictor.py:222-233 | the method computes `BestStrategies(rows)` |
| Strategy.BestStrategiesMeaning | kl8_predictor.py:222-233 | on a non-empty history: all ten play types, a permutation of the table-order list, ranked by expected value highest first, ties in table order, each keyed by its own value and with a pick size in 1..10 |
| Prediction.PairNumbers | kl8_predictor.py:377-380 | `common_pairs` holds exactly the numbers that occur in one of the ranked pairs |
| Prediction.CollectPairNumbers | kl8_predictor.py:377-380 | the loop collects `PairNumbers` |
| Prediction.AddScaled | kl8_predictor.py:360-365 | `number_scores[num] += freq * factor` over a table's items |
| Prediction.SamePeriodBonus | kl8_predictor.py:372-374 | the same-period bonus of one number: each frequency divided by its row count (at least 1), times 0.1 |
| Prediction.AddSamePeriod | kl8_predictor.py:371-374 | the loop over 1..80 adds the same-period bonus |
| Prediction.AddPairBonus | kl8_predictor.py:383-388 | one number gains 0.2 when it is in a common pair, plus 0.1 * len / 20 per combination |
| Prediction.AddCombinations | kl8_predictor.py:387-388 | the inner loop adds `0.1 * len / 20` per combination |
| Prediction.AddPairBonuses | kl8_predictor.py:382-388 | the pair loop over 1..80 adds the pair-stage bonus |
| Prediction.AddTrendBonuses | kl8_predictor.py:391-397 | the trend loop over 1..80 adds the trend-stage bonus |
| Prediction.AddOverlapBonuses | kl8_predictor.py:400-403 | the overlap loop over 1..80 adds 0.1 to the overlap numbers |
| Prediction.AddParityBonuses | kl8_predictor.py:405-409 | the parity loop over 1..80 adds the parity-stage bonus |
| Prediction.ApplyJitter | kl8_predictor.py:412-413 | the jitter loop multiplies every number's score by its factor |
| Prediction.AddAllBonuses | kl8_predictor.py:371-409 | the five bonus loops run in their order |
| Prediction.ScoreBeforeJitter | kl8_predictor.py:356-409 | the loops up to the parity bonus compute `Unjittered` |
| Prediction.ScoreNumbers | kl8_predictor.py:356-413 | all scoring loops compute `Scores` |
| Prediction.ChooseNumbers | kl8_predictor.py:416-420 | the selection computes `Choose(TopNumbers(scores), order, count)` |
| Prediction.PredictNextNumbers | kl8_predictor.py:332-422 | `predict_next_numbers` computes `Predict` from the analyses it runs |
| Prediction.AddTwice | kl8_predictor.py:383-388 | two additions to one key are one addition of their sum |
| Prediction.AddZero | kl8_predictor.py:382-388 | adding nothing to a stored key leaves the table as it is |
| Prediction.AddBonusHasKey | kl8_predictor.py:371-409 | the bonus loops keep every number 1..80 in the table |
| Prediction.StagesKeep | kl8_predictor.py:371-409 | the bonus loops keep every key stored once, and once one has run every number 1..80 has a score |
| Prediction.ScoresWellFormed | kl8_predictor.py:356-413 | the final table stores each number once and holds every number 1..80 |
| Prediction.AllNumbersSize | kl8_predictor.py:416-419 | a table holding every number 1..80 has at least 80 keys |
| Prediction.TopFacts | kl8_predictor.py:416-419 | such a table has 20 distinct numbers at its top |
| PredictionFacts.TrendBonusOf | kl8_predictor.py:391-397 | a number's trend bonus is the value of its own trend, since the first list holding it is its own |
| PredictionFacts.TrendRule | kl8_predictor.py:391-397 | the trend stage adds 0.2 to a cold-to-hot number, 0.15 to a stable one, 0.1 to a volatile one and nothing to a hot-to-cold one |
| PredictionFacts.ParityRule | kl8_predictor.py:405-409 | the parity stage adds 0.1 to odd numbers when the reference draw has more than 10 odd numbers, 0.1 to even numbers when it has fewer than 10, and nothing at exactly 10 |
| PredictionFacts.AddStagesGet | kl8_predictor.py:371-409 | each bonus loop adds its bonus to every number of 1..n |
| PredictionFacts.StagesOfBonus | kl8_predictor.py:371-409 | the five stages add the same-period, pair, trend, overlap and parity bonus of each number |
| PredictionFacts.UnjitteredGet | kl8_predictor.py:356-409 | before the jitter, every number 1..80 has its `BaseScore` (weighted frequencies plus all bonuses) |
| PredictionFacts.ScoresGet | kl8_predictor.py:356-413 | the final score of every number 1..80 is its `BaseScore` times its jitter factor |
| PredictionFacts.ScoreKeys | kl8_predictor.py:356-413 | over well-formed draws, the score table holds exactly the numbers 1..80 |
| PredictionFacts.OccursInRange | kl8_predictor.py:360-365 | a number that occurs in a window of well-formed draws is one of 1..80 |
| PredictionFacts.SampleDistinct | kl8_predictor.py:420 | distinct sampled positions of distinct numbers give distinct numbers |
| PredictionFacts.SampleMembers | kl8_predictor.py:420 | every sampled number is one of the top 20 |
| PredictionFacts.ChooseMeaning | kl8_predictor.py:420 | the sample fails with `ValueError` exactly when `count` is negative or exceeds the population; otherwise it is `count` distinct numbers of the population, ascending |
| PredictionFacts.TopNumberRank | kl8_predictor.py:416-419 | a number among the top 20 is a key of the table that fewer than 20 keys outscore |
| PredictionFacts.SelectionMeaning | kl8_predictor.py:416-420 | a successful selection from a full table is `count` (at most 20) distinct numbers, ascending, each outscored by fewer than 20 numbers |
| PredictionFacts.PredictionMeaning | kl8_predictor.py:332-422 | a successful prediction needs a non-empty history whose pattern analysis succeeds, and is `count` distinct numbers, ascending, each among the top 20 and outscored by fewer than 20 numbers |
| PredictionFacts.PredictionErrors | kl8_predictor.py:332-422 | an empty history raises `IndexError`; a failing pattern analysis passes its error on; otherwise `ValueError` is raised exactly when `count` is negative or more than 20 |
| Backtest.KL8TenAscending | kl8_predictor_test.py:26 | every successful `predict_next_numbers(10)` answer is ten distinct numbers, ascending |
| Backtest.HitCountBounds | kl8_predictor_test.py:29 | a hit count never exceeds the length of the prediction or that of the actual numbers |
| Backtest.HitCountMeaning | kl8_predictor_test.py:29 | a number is a hit if and only if it is predicted and drawn |
| Backtest.HitCountsAt | kl8_predictor_test.py:25-30 | the `j`-th hit count is the hit count of the `j`-th prediction |
| Backtest.PredictionsAt | kl8_predictor_test.py:25-27 | each prediction of a successful trial is the answer of its own call |
| Backtest.TestSingleDraw | kl8_predictor_test.py:16-39 | the method computes `SingleDraw` |
| Backtest.SingleDrawMeaning | kl8_predictor_test.py:16-39 | no row with the test date raises `IndexError`; a successful trial has the test date and the numbers of the first row with that date, and is well counted |
| Backtest.CountedTrial | kl8_predictor_test.py:25-38 | five predictions of ten ascending numbers make a well-counted trial: five hit counts in 0..10, `max_hits` their maximum and `avg_hits` their mean |
| Backtest.TrialCount | kl8_predictor_test.py:44 | the trial count is `min(num_draws, len - 1)`, or 0 when that is negative |
| Backtest.RunPass | kl8_predictor_test.py:50-70 | one pass of the loop computes `Attempt` for its test date |
| Backtest.PassStep | kl8_predictor_test.py:49-70 | after one more pass, the results are extended by that pass's attempt |
| Backtest.TestMultipleDraws | kl8_predictor_test.py:41-73 | the results are the first `min(num_draws, len - 1)` passes, and the report is made on them unless a pass raised |
| Backtest.TrialsStayFailed | kl8_predictor_test.py:49-70 | an exception ends the run: no later pass changes a failed run |
| Backtest.TrainingCausal | kl8_predictor_test.py:54 | the training set holds exactly the draws older than the test date, so never a draw of the test date |
| Backtest.AttemptSkips | kl8_predictor_test.py:56-58 | a pass with an empty training set is skipped and appends nothing |
| Backtest.AttemptDate | kl8_predictor_test.py:49-70 | a pass skips only an empty training set and otherwise tests its own date |
| Backtest.AttemptCounted | kl8_predictor_test.py:61-70 | with a predictor that answers ten ascending numbers, every trial a pass makes is well counted |
| Backtest.PassOfMeaning | kl8_predictor_test.py:49-70 | the passes test their own dates, and with such a predictor every trial they make is well counted |
| Backtest.TrainingHasNext | kl8_predictor_test.py:54-58 | with strictly decreasing dates, every row but the last has an older draw to train on |
| Backtest.NoSkips | kl8_predictor_test.py:49-70 | with distinct dates no trial is skipped: a successful run has one result per pass, the `i`-th testing row `i` |
| Backtest.TrialsKeep | kl8_predictor_test.py:49-70 | every result of a run has any property that every trial has |
| Backtest.AddHits | kl8_predictor_test.py:91-92 | the inner loop bumps the bucket of every hit count, or raises `KeyError` on a hit count above 10 |
| Backtest.GenerateTestReport | kl8_predictor_test.py:75-117 | the method computes `TestReport` |
| Backtest.BumpCounts | kl8_predictor_test.py:91-92 | bumping adds to bucket `v` the number of hit counts equal to `v` |
| Backtest.BumpTotal | kl8_predictor_test.py:89-92 | bumping in-range hit counts adds one to the total per hit count |
| Backtest.BumpFivePlus | kl8_predictor_test.py:89-92 | bumping adds one to the buckets from 5 up per hit count of at least 5 |
| Backtest.DistributionCounts | kl8_predictor_test.py:89-92 | bucket `v` of the distribution counts the hit counts equal to `v` |
| Backtest.DistributionSums | kl8_predictor_test.py:89-92 | with every hit count a key, the buckets add up to the number of hit counts, and those from 5 up to the number of hit counts of at least 5 |
| Backtest.AllHitsLength | kl8_predictor_test.py:84 | five hit counts per trial make `5 * len(results)` |
| Backtest.RateBound | kl8_predictor_test.py:115 | a share of a positive whole that does not exceed it is a percentage in [0, 100] |
| Backtest.ReportMeaning | kl8_predictor_test.py:75-117 | no results raise `ZeroDivisionError` (line 86); a hit count that is not a key raises `KeyError`; otherwise the report counts trials and predictions, bucket `v` counts the hit counts equal to `v`, the buckets add up to all hit counts, and `hit_5_plus` counts those of at least 5 |
| Backtest.CountedReport | kl8_predictor_test.py:84-115 | on well-counted trials the distribution adds up to `total_predictions`, `hit_5_plus` lies in 0..`total_predictions`, and its rate is a percentage |
| Backtest.RunMeaning | kl8_predictor_test.py:41-117 | with distinct dates and a predictor like `KL8`: one well-counted trial per test date, the `i`-th testing row `i`; the report succeeds exactly when some trial was run, and its distribution adds up to `total_predictions` |
| Text.IndexOf | fetch_kl8_history.py:53 | `str.index` finds the first occurrence, and nothing exactly when the character is absent |
| Text.LastIndexOf | fetch_kl8_history.py:53 | `str.rindex` finds the last occurrence, and nothing exactly when the character is absent |
| Text.Slice | fetch_kl8_history.py:53 | `s[lo:hi]` has `hi - lo` characters, and none when `hi < lo` |
| Text.StripLeftMeaning | fetch_kl8_history.py:119 | the left strip drops a whitespace prefix and leaves no whitespace in front |
| Text.StripRightMeaning | fetch_kl8_history.py:119 | the right strip drops a whitespace suffix and leaves no whitespace at the end |
| Text.StripNoSpace | fetch_kl8_history.py:119 | stripping a string without whitespace leaves it alone |
| Text.Words | fetch_kl8_history.py:119 | `str.split()` yields non-empty words without whitespace |
| Text.StripWords | fetch_kl8_history.py:119 | `strip().split()` gives the same words as `split()` |
| Text.SplitOn | kl8_predictor.py:14 | `x.split(',')` yields at least one piece |
| Text.SplitJoin | kl8_predictor.py:14 | splitting `','.join(pieces)` on `','` gives back the pieces when none is empty or holds the separator |
| Text.ParseInt | fetch_kl8_history.py:120 | `int(s)` fails only with `ValueError` |
| Text.ParseAll | fetch_kl8_history.py:120 | `[int(n) for n in ns]` converts every token, or fails with `ValueError` when some token does not parse |
| Text.NatToStringValue | fetch_kl8_history.py:122 | the decimal digits of `str(n)` denote `n` |
| Text.ParseIntToString | fetch_kl8_history.py:122 | `int(str(n)) == n` for every integer |
| Text.IntToStringNoComma | fetch_kl8_history.py:122 | `str(n)` contains no comma |
| Fetcher.UnwrapJsonp | fetch_kl8_history.py:53 | the unwrap succeeds if and only if the text holds both `(` and `)`, and otherwise fails with `ValueError` |
| Fetcher.UnwrapJsonpSlice | fetch_kl8_history.py:53 | the result is the text strictly between the first `(` and the last `)`, or empty when the last `)` comes first |
| Fetcher.UnwrapWrapped | fetch_kl8_history.py:53 | `callback(body)` with no `(` in the callback unwraps to `body` |
| Fetcher.FetchPageMeaning | fetch_kl8_history.py:47-70 | a page is accepted if and only if the status is 200, the unwrap and `json.loads` succeed, the payload has the keys `data`, `pages` and `total` and `len(data['data'])` succeeds; then it is the loaded payload, and every failure gives `None` |
| Fetcher.FetchWrapped | fetch_kl8_history.py:47-63 | a 200 answer `callback(body)` whose body loads as a well-shaped payload with a sized `data` entry is accepted as that payload |
| Fetcher.ParseAllStrs | fetch_kl8_history.py:122 | converting every `str(n)` back with `int` gives back the list |
| Fetcher.NormaliseRoundTrip | fetch_kl8_history.py:119-122 | normalisation succeeds exactly when every word parses; the predictor's parser at kl8_predictor.py:14 then reads back the sorted numbers, a non-decreasing permutation of the input's; an empty field becomes `""`, which the parser rejects |
| Fetcher.SortInPlace | fetch_kl8_history.py:121 | `numbers.sort()` leaves the array holding `sorted(numbers)` |
| Fetcher.InsertIntoTail | fetch_kl8_history.py:121 | one step of the in-place sort inserts an element into the sorted tail and leaves the front alone |
| Fetcher.ProcessItem | fetch_kl8_history.py:115-124 | processing one item computes `NormaliseItem`: `KeyError` for a missing key, the normalisation's error, or the row `[issue, date, numbers]` |
| Fetcher.ProcessPage | fetch_kl8_history.py:112-130 | the loop appends the rows of the longest prefix of items that process, keeps the rows it had, and reports success exactly when every item processed, the next item having failed otherwise |
| Fetcher.Keyed | fetch_kl8_history.py:141 | the sort key `int(x[0])` is computed for every row, and fails with `ValueError` exactly when some issue does not parse |
| Fetcher.SortByIssueMeaning | fetch_kl8_history.py:141 | the sort fails exactly when some issue does not parse; otherwise it is a permutation of the rows, descending by integer issue, with rows of equal issue in their original order |
| Fetcher.SortAllData | fetch_kl8_history.py:141 | `all_data.sort(key=..., reverse=True)` leaves the array holding `SortByIssue`, or leaves it unchanged and reports the error |
| Fetcher.SortDescInPlace | fetch_kl8_history.py:141 | the in-place stable descending sort leaves the array holding `SortDesc` of its old contents |
| Fetcher.InsertDescIntoTail | fetch_kl8_history.py:141 | one step inserts an element into the sorted tail and leaves the front alone |

## Left out

- File I/O and pandas: `pd.read_csv`, the CSV writer and the `main` functions. The history is an in-memory `seq<Draw>`, and the fetcher's records are `Fetcher.Row` values.
- The calendar: `pd.to_datetime`, `.dt.day`, `.dt.dayofweek`, `timedelta` and the `Timestamp.now()` fallback. Dates are day ordinals with given calendar fields, and the day after the newest draw comes from the `calendar` parameter of `Backtest.TestMultipleDraws`.
- The `month` column is not modelled, because no analysis reads it.
- Randomness: `np.random.uniform`, `np.random.choice` and `np.random.shuffle` are not modelled. Their outcomes are parameters: 80 jitter factors and a permutation of the 20 top positions. `Backtest.KL8` answers `ValueError` when a call's permutation is not one.
- `generate_potential_combinations` is left out because it depends on the shuffle and on float statistics, and its inner `while` need not terminate. Its per-number list of combination lengths is an input of the prediction.
- Floating point: reals replace IEEE doubles, so rounding and float ties in scores or expected values are not modelled.
- `np.mean` and `np.std` of the sum and gap lists are left out. The model keeps the lists; min and max are modelled.
- Printing, progress messages, `datetime.now()` and `generate_prediction_report` are left out, because they only produce text. The test report keeps every value it prints.
- Network and pacing: the HTTP request, its headers, the retry loop, `time.sleep` and the page loop are left out. `Fetcher.ProcessPage` models one page's loop; the `continue` at fetch_kl8_history.py:130 re-fetches the same page and is part of that page loop.
- `json.loads` is a foreign call and is the `loads` parameter of `Fetcher.FetchPage`; whether `len()` accepts the loaded `data` entry (a list, string or object, not a number or `null`) is its `sized` parameter. A payload that is not a JSON object is not modelled.
- Backtest.TestMultipleDraws: the source constructs `KL8Predictor` for every trial. The model takes the predictor as a `predict` parameter, and `Backtest.KL8` is the `KL8Predictor` instance, about which `Backtest.KL8TenAscending` is proved.
- Backtest.KL8: the `ValueError` that `np.random.choice` raises on an invalid sample is an explicit guard on the permutation parameter instead of a property of numpy.
- Text.ParseInt: accepts ASCII digits, an optional sign and surrounding whitespace, not Unicode digits or the underscores that Python's `int` also takes, because the site's fields are plain decimal numbers.
- Fetcher.SortInPlace and Fetcher.SortAllData: CPython's `list.sort` is a timsort. The model sorts by insertion and proves the result equal to the stable sort, which is the only thing the source relies on.
- Prize tiers: the tier labels `中h` are stored with their number `h`, so `int(hit_count[1:])` on these constant labels is not modelled.
- SamePeriod.AnalyzeHistoricalSamePeriod: `target_date` arrives as its day of the month and weekday, so the `None`/`NaN` and conversion branches at kl8_predictor.py:81-100 are not modelled.
