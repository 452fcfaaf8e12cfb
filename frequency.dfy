/** `KL8Predictor.analyze_frequency` and `analyze_cold_numbers`: how often
    each number was drawn in a date window, optionally weighting every draw
    by `1 / (age in days + 1)`. */
module Frequency {
  import opened Common
  import opened Counters
  import opened Draws

  /** How a draw's occurrences are weighted: by 1, or by recency relative to
      the newest date `latest` of the rows being counted. */
  datatype Weighting = Unweighted | Recency(latest: int)

  /** Recency weighting is only applied to rows no newer than `latest`
      (the age `latest - date` is then never negative). */
  predicate Admissible(wt: Weighting, data: seq<Draw>) {
    wt.Recency? ==> forall i :: 0 <= i < |data| ==> data[i].date <= wt.latest
  }

  function Weight(wt: Weighting, d: Draw): real
    requires wt.Recency? ==> d.date <= wt.latest
  {
    match wt
    case Unweighted => 1.0
    case Recency(latest) => 1.0 / ((latest - d.date + 1) as real)
  }

  /** The weighting `analyze_frequency` uses for the selected rows. */
  function WeightingFor(data: seq<Draw>, weightRecent: bool): (wt: Weighting)
    ensures Admissible(wt, data)
  {
    if weightRecent && data != [] then Recency(MaxDate(data)) else Unweighted
  }

  /** The counter after the loop over `data`, each draw adding its weight to
      each of its numbers. */
  function Tally(data: seq<Draw>, wt: Weighting): Counter<int>
    requires Admissible(wt, data)
    decreases |data|
  {
    if data == [] then []
    else
      var last := data[|data| - 1];
      AddAll(Tally(data[..|data| - 1], wt), last.numbers, Weight(wt, last))
  }

  /** The table `analyze_frequency(days, weight_recent)` returns. */
  function Frequency(h: seq<Draw>, days: int, weightRecent: bool): Counter<int> {
    var data := Window(h, days);
    Tally(data, WeightingFor(data, weightRecent))
  }

  method AnalyzeFrequency(h: seq<Draw>, days: int, weightRecent: bool) returns (frequency: Counter<int>)
    ensures frequency == Frequency(h, days, weightRecent)
  {
    var data := Window(h, days);
    frequency := TallyRows(data, weightRecent);
  }

  /** The counting loop of `analyze_frequency` over the selected rows. */
  method TallyRows(data: seq<Draw>, weightRecent: bool) returns (frequency: Counter<int>)
    ensures frequency == Tally(data, WeightingFor(data, weightRecent))
  {
    var wt := WeightingFor(data, weightRecent);
    frequency := [];
    var i := 0;
    while i < |data|
      invariant 0 <= i <= |data|
      invariant frequency == Tally(data[..i], wt)
    {
      var weight := RowWeight(data, i, weightRecent);
      AdmissiblePrefix(wt, data, i);
      frequency := AddNumbers(frequency, data[i].numbers, weight);
      TallyStep(data, i, wt);
      i := i + 1;
    }
    assert data[..i] == data;
  }

  /** The weight of row `i`: `1 / (days_diff + 1)` with `days_diff` its age
      relative to the newest row, or 1 when weighting is off. */
  method RowWeight(data: seq<Draw>, i: int, weightRecent: bool) returns (weight: real)
    requires 0 <= i < |data|
    ensures weight == Weight(WeightingFor(data, weightRecent), data[i])
  {
    if weightRecent {
      var daysDiff := MaxDate(data) - data[i].date;
      weight := 1.0 / ((daysDiff + 1) as real);
    } else {
      weight := 1.0;
    }
  }

  /** The inner loop of `analyze_frequency`: `for num in numbers: frequency[num] += weight`. */
  method AddNumbers(c: Counter<int>, numbers: seq<int>, weight: real) returns (r: Counter<int>)
    ensures r == AddAll(c, numbers, weight)
  {
    r := c;
    var j := 0;
    while j < |numbers|
      invariant 0 <= j <= |numbers|
      invariant r == AddAll(c, numbers[..j], weight)
    {
      AddAllPrefixStep(c, numbers, j, weight);
      r := Add(r, numbers[j], weight);
      j := j + 1;
    }
    assert numbers[..j] == numbers;
  }

  lemma AdmissiblePrefix(wt: Weighting, data: seq<Draw>, i: int)
    requires Admissible(wt, data)
    requires 0 <= i <= |data|
    ensures Admissible(wt, data[..i])
  {
  }

  lemma TallyStep(data: seq<Draw>, i: int, wt: Weighting)
    requires Admissible(wt, data)
    requires 0 <= i < |data|
    ensures Tally(data[..i + 1], wt) == AddAll(Tally(data[..i], wt), data[i].numbers, Weight(wt, data[i]))
  {
    assert data[..i + 1][..i] == data[..i];
  }

  // ---------------------------------------------------------------------
  // What the table holds.

  /** Some row of `data` contains `k`. */
  predicate Occurs(data: seq<Draw>, k: int) {
    exists i :: 0 <= i < |data| && k in data[i].numbers
  }

  /** The weight `k` gathers over `data`: each row adds its weight once per
      occurrence of `k` (see `RepeatedWeight`: `weight(row) * row.count(k)`). */
  function WeightedCount(data: seq<Draw>, wt: Weighting, k: int): real
    requires Admissible(wt, data)
    decreases |data|
  {
    if data == [] then 0.0
    else
      var last := data[|data| - 1];
      WeightedCount(data[..|data| - 1], wt, k) + ScaledCount(last.numbers, Weight(wt, last), k)
  }

  /** The total number of drawn numbers in `data`. */
  function NumberCount(data: seq<Draw>): nat
    decreases |data|
  {
    if data == [] then 0 else NumberCount(data[..|data| - 1]) + |data[|data| - 1].numbers|
  }

  lemma {:induction false} TallyGet(data: seq<Draw>, wt: Weighting, k: int)
    requires Admissible(wt, data)
    ensures Get(Tally(data, wt), k) == WeightedCount(data, wt, k)
    decreases |data|
  {
    if data != [] {
      var init := data[..|data| - 1];
      var last := data[|data| - 1];
      var weight := Weight(wt, last);
      TallyGet(init, wt, k);
      AddAllAdds(Tally(init, wt), last.numbers, weight, k);
    }
  }

  lemma {:induction false} TallyKeys(data: seq<Draw>, wt: Weighting, k: int)
    requires Admissible(wt, data)
    ensures k in Keys(Tally(data, wt)) <==> Occurs(data, k)
    decreases |data|
  {
    if data != [] {
      var init := data[..|data| - 1];
      var last := data[|data| - 1];
      TallyKeys(init, wt, k);
      AddAllKeys(Tally(init, wt), last.numbers, Weight(wt, last), k);
      if Occurs(data, k) {
        var i :| 0 <= i < |data| && k in data[i].numbers;
        if i < |init| {
          assert init[i] == data[i];
        }
      }
      if Occurs(init, k) {
        var i :| 0 <= i < |init| && k in init[i].numbers;
        assert data[i] == init[i];
      }
    }
  }

  lemma {:induction false} TallyWellFormed(data: seq<Draw>, wt: Weighting)
    requires Admissible(wt, data)
    ensures WellFormed(Tally(data, wt))
    decreases |data|
  {
    if data != [] {
      var init := data[..|data| - 1];
      TallyWellFormed(init, wt);
      AddAllWellFormed(Tally(init, wt), data[|data| - 1].numbers, Weight(wt, data[|data| - 1]));
    }
  }

  lemma {:induction false} TallyTotal(data: seq<Draw>)
    ensures Total(Tally(data, Unweighted)) == NumberCount(data) as real
    decreases |data|
  {
    if data != [] {
      var init := data[..|data| - 1];
      TallyTotal(init);
      AddAllTotal(Tally(init, Unweighted), data[|data| - 1].numbers);
    }
  }

  /** Recency weights lie in (0, 1], and exactly the newest rows weigh 1. */
  lemma RecencyWeightBounds(latest: int, d: Draw)
    requires d.date <= latest
    ensures 0.0 < Weight(Recency(latest), d) <= 1.0
    ensures Weight(Recency(latest), d) == 1.0 <==> d.date == latest
  {
    var age := (latest - d.date + 1) as real;
    assert age >= 1.0;
  }

  lemma {:induction false} TallyPositive(data: seq<Draw>, wt: Weighting)
    requires Admissible(wt, data)
    ensures Positive(Tally(data, wt))
    decreases |data|
  {
    if data != [] {
      var init := data[..|data| - 1];
      var last := data[|data| - 1];
      TallyPositive(init, wt);
      if wt.Recency? {
        RecencyWeightBounds(wt.latest, last);
      }
      AddAllPositive(Tally(init, wt), last.numbers, Weight(wt, last));
    }
  }

  // ---------------------------------------------------------------------
  // The properties the predictor relies on.

  /** Unweighted, the table's total weight is the number of drawn numbers in the
      window: 20 per draw for well-formed draws. A falsy `days` selects the whole
      history. */
  lemma FrequencyTotal(h: seq<Draw>, days: int)
    ensures Total(Frequency(h, days, false)) == NumberCount(Window(h, days)) as real
    ensures AllValid(Window(h, days)) ==> NumberCount(Window(h, days)) == 20 * |Window(h, days)|
    ensures days == 0 ==> Window(h, days) == h
  {
    var data := Window(h, days);
    TallyTotal(data);
    if AllValid(data) {
      ValidNumberCount(data);
    }
  }

  lemma {:induction false} ValidNumberCount(data: seq<Draw>)
    requires AllValid(data)
    ensures NumberCount(data) == 20 * |data|
    decreases |data|
  {
    if data != [] {
      ValidNumberCount(data[..|data| - 1]);
    }
  }

  /** The table's keys are exactly the numbers drawn in the window, each with its
      (weighted) count; with weighting on, every key's weight is positive, so a
      number scores 0 exactly when it was not drawn in the window. */
  lemma FrequencyMeaning(h: seq<Draw>, days: int, weightRecent: bool, k: int)
    ensures WellFormed(Frequency(h, days, weightRecent))
    ensures k in Keys(Frequency(h, days, weightRecent)) <==> Occurs(Window(h, days), k)
    ensures var data := Window(h, days);
      Get(Frequency(h, days, weightRecent), k) == WeightedCount(data, WeightingFor(data, weightRecent), k)
    ensures Get(Frequency(h, days, weightRecent), k) == 0.0 <==> !Occurs(Window(h, days), k)
  {
    var data := Window(h, days);
    var wt := WeightingFor(data, weightRecent);
    var c := Tally(data, wt);
    TallyWellFormed(data, wt);
    TallyKeys(data, wt, k);
    TallyGet(data, wt, k);
    TallyPositive(data, wt);
    if k in Keys(c) {
      GetPositive(c, k);
    } else {
      GetAbsent(c, k);
    }
  }

  /** The number of rows of `data` that contain `k`. */
  function RowsContaining(data: seq<Draw>, k: int): nat
    decreases |data|
  {
    if data == [] then 0
    else RowsContaining(data[..|data| - 1], k) + (if k in data[|data| - 1].numbers then 1 else 0)
  }

  lemma {:induction false} UnweightedCountsRows(data: seq<Draw>, k: int)
    requires AllValid(data)
    ensures WeightedCount(data, Unweighted, k) == RowsContaining(data, k) as real
    decreases |data|
  {
    if data != [] {
      var last := data[|data| - 1];
      UnweightedCountsRows(data[..|data| - 1], k);
      RepeatedWeight(last.numbers, 1.0, k);
      OccurrencesDistinct(last.numbers, k);
    }
  }

  /** Unweighted, over well-formed draws, a number's frequency is the number of
      draws of the window that contain it. */
  lemma UnweightedFrequency(h: seq<Draw>, days: int, k: int)
    requires AllValid(h)
    ensures Get(Frequency(h, days, false), k) == RowsContaining(Window(h, days), k) as real
  {
    var data := Window(h, days);
    WindowMembers(h, days);
    assert forall i :: 0 <= i < |data| ==> data[i] in h;
    TallyGet(data, Unweighted, k);
    UnweightedCountsRows(data, k);
  }

  /** With recency weighting, the newest row of a window of `days >= 0` weighs
      exactly 1 and every row weighs at most 1. */
  lemma NewestWeighsOne(h: seq<Draw>, days: int, i: int)
    requires h != [] && days >= 0
    requires 0 <= i < |Window(h, days)|
    ensures WeightingFor(Window(h, days), true) == Recency(MaxDate(h))
    ensures 0.0 < Weight(Recency(MaxDate(h)), Window(h, days)[i]) <= 1.0
    ensures Window(h, days)[i].date == MaxDate(h) ==> Weight(Recency(MaxDate(h)), Window(h, days)[i]) == 1.0
  {
    WindowKeepsNewest(h, days);
    RecencyWeightBounds(MaxDate(h), Window(h, days)[i]);
  }

  // ---------------------------------------------------------------------
  // analyze_cold_numbers

  /** `[num for num in range(1, n + 1) if c.get(num, 0) == 0]`. */
  function Unscored(c: Counter<int>, n: int): (r: seq<int>)
    ensures StrictlyAscending(r)
    ensures forall x :: x in r <==> 1 <= x <= n && Get(c, x) == 0.0
    ensures forall i :: 0 <= i < |r| ==> r[i] <= n
    decreases n
  {
    if n <= 0 then []
    else
      var init := Unscored(c, n - 1);
      if Get(c, n) == 0.0 then
        AppendAscending(init, n);
        init + [n]
      else init
  }

  /** The cold numbers are exactly the numbers of 1..80 not drawn in the window,
      ascending. */
  method AnalyzeColdNumbers(h: seq<Draw>, days: int) returns (cold: seq<int>)
    ensures StrictlyAscending(cold)
    ensures forall x :: x in cold <==> 1 <= x <= 80 && !Occurs(Window(h, days), x)
  {
    var frequency := AnalyzeFrequency(h, days, true);
    cold := Unscored(frequency, 80);
    forall x ensures x in cold <==> 1 <= x <= 80 && !Occurs(Window(h, days), x) {
      FrequencyMeaning(h, days, true, x);
    }
  }
}
