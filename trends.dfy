/** `KL8Predictor.analyze_trend_patterns`: each number of 1..80 is put in one
    of four lists by how its recency-weighted frequency over the last 3 days
    compares with the rest of its weight over the last 6 days. */
module Trends {
  import opened Common
  import opened Counters
  import opened Draws
  import opened Frequency

  datatype Trend = HotToCold | ColdToHot | Stable | Volatile

  datatype TrendLists = TrendLists(hotToCold: seq<int>, coldToHot: seq<int>, stable: seq<int>, volatile: seq<int>)

  function Abs(x: real): real {
    if x < 0.0 then -x else x
  }

  /** The branches in their order: `<= -0.5`, then `>= 0.5`, then `|rate| < 0.2`,
      else volatile. */
  function Classify(rate: real): (t: Trend)
    ensures t == HotToCold <==> rate <= -0.5
    ensures t == ColdToHot <==> rate >= 0.5
    ensures t == Stable <==> -0.2 < rate < 0.2
    ensures t == Volatile <==> -0.5 < rate <= -0.2 || 0.2 <= rate < 0.5
  {
    if rate <= -0.5 then HotToCold
    else if rate >= 0.5 then ColdToHot
    else if Abs(rate) < 0.2 then Stable
    else Volatile
  }

  /** `analyze_frequency(days=3).get(num, 0)`; `weight_recent` keeps its default `True`. */
  function RecentCount(h: seq<Draw>, k: int): real {
    Get(Frequency.Frequency(h, 3, true), k)
  }

  /** `analyze_frequency(days=6).get(num, 0) - recent_count`. */
  function PreviousCount(h: seq<Draw>, k: int): real {
    Get(Frequency.Frequency(h, 6, true), k) - RecentCount(h, k)
  }

  /** `(recent_count - previous_count) / (previous_count + 1)`. */
  function Rate(recent: real, previous: real): real
    requires previous >= 0.0
  {
    (recent - previous) / (previous + 1.0)
  }

  /** The change rate of `k`; its denominator is at least 1 (see
      `PreviousCountNonNegative`). */
  function ChangeRate(h: seq<Draw>, k: int): real {
    PreviousCountNonNegative(h, k);
    Rate(RecentCount(h, k), PreviousCount(h, k))
  }

  function TrendOf(h: seq<Draw>, k: int): Trend {
    Classify(ChangeRate(h, k))
  }

  // ---------------------------------------------------------------------
  // The two windows.

  /** Rows dated in `[lo, hi)`. */
  function DatedIn(h: seq<Draw>, lo: int, hi: int): seq<Draw>
    decreases |h|
  {
    if h == [] then []
    else
      var last := h[|h| - 1];
      DatedIn(h[..|h| - 1], lo, hi) + (if lo <= last.date < hi then [last] else [])
  }

  lemma {:induction false} DatedInMembers(h: seq<Draw>, lo: int, hi: int)
    ensures forall d :: d in DatedIn(h, lo, hi) <==> d in h && lo <= d.date < hi
    decreases |h|
  {
    if h != [] {
      var last := h[|h| - 1];
      assert h == h[..|h| - 1] + [last];
      DatedInMembers(h[..|h| - 1], lo, hi);
    }
  }

  predicate NoLaterThan(h: seq<Draw>, latest: int) {
    forall i :: 0 <= i < |h| ==> h[i].date <= latest
  }

  lemma NoLaterThanMembers(a: seq<Draw>, b: seq<Draw>, latest: int)
    requires NoLaterThan(b, latest)
    requires forall d :: d in a ==> d in b
    ensures NoLaterThan(a, latest)
  {
    forall i | 0 <= i < |a| ensures a[i].date <= latest {
      assert a[i] in b;
    }
  }

  lemma WeightedCountSnoc(data: seq<Draw>, d: Draw, latest: int, k: int)
    requires NoLaterThan(data + [d], latest)
    ensures NoLaterThan(data, latest) && d.date <= latest
    ensures WeightedCount(data + [d], Recency(latest), k)
            == WeightedCount(data, Recency(latest), k) + ScaledCount(d.numbers, Weight(Recency(latest), d), k)
  {
    assert (data + [d])[..|data|] == data;
    assert (data + [d])[|data|] == d;
    assert forall i :: 0 <= i < |data| ==> data[i] == (data + [d])[i];
  }

  lemma {:induction false} WeightedCountNonNegative(data: seq<Draw>, latest: int, k: int)
    requires NoLaterThan(data, latest)
    ensures WeightedCount(data, Recency(latest), k) >= 0.0
    decreases |data|
  {
    if data != [] {
      var last := data[|data| - 1];
      WeightedCountNonNegative(data[..|data| - 1], latest, k);
      RecencyWeightBounds(latest, last);
      ScaledCountNonNegative(last.numbers, Weight(Recency(latest), last), k);
    }
  }

  /** The rows on or after `lo` are those on or after `hi` plus those in `[lo, hi)`,
      and their weights add up accordingly. */
  lemma {:induction false} SplitWindow(h: seq<Draw>, lo: int, hi: int, latest: int, k: int)
    requires lo <= hi
    requires NoLaterThan(h, latest)
    ensures NoLaterThan(OnOrAfter(h, lo), latest)
    ensures NoLaterThan(OnOrAfter(h, hi), latest)
    ensures NoLaterThan(DatedIn(h, lo, hi), latest)
    ensures WeightedCount(OnOrAfter(h, lo), Recency(latest), k)
            == WeightedCount(OnOrAfter(h, hi), Recency(latest), k) + WeightedCount(DatedIn(h, lo, hi), Recency(latest), k)
    decreases |h|
  {
    OnOrAfterMembers(h, lo);
    OnOrAfterMembers(h, hi);
    DatedInMembers(h, lo, hi);
    NoLaterThanMembers(OnOrAfter(h, lo), h, latest);
    NoLaterThanMembers(OnOrAfter(h, hi), h, latest);
    NoLaterThanMembers(DatedIn(h, lo, hi), h, latest);
    if h != [] {
      var init := h[..|h| - 1];
      var last := h[|h| - 1];
      NoLaterThanMembers(init, h, latest);
      SplitWindow(init, lo, hi, latest, k);
      var a, b, c := OnOrAfter(init, lo), OnOrAfter(init, hi), DatedIn(init, lo, hi);
      if last.date >= hi {
        assert OnOrAfter(h, lo) == a + [last];
        assert OnOrAfter(h, hi) == b + [last];
        assert DatedIn(h, lo, hi) == c;
        WeightedCountSnoc(a, last, latest, k);
        WeightedCountSnoc(b, last, latest, k);
      } else if last.date >= lo {
        assert OnOrAfter(h, lo) == a + [last];
        assert OnOrAfter(h, hi) == b;
        assert DatedIn(h, lo, hi) == c + [last];
        WeightedCountSnoc(a, last, latest, k);
        WeightedCountSnoc(c, last, latest, k);
      } else {
        assert OnOrAfter(h, lo) == a;
        assert OnOrAfter(h, hi) == b;
        assert DatedIn(h, lo, hi) == c;
      }
    }
  }

  /** `previous_count` is the weight `k` gathers from the rows 4 to 6 days older
      than the newest row `latest` ... */
  lemma PreviousCountMeaning(h: seq<Draw>, k: int, latest: int)
    requires h != [] && latest == MaxDate(h)
    ensures NoLaterThan(DatedIn(h, latest - 6, latest - 3), latest)
    ensures PreviousCount(h, k) == WeightedCount(DatedIn(h, latest - 6, latest - 3), Recency(latest), k)
  {
    RecencyWindow(h, 3, latest);
    RecencyWindow(h, 6, latest);
    TallyGet(Window(h, 3), Recency(latest), k);
    TallyGet(Window(h, 6), Recency(latest), k);
    SplitSixThree(h, k, latest);
  }

  /** ... so it is never negative and the rate's denominator is at least 1; with
      no history both counts are 0. */
  lemma PreviousCountNonNegative(h: seq<Draw>, k: int)
    ensures PreviousCount(h, k) >= 0.0
    ensures h == [] ==> RecentCount(h, k) == 0.0 && PreviousCount(h, k) == 0.0
  {
    if h != [] {
      var latest := MaxDate(h);
      PreviousCountMeaning(h, k, latest);
      WeightedCountNonNegative(DatedIn(h, latest - 6, latest - 3), latest, k);
    } else {
      assert Window(h, 3) == [] && Window(h, 6) == [];
    }
  }

  /** The 6-day window is the 3-day window plus the rows 4 to 6 days old. */
  lemma SplitSixThree(h: seq<Draw>, k: int, latest: int)
    requires NoLaterThan(h, latest)
    ensures NoLaterThan(OnOrAfter(h, latest - 6), latest)
    ensures NoLaterThan(OnOrAfter(h, latest - 3), latest)
    ensures NoLaterThan(DatedIn(h, latest - 6, latest - 3), latest)
    ensures WeightedCount(OnOrAfter(h, latest - 6), Recency(latest), k)
            == WeightedCount(OnOrAfter(h, latest - 3), Recency(latest), k) + WeightedCount(DatedIn(h, latest - 6, latest - 3), Recency(latest), k)
  {
    SplitWindow(h, latest - 6, latest - 3, latest, k);
  }

  /** With weighting on and `days > 0`, the table counts the rows on or after
      `latest - days`, each weighed against the newest date `latest`. */
  lemma RecencyWindow(h: seq<Draw>, days: int, latest: int)
    requires h != [] && days > 0 && latest == MaxDate(h)
    ensures NoLaterThan(h, latest)
    ensures Window(h, days) == OnOrAfter(h, latest - days)
    ensures NoLaterThan(Window(h, days), latest)
    ensures Frequency.Frequency(h, days, true) == Tally(Window(h, days), Recency(latest))
  {
    var data := Window(h, days);
    assert data == OnOrAfter(h, latest - days);
    WindowKeepsNewest(h, days);
    WindowMembers(h, days);
    assert WeightingFor(data, true) == Recency(latest);
    NoLaterThanMembers(data, h, latest);
  }

  // ---------------------------------------------------------------------
  // The four lists.

  /** The classification of every number by the history `h`. */
  function Classifier(h: seq<Draw>): int -> Trend {
    x => TrendOf(h, x)
  }

  /** The numbers of 1..n that `cls` puts in trend `t`, ascending. */
  function Bucket(cls: int -> Trend, t: Trend, n: int): (r: seq<int>)
    ensures StrictlyAscending(r)
    ensures forall x :: x in r <==> 1 <= x <= n && cls(x) == t
    ensures forall i :: 0 <= i < |r| ==> r[i] <= n
    decreases n
  {
    if n <= 0 then []
    else
      var init := Bucket(cls, t, n - 1);
      if cls(n) == t then
        AppendAscending(init, n);
        init + [n]
      else init
  }

  /** The four lists for the numbers 1..n. */
  function Lists(cls: int -> Trend, n: int): TrendLists {
    TrendLists(Bucket(cls, HotToCold, n), Bucket(cls, ColdToHot, n), Bucket(cls, Stable, n), Bucket(cls, Volatile, n))
  }

  /** The four lists of `analyze_trend_patterns`. */
  function TrendsOf(h: seq<Draw>): TrendLists {
    Lists(Classifier(h), Numbers)
  }

  method AnalyzeTrendPatterns(h: seq<Draw>) returns (trends: TrendLists)
    ensures trends == TrendsOf(h)
  {
    var recentFreq := AnalyzeFrequency(h, 3, true);
    var previousFreq := AnalyzeFrequency(h, 6, true);
    trends := PlaceAll(h, recentFreq, previousFreq, Classifier(h));
  }

  /** The loop over 1..80 of `analyze_trend_patterns`. */
  method PlaceAll(h: seq<Draw>, recentFreq: Counter<int>, previousFreq: Counter<int>, ghost cls: int -> Trend)
    returns (trends: TrendLists)
    requires recentFreq == Frequency.Frequency(h, 3, true) && previousFreq == Frequency.Frequency(h, 6, true)
    requires forall x :: cls(x) == Classify(ChangeRate(h, x))
    ensures trends == Lists(cls, 80)
  {
    trends := TrendLists([], [], [], []);
    ListsEmpty(cls);
    var num := 1;
    while num <= 80
      invariant 1 <= num <= 81
      invariant trends == Lists(cls, num - 1)
    {
      var changeRate := ChangeRateOf(h, recentFreq, previousFreq, num);
      trends := PlaceNumber(cls, trends, num, changeRate);
      num := num + 1;
    }
  }

  /** The change rate of `num` from the two frequency tables. */
  method ChangeRateOf(h: seq<Draw>, recentFreq: Counter<int>, previousFreq: Counter<int>, num: int) returns (changeRate: real)
    requires recentFreq == Frequency.Frequency(h, 3, true) && previousFreq == Frequency.Frequency(h, 6, true)
    ensures changeRate == ChangeRate(h, num)
  {
    var recentCount := Get(recentFreq, num);
    var previousCount := Get(previousFreq, num) - recentCount;
    assert recentCount == RecentCount(h, num) && previousCount == PreviousCount(h, num);
    PreviousCountNonNegative(h, num);
    changeRate := Rate(recentCount, previousCount);
  }

  /** `num` goes to the list its change rate selects. */
  method PlaceNumber(ghost cls: int -> Trend, trends: TrendLists, num: int, changeRate: real) returns (r: TrendLists)
    requires num >= 1 && trends == Lists(cls, num - 1) && cls(num) == Classify(changeRate)
    ensures r == Lists(cls, num)
  {
    ListsStep(cls, num);
    if changeRate <= -0.5 {
      r := trends.(hotToCold := trends.hotToCold + [num]);
    } else if changeRate >= 0.5 {
      r := trends.(coldToHot := trends.coldToHot + [num]);
    } else if Abs(changeRate) < 0.2 {
      r := trends.(stable := trends.stable + [num]);
    } else {
      r := trends.(volatile := trends.volatile + [num]);
    }
  }

  lemma ListsEmpty(cls: int -> Trend)
    ensures Lists(cls, 0) == TrendLists([], [], [], [])
  {
  }

  /** Appends `num` to the list of trend `t`. */
  function Place(lists: TrendLists, num: int, t: Trend): TrendLists {
    match t
    case HotToCold => lists.(hotToCold := lists.hotToCold + [num])
    case ColdToHot => lists.(coldToHot := lists.coldToHot + [num])
    case Stable => lists.(stable := lists.stable + [num])
    case Volatile => lists.(volatile := lists.volatile + [num])
  }

  lemma ListsStep(cls: int -> Trend, n: int)
    requires n >= 1
    ensures Lists(cls, n) == Place(Lists(cls, n - 1), n, cls(n))
  {
  }

  function Size(t: TrendLists): nat {
    |t.hotToCold| + |t.coldToHot| + |t.stable| + |t.volatile|
  }

  lemma {:induction false} ListsSize(cls: int -> Trend, n: nat)
    ensures Size(Lists(cls, n)) == n
    decreases n
  {
    if n > 0 {
      ListsSize(cls, n - 1);
    }
  }

  /** Every number of 1..80 is in exactly one of the four lists, every list is
      ascending and holds only numbers of 1..80, and together they hold 80 numbers. */
  lemma TrendsPartition(h: seq<Draw>, x: int)
    ensures var t := TrendsOf(h);
      (x in t.hotToCold || x in t.coldToHot || x in t.stable || x in t.volatile) <==> 1 <= x <= 80
    ensures var t := TrendsOf(h);
      (if x in t.hotToCold then 1 else 0) + (if x in t.coldToHot then 1 else 0)
      + (if x in t.stable then 1 else 0) + (if x in t.volatile then 1 else 0) <= 1
    ensures var t := TrendsOf(h);
      StrictlyAscending(t.hotToCold) && StrictlyAscending(t.coldToHot)
      && StrictlyAscending(t.stable) && StrictlyAscending(t.volatile)
    ensures Size(TrendsOf(h)) == 80
  {
    ListsSize(Classifier(h), Numbers);
  }

  /** A number's list is the one its change rate selects. */
  lemma TrendMembership(h: seq<Draw>, x: int)
    requires 1 <= x <= 80
    ensures x in TrendsOf(h).hotToCold <==> ChangeRate(h, x) <= -0.5
    ensures x in TrendsOf(h).coldToHot <==> ChangeRate(h, x) >= 0.5
    ensures x in TrendsOf(h).stable <==> -0.2 < ChangeRate(h, x) < 0.2
    ensures x in TrendsOf(h).volatile <==> -0.5 < ChangeRate(h, x) <= -0.2 || 0.2 <= ChangeRate(h, x) < 0.5
  {
    assert Classifier(h)(x) == Classify(ChangeRate(h, x));
  }
}
