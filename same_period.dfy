/** `KL8Predictor.analyze_historical_same_period`: number counts over the draws
    sharing the target date's day of the month or weekday, and statistics of
    the reference draw, the newest draw on the same day of the month. The
    target's day of the month and weekday are given (the calendar is not
    modelled). */
module SamePeriod {
  import opened Common
  import opened Counters
  import opened Ranking
  import opened Draws
  import opened Frequency

  /** The `zone_distribution` dictionary. */
  datatype ZoneCounts = ZoneCounts(from1To20: nat, from21To40: nat, from41To60: nat, from61To80: nat)

  datatype SamePeriodStats = SamePeriodStats(
    sameDayFreq: Counter<int>,
    sameWeekdayFreq: Counter<int>,
    sameDayCount: nat,
    sameWeekdayCount: nat,
    topDayNumbers: seq<(int, real)>,
    topWeekdayNumbers: seq<(int, real)>,
    dayAvgFreq: real,
    weekdayAvgFreq: real,
    targetDay: int,
    targetWeekday: string,
    overlapNumbers: seq<int>,
    oddCount: nat,
    evenCount: int,
    numberGaps: seq<int>,
    zoneDistribution: ZoneCounts,
    maxConsecutive: nat)

  /** Weekday names, Monday (0) first. */
  const WeekdayNames: seq<string> := ["一", "二", "三", "四", "五", "六", "日"]

  /** `sum(c.values()) / (len(c) if c else 1)`. */
  function AverageWeight(c: Counter<int>): (avg: real)
    ensures |c| == 0 ==> avg == 0.0
    ensures |c| > 0 ==> avg * (|c| as real) == Total(c)
  {
    Total(c) / ((if |c| == 0 then 1 else |c|) as real)
  }

  /** The reference draw: the numbers of the first same-day-of-month row, or
      none when there is no such row. */
  function ReferenceDraw(sameDay: seq<Draw>): seq<int> {
    if sameDay == [] then [] else sameDay[0].numbers
  }

  // ---------------------------------------------------------------------
  // Odd and even numbers of the reference draw.

  /** `sum(1 for num in s if num % 2 == 1)`. */
  function OddCount(s: seq<int>): (n: nat)
    ensures n <= |s|
    decreases |s|
  {
    if s == [] then 0 else OddCount(s[..|s| - 1]) + (if s[|s| - 1] % 2 == 1 then 1 else 0)
  }

  /** The odd numbers of `s`, in order. */
  function Odds(s: seq<int>): (r: seq<int>)
    ensures forall x :: x in r <==> x in s && x % 2 == 1
    decreases |s|
  {
    if s == [] then []
    else
      assert s == s[..|s| - 1] + [s[|s| - 1]];
      Odds(s[..|s| - 1]) + (if s[|s| - 1] % 2 == 1 then [s[|s| - 1]] else [])
  }

  /** `OddCount` counts exactly the odd elements. */
  lemma {:induction false} OddCountCountsOdds(s: seq<int>)
    ensures OddCount(s) == |Odds(s)|
    decreases |s|
  {
    if s != [] {
      OddCountCountsOdds(s[..|s| - 1]);
    }
  }

  /** The even numbers of `s`, in order. */
  function Evens(s: seq<int>): (r: seq<int>)
    ensures forall x :: x in r <==> x in s && x % 2 == 0
    decreases |s|
  {
    if s == [] then []
    else
      assert s == s[..|s| - 1] + [s[|s| - 1]];
      Evens(s[..|s| - 1]) + (if s[|s| - 1] % 2 == 0 then [s[|s| - 1]] else [])
  }

  /** `len(last_draw) - odd_count` counts exactly the even elements. */
  lemma {:induction false} EvenCountCountsEvens(s: seq<int>)
    ensures |s| - OddCount(s) == |Evens(s)|
    decreases |s|
  {
    if s != [] {
      EvenCountCountsEvens(s[..|s| - 1]);
    }
  }

  // ---------------------------------------------------------------------
  // Gaps between the sorted numbers.

  /** `[s[i+1] - s[i] for i in range(len(s) - 1)]`. */
  function Gaps(s: seq<int>): (g: seq<int>)
    ensures |s| >= 1 ==> |g| == |s| - 1
    ensures |s| == 0 ==> g == []
  {
    if |s| <= 1 then [] else seq(|s| - 1, i requires 0 <= i < |s| - 1 => s[i + 1] - s[i])
  }

  /** The gaps of an ascending sequence of distinct numbers are all positive and
      add up to the distance between its extremes. */
  lemma GapsOfAscending(s: seq<int>)
    requires StrictlyAscending(s)
    ensures forall i :: 0 <= i < |Gaps(s)| ==> Gaps(s)[i] > 0
    ensures |s| >= 1 ==> Sum(Gaps(s)) == s[|s| - 1] - s[0]
  {
    if |s| >= 1 {
      GapsTelescope(s);
    }
  }

  lemma {:induction false} GapsTelescope(s: seq<int>)
    requires |s| >= 1
    ensures Sum(Gaps(s)) == s[|s| - 1] - s[0]
    decreases |s|
  {
    if |s| > 1 {
      var init := s[..|s| - 1];
      GapsTelescope(init);
      var g := Gaps(s);
      assert g[..|g| - 1] == Gaps(init);
    }
  }

  // ---------------------------------------------------------------------
  // Zones.

  /** The zone rule of `analyze_historical_same_period`: 1-20, 21-40, 41-60, and
      everything else counted as 61-80. */
  function AddToZone(z: ZoneCounts, num: int): ZoneCounts {
    if 1 <= num <= 20 then ZoneCounts(z.from1To20 + 1, z.from21To40, z.from41To60, z.from61To80)
    else if 21 <= num <= 40 then ZoneCounts(z.from1To20, z.from21To40 + 1, z.from41To60, z.from61To80)
    else if 41 <= num <= 60 then ZoneCounts(z.from1To20, z.from21To40, z.from41To60 + 1, z.from61To80)
    else ZoneCounts(z.from1To20, z.from21To40, z.from41To60, z.from61To80 + 1)
  }

  function ZoneTotal(z: ZoneCounts): nat {
    z.from1To20 + z.from21To40 + z.from41To60 + z.from61To80
  }

  function Zones(s: seq<int>): ZoneCounts
    decreases |s|
  {
    if s == [] then ZoneCounts(0, 0, 0, 0) else AddToZone(Zones(s[..|s| - 1]), s[|s| - 1])
  }

  /** The four zone counters add up to the number of numbers. */
  lemma {:induction false} ZonesTotal(s: seq<int>)
    ensures ZoneTotal(Zones(s)) == |s|
    decreases |s|
  {
    if s != [] {
      ZonesTotal(s[..|s| - 1]);
    }
  }

  /** The number of elements of `s` in `lo..hi`. */
  function CountIn(s: seq<int>, lo: int, hi: int): nat
    decreases |s|
  {
    if s == [] then 0 else CountIn(s[..|s| - 1], lo, hi) + (if lo <= s[|s| - 1] <= hi then 1 else 0)
  }

  /** Each of the first three zones counts the numbers in its range; the last
      zone takes the rest (`ZonesTotal`). */
  lemma {:induction false} ZonesCount(s: seq<int>)
    ensures Zones(s).from1To20 == CountIn(s, 1, 20)
    ensures Zones(s).from21To40 == CountIn(s, 21, 40)
    ensures Zones(s).from41To60 == CountIn(s, 41, 60)
    decreases |s|
  {
    if s != [] {
      var init := s[..|s| - 1];
      var x := s[|s| - 1];
      ZonesCount(init);
      var z := Zones(init);
      assert Zones(s) == AddToZone(z, x);
      AddToZoneCounts(z, x);
    }
  }

  lemma AddToZoneCounts(z: ZoneCounts, x: int)
    ensures AddToZone(z, x).from1To20 == z.from1To20 + (if 1 <= x <= 20 then 1 else 0)
    ensures AddToZone(z, x).from21To40 == z.from21To40 + (if 21 <= x <= 40 then 1 else 0)
    ensures AddToZone(z, x).from41To60 == z.from41To60 + (if 41 <= x <= 60 then 1 else 0)
  {
  }

  method CountZones(lastDraw: seq<int>) returns (zones: ZoneCounts)
    ensures zones == Zones(lastDraw)
    ensures ZoneTotal(zones) == |lastDraw|
  {
    zones := ZoneCounts(0, 0, 0, 0);
    var i := 0;
    while i < |lastDraw|
      invariant 0 <= i <= |lastDraw|
      invariant zones == Zones(lastDraw[..i])
    {
      var num := lastDraw[i];
      ghost var before := zones;
      var ZoneCounts(a, b, c, d) := zones;
      if 1 <= num <= 20 {
        zones := ZoneCounts(a + 1, b, c, d);
      } else if 21 <= num <= 40 {
        zones := ZoneCounts(a, b + 1, c, d);
      } else if 41 <= num <= 60 {
        zones := ZoneCounts(a, b, c + 1, d);
      } else {
        zones := ZoneCounts(a, b, c, d + 1);
      }
      assert zones == AddToZone(before, num);
      assert lastDraw[..i + 1][..i] == lastDraw[..i];
      i := i + 1;
    }
    assert lastDraw[..i] == lastDraw;
    ZonesTotal(lastDraw);
  }

  // ---------------------------------------------------------------------
  // Longest run of consecutive integers.

  /** The length of the run of consecutive integers in `s` that ends at `i`. */
  function RunEndingAt(s: seq<int>, i: int): nat
    requires 0 <= i < |s|
    decreases i
  {
    if i == 0 then 1 else if s[i] == s[i - 1] + 1 then RunEndingAt(s, i - 1) + 1 else 1
  }

  /** The longest run ending at or before `i`. */
  function LongestRunUpTo(s: seq<int>, i: int): nat
    requires 0 <= i < |s|
    decreases i
  {
    if i == 0 then RunEndingAt(s, 0) else Max(LongestRunUpTo(s, i - 1), RunEndingAt(s, i)) as nat
  }

  function LongestRun(s: seq<int>): nat {
    if s == [] then 0 else LongestRunUpTo(s, |s| - 1)
  }

  /** `RunEndingAt(s, i)` is the length of the maximal block `s[i-r+1..i]` in
      which every element is its predecessor plus one. */
  lemma {:induction false} RunEndingAtMeaning(s: seq<int>, i: int)
    requires 0 <= i < |s|
    ensures 1 <= RunEndingAt(s, i) <= i + 1
    ensures forall j :: i - RunEndingAt(s, i) + 1 < j <= i ==> s[j] == s[j - 1] + 1
    ensures i - RunEndingAt(s, i) + 1 > 0 ==> s[i - RunEndingAt(s, i) + 1] != s[i - RunEndingAt(s, i)] + 1
    decreases i
  {
    if i > 0 && s[i] == s[i - 1] + 1 {
      RunEndingAtMeaning(s, i - 1);
    }
  }

  lemma {:induction false} LongestRunUpToBounds(s: seq<int>, i: int)
    requires 0 <= i < |s|
    ensures 1 <= LongestRunUpTo(s, i) <= i + 1
    ensures forall j :: 0 <= j <= i ==> RunEndingAt(s, j) <= LongestRunUpTo(s, i)
    ensures exists j :: 0 <= j <= i && RunEndingAt(s, j) == LongestRunUpTo(s, i)
    decreases i
  {
    RunEndingAtMeaning(s, i);
    if i > 0 {
      LongestRunUpToBounds(s, i - 1);
    }
  }

  /** `max_consecutive`: 0 for an empty draw; otherwise between 1 and the draw's
      length, the length of some run and at least the length of every run. */
  lemma LongestRunMeaning(s: seq<int>)
    ensures s == [] <==> LongestRun(s) == 0
    ensures s != [] ==> 1 <= LongestRun(s) <= |s|
    ensures forall j :: 0 <= j < |s| ==> RunEndingAt(s, j) <= LongestRun(s)
    ensures s != [] ==> exists j :: 0 <= j < |s| && RunEndingAt(s, j) == LongestRun(s)
  {
    if s != [] {
      LongestRunUpToBounds(s, |s| - 1);
    }
  }

  /** The loop over `sorted_nums` tracking `current_consecutive` and
      `max_consecutive`. */
  method MaxConsecutive(sortedNums: seq<int>) returns (maxConsecutive: nat)
    ensures maxConsecutive == LongestRun(sortedNums)
  {
    maxConsecutive := 0;
    if sortedNums != [] {
      var current: nat := 1;
      var i := 0;
      while i < |sortedNums| - 1
        invariant 0 <= i < |sortedNums|
        invariant current == RunEndingAt(sortedNums, i)
        invariant maxConsecutive <= LongestRunUpTo(sortedNums, i)
        invariant Max(maxConsecutive, current) == LongestRunUpTo(sortedNums, i)
      {
        if sortedNums[i + 1] == sortedNums[i] + 1 {
          current := current + 1;
        } else {
          maxConsecutive := Max(maxConsecutive, current) as nat;
          current := 1;
        }
        i := i + 1;
      }
      maxConsecutive := Max(maxConsecutive, current) as nat;
    }
  }

  // ---------------------------------------------------------------------
  // Overlap of the two newest same-day-of-month draws.

  /** The elements of `b` that also occur in `a`, in the order of `b`. */
  function CommonElements(a: seq<int>, b: seq<int>): (r: seq<int>)
    ensures forall x :: x in r <==> x in a && x in b
    decreases |b|
  {
    if b == [] then []
    else
      assert b == b[..|b| - 1] + [b[|b| - 1]];
      CommonElements(a, b[..|b| - 1]) + (if b[|b| - 1] in a then [b[|b| - 1]] else [])
  }

  /** `sorted(set(rows[1]) & set(rows[0]))` when there are two rows, else `[]`. */
  function Overlap(rows: seq<Draw>): (r: seq<int>)
    ensures StrictlyAscending(r)
    ensures |rows| < 2 ==> r == []
    ensures |rows| >= 2 ==> forall x :: x in r <==> x in rows[0].numbers && x in rows[1].numbers
  {
    if |rows| >= 2 then SortedElements(CommonElements(rows[1].numbers, rows[0].numbers)) else []
  }

  // ---------------------------------------------------------------------
  // The whole analysis.

  method AnalyzeHistoricalSamePeriod(h: seq<Draw>, targetDay: int, targetWeekday: int) returns (stats: SamePeriodStats)
    requires 0 <= targetWeekday < 7
    ensures stats.sameDayFreq == Tally(SameDayOfMonth(h, targetDay), Unweighted)
    ensures stats.sameWeekdayFreq == Tally(SameWeekday(h, targetWeekday), Unweighted)
    ensures stats.sameDayCount == |SameDayOfMonth(h, targetDay)|
    ensures stats.sameWeekdayCount == |SameWeekday(h, targetWeekday)|
    ensures stats.topDayNumbers == Top(stats.sameDayFreq, 10)
    ensures stats.topWeekdayNumbers == Top(stats.sameWeekdayFreq, 10)
    ensures stats.dayAvgFreq == AverageWeight(stats.sameDayFreq)
    ensures stats.weekdayAvgFreq == AverageWeight(stats.sameWeekdayFreq)
    ensures stats.targetDay == targetDay && stats.targetWeekday == WeekdayNames[targetWeekday]
    ensures stats.overlapNumbers == Overlap(SameDayOfMonth(h, targetDay))
    ensures var last := ReferenceDraw(SameDayOfMonth(h, targetDay));
      && stats.oddCount == OddCount(last)
      && stats.oddCount + stats.evenCount == |last|
      && stats.evenCount == |Evens(last)|
      && stats.numberGaps == Gaps(SortInts(last))
      && stats.zoneDistribution == Zones(last)
      && ZoneTotal(stats.zoneDistribution) == |last|
      && stats.maxConsecutive == LongestRun(SortInts(last))
  {
    var sameDay := SameDayOfMonth(h, targetDay);
    var sameWeekday := SameWeekday(h, targetWeekday);
    var dayFrequency := TallyRows(sameDay, false);
    var weekdayFrequency := TallyRows(sameWeekday, false);
    var lastDraw := ReferenceDraw(sameDay);
    var oddCount := OddCount(lastDraw);
    EvenCountCountsEvens(lastDraw);
    var gaps: seq<int> := [];
    if lastDraw != [] {
      gaps := Gaps(SortInts(lastDraw));
    }
    var zones := CountZones(lastDraw);
    var maxConsecutive := MaxConsecutive(SortInts(lastDraw));
    stats := SamePeriodStats(
      dayFrequency, weekdayFrequency, |sameDay|, |sameWeekday|,
      Top(dayFrequency, 10), Top(weekdayFrequency, 10),
      AverageWeight(dayFrequency), AverageWeight(weekdayFrequency),
      targetDay, WeekdayNames[targetWeekday],
      Overlap(sameDay), oddCount, |lastDraw| - oddCount, gaps, zones, maxConsecutive);
  }

  /** The statistics of a well-formed reference draw: at most 20 odd numbers,
      an even count `len(last_draw) - odd_count` that counts the even numbers
      so that the two add up to 20, 19 positive gaps, zone counts adding up
      to 20 and a longest run of consecutive numbers between 1 and 20. */
  lemma ReferenceDrawStatistics(d: Draw)
    requires ValidDraw(d)
    ensures 0 <= OddCount(d.numbers) <= 20
    ensures |d.numbers| - OddCount(d.numbers) == |Evens(d.numbers)|
    ensures OddCount(d.numbers) + |Evens(d.numbers)| == 20
    ensures |Gaps(SortInts(d.numbers))| == 19
    ensures forall i :: 0 <= i < 19 ==> Gaps(SortInts(d.numbers))[i] > 0
    ensures ZoneTotal(Zones(d.numbers)) == 20
    ensures 1 <= LongestRun(SortInts(d.numbers)) <= 20
  {
    EvenCountCountsEvens(d.numbers);
    SortDistinctIsStrict(d.numbers);
    GapsOfAscending(SortInts(d.numbers));
    ZonesTotal(d.numbers);
    LongestRunMeaning(SortInts(d.numbers));
  }
}
