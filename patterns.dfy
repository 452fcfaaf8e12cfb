/** `KL8Predictor.analyze_number_patterns`: over the draws of the last `days`
    days, counts of consecutive pairs, of all unordered pairs and of zone
    tuples, the lists of number sums and of largest gaps, and the ranked
    tables built from them. */
module Patterns {
  import opened Common
  import opened Counters
  import opened Ranking
  import opened Draws
  import opened SamePeriod

  type Pair = (int, int)

  /** The counts of a draw in the zones `<= 20`, `<= 40`, `<= 60` and the rest. */
  type ZoneTuple = (nat, nat, nat, nat)

  datatype PatternStats = PatternStats(
    commonConsecutivePairs: seq<(Pair, real)>,
    commonNumberPairs: seq<(Pair, real)>,
    sumMin: int,
    sumMax: int,
    sumRange: seq<int>,
    maxGaps: seq<int>,
    commonZoneCombinations: seq<(ZoneTuple, real)>)

  /** `df[df['开奖日期'] >= max date - days]`; no row passes when the table is empty. */
  function RecentRows(h: seq<Draw>, days: int): seq<Draw> {
    if h == [] then [] else OnOrAfter(h, MaxDate(h) - days)
  }

  // ---------------------------------------------------------------------
  // What one draw contributes; `s` is its sorted numbers.

  /** The keys `(s[i], s[i+1])` with `s[i+1] == s[i] + 1`, for `i + 1 < n`. */
  function ConsecutiveUpTo(s: seq<int>, n: int): seq<Pair>
    requires n <= |s|
    decreases n
  {
    if n <= 1 then []
    else ConsecutiveUpTo(s, n - 1) + (if s[n - 1] == s[n - 2] + 1 then [(s[n - 2], s[n - 1])] else [])
  }

  function ConsecutivePairs(s: seq<int>): seq<Pair> {
    ConsecutiveUpTo(s, |s|)
  }

  /** The keys `(s[i], s[j])` for `i < j < n`, in loop order. */
  function PairsFrom(s: seq<int>, i: int, n: int): seq<Pair>
    requires 0 <= i < n <= |s|
    decreases n
  {
    if n == i + 1 then [] else PairsFrom(s, i, n - 1) + [(s[i], s[n - 1])]
  }

  /** The keys of the double loop for the outer indices below `i`. */
  function PairsUpTo(s: seq<int>, i: int): seq<Pair>
    requires 0 <= i <= |s|
    decreases i
  {
    if i == 0 then [] else PairsUpTo(s, i - 1) + PairsFrom(s, i - 1, |s|)
  }

  function AllPairs(s: seq<int>): seq<Pair> {
    PairsUpTo(s, |s|)
  }

  /** The zone rule of `analyze_number_patterns`: `<= 20`, `<= 40`, `<= 60`, else. */
  function AddToZoneTuple(z: ZoneTuple, num: int): ZoneTuple {
    if num <= 20 then (z.0 + 1, z.1, z.2, z.3)
    else if num <= 40 then (z.0, z.1 + 1, z.2, z.3)
    else if num <= 60 then (z.0, z.1, z.2 + 1, z.3)
    else (z.0, z.1, z.2, z.3 + 1)
  }

  function ZoneTupleOf(s: seq<int>): ZoneTuple
    decreases |s|
  {
    if s == [] then (0, 0, 0, 0) else AddToZoneTuple(ZoneTupleOf(s[..|s| - 1]), s[|s| - 1])
  }

  function TupleTotal(z: ZoneTuple): nat {
    z.0 + z.1 + z.2 + z.3
  }

  // ---------------------------------------------------------------------
  // The tables after the loop over the rows.

  datatype Tables = Tables(
    consecutive: Counter<Pair>,
    pairs: Counter<Pair>,
    sums: seq<int>,
    maxGaps: seq<int>,
    zones: Counter<ZoneTuple>)

  /** Every row has at least two numbers, so `max(gaps)` is defined for it. */
  predicate AllHaveGaps(rows: seq<Draw>) {
    forall i :: 0 <= i < |rows| ==> |rows[i].numbers| >= 2
  }

  /** What one sorted draw adds to the tables. */
  function Record(t: Tables, s: seq<int>): Tables
    requires |s| >= 2
  {
    Tables(
      AddAll(t.consecutive, ConsecutivePairs(s), 1.0),
      AddAll(t.pairs, AllPairs(s), 1.0),
      t.sums + [Sum(s)],
      t.maxGaps + [MaxOf(Gaps(s))],
      Add(t.zones, ZoneTupleOf(s), 1.0))
  }

  function Accumulate(rows: seq<Draw>): Tables
    requires AllHaveGaps(rows)
    decreases |rows|
  {
    if rows == [] then Tables([], [], [], [], [])
    else Record(Accumulate(rows[..|rows| - 1]), SortInts(rows[|rows| - 1].numbers))
  }

  /** The result dictionary; `min`/`max` of an empty sum list and `max` of an
      empty gap list raise `ValueError`. */
  function Patterns(rows: seq<Draw>): Result<PatternStats> {
    if rows == [] || !AllHaveGaps(rows) then Err(ValueError)
    else
      var t := Accumulate(rows);
      AccumulateSums(rows);
      Ok(PatternStats(Top(t.consecutive, 5), Top(t.pairs, 10), MinOf(t.sums), MaxOf(t.sums),
                      t.sums, t.maxGaps, Top(t.zones, 5)))
  }

  lemma {:induction false} AccumulateSums(rows: seq<Draw>)
    requires AllHaveGaps(rows)
    ensures |Accumulate(rows).sums| == |rows|
    ensures |Accumulate(rows).maxGaps| == |rows|
    decreases |rows|
  {
    if rows != [] {
      AccumulateSums(rows[..|rows| - 1]);
    }
  }

  // ---------------------------------------------------------------------
  // The loops.

  method CountConsecutivePairs(c: Counter<Pair>, s: seq<int>) returns (r: Counter<Pair>)
    ensures r == AddAll(c, ConsecutivePairs(s), 1.0)
  {
    r := c;
    if |s| == 0 {
      return;
    }
    var i := 0;
    while i < |s| - 1
      invariant 0 <= i <= |s| - 1
      invariant r == AddAll(c, ConsecutiveUpTo(s, i + 1), 1.0)
    {
      ghost var done := ConsecutiveUpTo(s, i + 1);
      ConsecutiveStep(s, i);
      if s[i + 1] == s[i] + 1 {
        AddAllSnoc(c, done, (s[i], s[i + 1]), 1.0);
        r := Add(r, (s[i], s[i + 1]), 1.0);
      }
      i := i + 1;
    }
  }

  lemma ConsecutiveStep(s: seq<int>, i: int)
    requires 0 <= i < |s| - 1
    ensures s[i + 1] == s[i] + 1 ==> ConsecutiveUpTo(s, i + 2) == ConsecutiveUpTo(s, i + 1) + [(s[i], s[i + 1])]
    ensures s[i + 1] != s[i] + 1 ==> ConsecutiveUpTo(s, i + 2) == ConsecutiveUpTo(s, i + 1)
  {
  }

  method CountPairs(c: Counter<Pair>, s: seq<int>) returns (r: Counter<Pair>)
    ensures r == AddAll(c, AllPairs(s), 1.0)
  {
    r := c;
    var i := 0;
    while i < |s|
      invariant 0 <= i <= |s|
      invariant r == AddAll(c, PairsUpTo(s, i), 1.0)
    {
      PairsCountStep(c, s, i);
      r := CountPairsWith(r, s, i);
      i := i + 1;
    }
  }

  /** The inner loop: `for j in range(i + 1, len(s)): pairs[(s[i], s[j])] += 1`. */
  method CountPairsWith(c: Counter<Pair>, s: seq<int>, i: int) returns (r: Counter<Pair>)
    requires 0 <= i < |s|
    ensures r == AddAll(c, PairsFrom(s, i, |s|), 1.0)
  {
    ghost var ps := PairsFrom(s, i, |s|);
    PairsFromSize(s, i, |s|);
    r := c;
    var j := i + 1;
    while j < |s|
      invariant i + 1 <= j <= |s|
      invariant r == AddAll(c, ps[..j - i - 1], 1.0)
    {
      PairsFromAt(s, i, j);
      AddAllPrefixStep(c, ps, j - i - 1, 1.0);
      r := Add(r, (s[i], s[j]), 1.0);
      j := j + 1;
    }
    assert ps[..j - i - 1] == ps;
  }

  lemma PairsFromAt(s: seq<int>, i: int, j: int)
    requires 0 <= i < j < |s|
    ensures |PairsFrom(s, i, |s|)| == |s| - i - 1
    ensures PairsFrom(s, i, |s|)[j - i - 1] == (s[i], s[j])
  {
    PairsFromSize(s, i, |s|);
    PairsFromPrefix(s, i, j + 1, |s|);
    PairsFromSize(s, i, j + 1);
    PairsFromStep(s, i, j, j + 1);
    PairsFromSize(s, i, j);
  }

  /** A shorter inner loop is a prefix of the longer one. */
  lemma {:induction false} PairsFromPrefix(s: seq<int>, i: int, m: int, n: int)
    requires 0 <= i < m <= n <= |s|
    ensures PairsFrom(s, i, m) <= PairsFrom(s, i, n)
    decreases n
  {
    if n > m {
      var done := n - 1;
      PairsFromPrefix(s, i, m, done);
      PairsFromStep(s, i, done, n);
    }
  }

  lemma PairsCountStep(c: Counter<Pair>, s: seq<int>, i: int)
    requires 0 <= i < |s|
    ensures AddAll(c, PairsUpTo(s, i + 1), 1.0) == AddAll(AddAll(c, PairsUpTo(s, i), 1.0), PairsFrom(s, i, |s|), 1.0)
  {
    assert PairsUpTo(s, i + 1) == PairsUpTo(s, i) + PairsFrom(s, i, |s|);
    AddAllAppend(c, PairsUpTo(s, i), PairsFrom(s, i, |s|), 1.0);
  }

  method CountZoneTuple(s: seq<int>) returns (z: ZoneTuple)
    ensures z == ZoneTupleOf(s)
  {
    var zoneCounts := [0, 0, 0, 0];
    var i := 0;
    while i < |s|
      invariant 0 <= i <= |s|
      invariant |zoneCounts| == 4 && forall k :: 0 <= k < 4 ==> zoneCounts[k] >= 0
      invariant (zoneCounts[0], zoneCounts[1], zoneCounts[2], zoneCounts[3]) == ZoneTupleOf(s[..i])
    {
      var num := s[i];
      if num <= 20 {
        zoneCounts := zoneCounts[0 := zoneCounts[0] + 1];
      } else if num <= 40 {
        zoneCounts := zoneCounts[1 := zoneCounts[1] + 1];
      } else if num <= 60 {
        zoneCounts := zoneCounts[2 := zoneCounts[2] + 1];
      } else {
        zoneCounts := zoneCounts[3 := zoneCounts[3] + 1];
      }
      assert s[..i + 1][..i] == s[..i];
      i := i + 1;
    }
    assert s[..i] == s;
    z := (zoneCounts[0], zoneCounts[1], zoneCounts[2], zoneCounts[3]);
  }

  method AnalyzeNumberPatterns(h: seq<Draw>, days: int) returns (r: Result<PatternStats>)
    ensures r == Patterns(RecentRows(h, days))
  {
    var rows := RecentRows(h, days);
    var t := Tables([], [], [], [], []);
    var i := 0;
    while i < |rows|
      invariant 0 <= i <= |rows|
      invariant AllHaveGaps(rows[..i])
      invariant t == Accumulate(rows[..i])
    {
      var sortedNums := SortInts(rows[i].numbers);
      var consecutive := CountConsecutivePairs(t.consecutive, sortedNums);
      var pairs := CountPairs(t.pairs, sortedNums);
      var sums := t.sums + [Sum(sortedNums)];
      var gaps := Gaps(sortedNums);
      if gaps == [] {
        assert !AllHaveGaps(rows) by {
          assert |rows[i].numbers| < 2;
        }
        return Err(ValueError);
      }
      var maxGaps := t.maxGaps + [MaxOf(gaps)];
      var zoneCounts := CountZoneTuple(sortedNums);
      var zones := Add(t.zones, zoneCounts, 1.0);
      AccumulateStep(rows, i);
      t := Tables(consecutive, pairs, sums, maxGaps, zones);
      i := i + 1;
    }
    assert rows[..i] == rows;
    if t.sums == [] {
      return Err(ValueError);
    }
    AccumulateSums(rows);
    r := Ok(PatternStats(Top(t.consecutive, 5), Top(t.pairs, 10), MinOf(t.sums), MaxOf(t.sums),
                         t.sums, t.maxGaps, Top(t.zones, 5)));
  }

  lemma AccumulateStep(rows: seq<Draw>, i: int)
    requires 0 <= i < |rows|
    requires AllHaveGaps(rows[..i])
    requires |rows[i].numbers| >= 2
    ensures AllHaveGaps(rows[..i + 1])
    ensures Accumulate(rows[..i + 1]) == Record(Accumulate(rows[..i]), SortInts(rows[i].numbers))
  {
    assert rows[..i + 1][..i] == rows[..i];
  }

  // ---------------------------------------------------------------------
  // Consecutive pairs.

  lemma {:induction false} ConsecutiveUpToMembers(s: seq<int>, n: int, p: Pair)
    requires n <= |s|
    ensures p in ConsecutiveUpTo(s, n) <==> exists i :: 0 <= i && i + 1 < n && s[i + 1] == s[i] + 1 && p == (s[i], s[i + 1])
    decreases n
  {
    if n > 1 {
      ConsecutiveUpToMembers(s, n - 1, p);
    }
  }

  /** Every consecutive-pair key has the form `(a, a + 1)` with both numbers in
      the draw; for a draw of distinct numbers in ascending order, `(a, a + 1)` is a
      key exactly when both `a` and `a + 1` were drawn. */
  lemma ConsecutivePairsMeaning(s: seq<int>, a: int, p: Pair)
    ensures p in ConsecutivePairs(s) ==> p.1 == p.0 + 1 && p.0 in s && p.1 in s
    ensures StrictlyAscending(s) ==> ((a, a + 1) in ConsecutivePairs(s) <==> a in s && a + 1 in s)
  {
    ConsecutiveUpToMembers(s, |s|, p);
    ConsecutiveUpToMembers(s, |s|, (a, a + 1));
    if StrictlyAscending(s) && a in s && a + 1 in s {
      var i :| 0 <= i < |s| && s[i] == a;
      var j :| 0 <= j < |s| && s[j] == a + 1;
      assert i < j;
      assert j == i + 1;
      assert s[i + 1] == s[i] + 1 && (a, a + 1) == (s[i], s[i + 1]);
    }
  }

  // ---------------------------------------------------------------------
  // All pairs.

  lemma PairsFromStep(s: seq<int>, i: int, done: int, n: int)
    requires 0 <= i < done && n == done + 1 && n <= |s|
    ensures PairsFrom(s, i, n) == PairsFrom(s, i, done) + [(s[i], s[done])]
  {
    assert done == n - 1;
  }

  lemma {:induction false} PairsFromSize(s: seq<int>, i: int, n: int)
    requires 0 <= i < n <= |s|
    ensures |PairsFrom(s, i, n)| == n - i - 1
    decreases n
  {
    if n > i + 1 {
      var done := n - 1;
      PairsFromSize(s, i, done);
      PairsFromStep(s, i, done, n);
    }
  }

  lemma PairsFromMembersStep(s: seq<int>, i: int, done: int, n: int, p: Pair)
    requires 0 <= i < done && n == done + 1 && n <= |s|
    requires p in PairsFrom(s, i, done) <==> exists j :: i < j < done && p == (s[i], s[j])
    ensures p in PairsFrom(s, i, n) <==> exists j :: i < j < n && p == (s[i], s[j])
  {
    PairsFromStep(s, i, done, n);
    if exists j :: i < j < n && p == (s[i], s[j]) {
      var j :| i < j < n && p == (s[i], s[j]);
      if j < done {
        assert p in PairsFrom(s, i, done);
      }
    }
  }

  lemma {:induction false} PairsFromMembers(s: seq<int>, i: int, n: int, p: Pair)
    requires 0 <= i < n <= |s|
    ensures p in PairsFrom(s, i, n) <==> exists j :: i < j < n && p == (s[i], s[j])
    decreases n
  {
    if n > i + 1 {
      var done := n - 1;
      PairsFromMembers(s, i, done, p);
      PairsFromMembersStep(s, i, done, n, p);
    }
  }

  lemma PairsFromDistinctStep(s: seq<int>, i: int, done: int, n: int)
    requires StrictlyAscending(s)
    requires 0 <= i < done && n == done + 1 && n <= |s|
    requires Distinct(PairsFrom(s, i, done))
    ensures Distinct(PairsFrom(s, i, n))
  {
    PairsFromStep(s, i, done, n);
    var front := PairsFrom(s, i, done);
    var last := (s[i], s[done]);
    forall x | x in front ensures x !in [last] {
      PairsFromMembers(s, i, done, x);
      var j :| i < j < done && x == (s[i], s[j]);
      assert s[j] < s[done];
    }
    DistinctConcat(front, [last]);
  }

  lemma {:induction false} PairsFromDistinct(s: seq<int>, i: int, n: int)
    requires StrictlyAscending(s)
    requires 0 <= i < n <= |s|
    ensures Distinct(PairsFrom(s, i, n))
    decreases n
  {
    if n > i + 1 {
      var done := n - 1;
      PairsFromDistinct(s, i, done);
      PairsFromDistinctStep(s, i, done, n);
    }
  }

  lemma PairsUpToStep(s: seq<int>, done: int, i: int)
    requires 0 <= done && i == done + 1 && i <= |s|
    ensures PairsUpTo(s, i) == PairsUpTo(s, done) + PairsFrom(s, done, |s|)
  {
    assert done == i - 1;
  }

  lemma PairsUpToSizeStep(s: seq<int>, done: int, i: int)
    requires 0 <= done && i == done + 1 && i <= |s|
    requires 2 * |PairsUpTo(s, done)| == done * (2 * |s| - done - 1)
    ensures 2 * |PairsUpTo(s, i)| == i * (2 * |s| - i - 1)
  {
    PairsUpToStep(s, done, i);
    PairsFromSize(s, done, |s|);
    assert i * (2 * |s| - i - 1) == done * (2 * |s| - done - 1) + 2 * (|s| - done - 1);
  }

  lemma {:induction false} PairsUpToSize(s: seq<int>, i: int)
    requires 0 <= i <= |s|
    ensures 2 * |PairsUpTo(s, i)| == i * (2 * |s| - i - 1)
    decreases i
  {
    if i > 0 {
      var done := i - 1;
      PairsUpToSize(s, done);
      PairsUpToSizeStep(s, done, i);
    }
  }

  lemma PairsUpToMembersStep(s: seq<int>, done: int, i: int, p: Pair)
    requires 0 <= done && i == done + 1 && i <= |s|
    requires p in PairsUpTo(s, done) <==> exists a, b :: 0 <= a < done && a < b < |s| && p == (s[a], s[b])
    ensures p in PairsUpTo(s, i) <==> exists a, b :: 0 <= a < i && a < b < |s| && p == (s[a], s[b])
  {
    PairsUpToStep(s, done, i);
    PairsFromMembers(s, done, |s|, p);
    ConcatMember(PairsUpTo(s, done), PairsFrom(s, done, |s|), p);
    if exists a, b :: 0 <= a < i && a < b < |s| && p == (s[a], s[b]) {
      var a, b :| 0 <= a < i && a < b < |s| && p == (s[a], s[b]);
      if a < done {
        PairFromBefore(s, done, a, b, p);
      } else {
        PairFromRow(s, done, a, b, p);
      }
    }
  }

  lemma ConcatMember<T>(x: seq<T>, y: seq<T>, p: T)
    ensures p in x + y <==> p in x || p in y
  {
  }

  lemma PairFromBefore(s: seq<int>, done: int, a: int, b: int, p: Pair)
    requires 0 <= a < done && a < b < |s| && p == (s[a], s[b])
    ensures exists a', b' :: 0 <= a' < done && a' < b' < |s| && p == (s[a'], s[b'])
  {
  }

  lemma PairFromRow(s: seq<int>, done: int, a: int, b: int, p: Pair)
    requires 0 <= done == a && a < b < |s| && p == (s[a], s[b])
    ensures exists j :: done < j < |s| && p == (s[done], s[j])
  {
  }

  lemma {:induction false} PairsUpToMembers(s: seq<int>, i: int, p: Pair)
    requires 0 <= i <= |s|
    ensures p in PairsUpTo(s, i) <==> exists a, b :: 0 <= a < i && a < b < |s| && p == (s[a], s[b])
    decreases i
  {
    if i > 0 {
      var done := i - 1;
      PairsUpToMembers(s, done, p);
      PairsUpToMembersStep(s, done, i, p);
    }
  }

  lemma PairsUpToDistinctStep(s: seq<int>, done: int, i: int)
    requires StrictlyAscending(s)
    requires 0 <= done && i == done + 1 && i <= |s|
    requires Distinct(PairsUpTo(s, done))
    ensures Distinct(PairsUpTo(s, i))
  {
    PairsUpToStep(s, done, i);
    PairsFromDistinct(s, done, |s|);
    var front := PairsUpTo(s, done);
    forall x | x in front ensures x !in PairsFrom(s, done, |s|) {
      PairsUpToMembers(s, done, x);
      PairsFromMembers(s, done, |s|, x);
      var a, b :| 0 <= a < done && a < b < |s| && x == (s[a], s[b]);
      assert s[a] < s[done];
    }
    DistinctConcat(front, PairsFrom(s, done, |s|));
  }

  lemma {:induction false} PairsUpToDistinct(s: seq<int>, i: int)
    requires StrictlyAscending(s)
    requires 0 <= i <= |s|
    ensures Distinct(PairsUpTo(s, i))
    decreases i
  {
    if i > 0 {
      var done := i - 1;
      PairsUpToDistinct(s, done);
      PairsUpToDistinctStep(s, done, i);
    }
  }

  /** For a draw of distinct numbers in ascending order, the double loop visits
      `n (n - 1) / 2` keys, each once ... */
  lemma AllPairsSize(s: seq<int>)
    requires StrictlyAscending(s)
    ensures 2 * |AllPairs(s)| == |s| * (|s| - 1)
    ensures Distinct(AllPairs(s))
  {
    PairsUpToSize(s, |s|);
    PairsUpToDistinct(s, |s|);
  }

  /** ... and they are exactly the pairs `(a, b)` of drawn numbers with `a < b`. */
  lemma AllPairsMembers(s: seq<int>, p: Pair)
    requires StrictlyAscending(s)
    ensures p in AllPairs(s) <==> p.0 in s && p.1 in s && p.0 < p.1
  {
    PairsUpToMembers(s, |s|, p);
    if p.0 in s && p.1 in s && p.0 < p.1 {
      var a :| 0 <= a < |s| && s[a] == p.0;
      var b :| 0 <= b < |s| && s[b] == p.1;
      assert a < b;
    }
  }

  /** The double loop over a well-formed draw visits 190 keys, each once ... */
  lemma PairsOfDraw(d: Draw)
    requires ValidDraw(d)
    ensures |AllPairs(SortInts(d.numbers))| == 190
    ensures Distinct(AllPairs(SortInts(d.numbers)))
  {
    var s := SortInts(d.numbers);
    SortDistinctIsStrict(d.numbers);
    TwentyPairs(s);
  }

  lemma TwentyPairs(s: seq<int>)
    requires StrictlyAscending(s) && |s| == 20
    ensures |AllPairs(s)| == 190
    ensures Distinct(AllPairs(s))
  {
    AllPairsSize(s);
  }

  /** ... and they are the pairs `(a, b)` of drawn numbers with `a < b`. */
  lemma PairsOfDrawMembers(d: Draw, p: Pair)
    requires Distinct(d.numbers)
    ensures p in AllPairs(SortInts(d.numbers)) <==> p.0 in d.numbers && p.1 in d.numbers && p.0 < p.1
  {
    SortDistinctIsStrict(d.numbers);
    SortedPairsMembers(SortInts(d.numbers), d.numbers, p);
  }

  lemma SortedPairsMembers(s: seq<int>, t: seq<int>, p: Pair)
    requires StrictlyAscending(s) && multiset(s) == multiset(t)
    ensures p in AllPairs(s) <==> p.0 in t && p.1 in t && p.0 < p.1
  {
    AllPairsMembers(s, p);
    SameMembers(s, t, p.0);
    SameMembers(s, t, p.1);
    MembersTransfer(AllPairs(s), s, t, p);
  }

  lemma MembersTransfer(ps: seq<Pair>, s: seq<int>, t: seq<int>, p: Pair)
    requires p in ps <==> p.0 in s && p.1 in s && p.0 < p.1
    requires p.0 in s <==> p.0 in t
    requires p.1 in s <==> p.1 in t
    ensures p in ps <==> p.0 in t && p.1 in t && p.0 < p.1
  {
  }

  lemma SameMembers(a: seq<int>, b: seq<int>, x: int)
    requires multiset(a) == multiset(b)
    ensures x in a <==> x in b
  {
    assert x in a <==> x in multiset(a);
    assert x in b <==> x in multiset(b);
  }

  /** A draw of 20 distinct numbers adds one to each of its pairs `(a, b)`,
      `a < b`, and to nothing else. */
  lemma PairTableGain(c: Counter<Pair>, d: Draw, p: Pair)
    requires Distinct(d.numbers)
    ensures Get(AddAll(c, AllPairs(SortInts(d.numbers)), 1.0), p)
            == Get(c, p) + (if p.0 in d.numbers && p.1 in d.numbers && p.0 < p.1 then 1.0 else 0.0)
  {
    SortDistinctIsStrict(d.numbers);
    SortedTableGain(c, SortInts(d.numbers), d.numbers, p);
  }

  lemma SortedTableGain(c: Counter<Pair>, s: seq<int>, t: seq<int>, p: Pair)
    requires StrictlyAscending(s) && multiset(s) == multiset(t)
    ensures Get(AddAll(c, AllPairs(s), 1.0), p)
            == Get(c, p) + (if p.0 in t && p.1 in t && p.0 < p.1 then 1.0 else 0.0)
  {
    AllPairsSize(s);
    SortedPairsMembers(s, t, p);
    DistinctGain(c, AllPairs(s), p, p.0 in t && p.1 in t && p.0 < p.1);
  }

  lemma DistinctGain(c: Counter<Pair>, ps: seq<Pair>, p: Pair, member: bool)
    requires Distinct(ps) && (p in ps <==> member)
    ensures Get(AddAll(c, ps, 1.0), p) == Get(c, p) + (if member then 1.0 else 0.0)
  {
    AddAllDistinctGet(c, ps, p);
  }

  /** ... and its 190 pairs raise the table's total by 190. */
  lemma PairTableTotal(c: Counter<Pair>, d: Draw)
    requires ValidDraw(d)
    ensures Total(AddAll(c, AllPairs(SortInts(d.numbers)), 1.0)) == Total(c) + 190.0
  {
    SortDistinctIsStrict(d.numbers);
    SortedTableTotal(c, SortInts(d.numbers));
  }

  lemma SortedTableTotal(c: Counter<Pair>, s: seq<int>)
    requires |s| == 20
    ensures Total(AddAll(c, AllPairs(s), 1.0)) == Total(c) + 190.0
  {
    TwentyPairsCount(s);
    TotalGain(c, AllPairs(s));
  }

  lemma TwentyPairsCount(s: seq<int>)
    requires |s| == 20
    ensures |AllPairs(s)| == 190
  {
    PairsUpToSize(s, |s|);
  }

  lemma TotalGain(c: Counter<Pair>, ps: seq<Pair>)
    requires |ps| == 190
    ensures Total(AddAll(c, ps, 1.0)) == Total(c) + 190.0
  {
    AddAllTotal(c, ps);
  }

  // ---------------------------------------------------------------------
  // Zone tuples.

  lemma {:induction false} ZoneTupleTotal(s: seq<int>)
    ensures TupleTotal(ZoneTupleOf(s)) == |s|
    decreases |s|
  {
    if s != [] {
      ZoneTupleTotal(s[..|s| - 1]);
    }
  }

  // ---------------------------------------------------------------------
  // The tables over well-formed rows.

  predicate ConsecutiveForm(c: Counter<Pair>) {
    forall i :: 0 <= i < |c| ==> c[i].0.1 == c[i].0.0 + 1
  }

  predicate TwentyPerTuple(c: Counter<ZoneTuple>) {
    forall i :: 0 <= i < |c| ==> TupleTotal(c[i].0) == 20
  }

  /** Well-formed draws have the two numbers a gap needs. */
  lemma ValidRowsHaveGaps(rows: seq<Draw>)
    requires AllValid(rows)
    ensures AllHaveGaps(rows)
    ensures forall k :: 0 <= k <= |rows| ==> AllValid(rows[..k]) && AllHaveGaps(rows[..k])
  {
  }

  /** Every consecutive-pair key is `(a, a + 1)`. */
  lemma {:induction false} ConsecutiveTableForm(rows: seq<Draw>)
    requires AllValid(rows)
    ensures AllHaveGaps(rows)
    ensures ConsecutiveForm(Accumulate(rows).consecutive)
    decreases |rows|
  {
    ValidRowsHaveGaps(rows);
    if rows != [] {
      var init := rows[..|rows| - 1];
      ConsecutiveTableForm(init);
      ConsecutiveFormAdded(Accumulate(init).consecutive, SortInts(rows[|rows| - 1].numbers));
    }
  }

  lemma PairTableStep(rows: seq<Draw>, init: seq<Draw>)
    requires AllValid(rows) && rows != [] && init == rows[..|rows| - 1]
    requires AllHaveGaps(init) && Total(Accumulate(init).pairs) == 190.0 * (|init| as real)
    ensures AllHaveGaps(rows)
    ensures Total(Accumulate(rows).pairs) == 190.0 * (|rows| as real)
  {
    ValidRowsHaveGaps(rows);
    var d := rows[|rows| - 1];
    AccumulateLast(rows);
    var t := Accumulate(init);
    var s := SortInts(d.numbers);
    assert Accumulate(rows) == Record(t, s);
    RecordPairs(t, s);
    PairTableTotal(t.pairs, d);
    assert (|rows| as real) == (|init| as real) + 1.0;
  }

  /** `Accumulate` records the last row on top of the others. */
  lemma AccumulateLast(rows: seq<Draw>)
    requires AllHaveGaps(rows) && rows != []
    ensures AllHaveGaps(rows[..|rows| - 1])
    ensures Accumulate(rows) == Record(Accumulate(rows[..|rows| - 1]), SortInts(rows[|rows| - 1].numbers))
  {
  }

  lemma RecordPairs(t: Tables, s: seq<int>)
    requires |s| >= 2
    ensures Record(t, s).pairs == AddAll(t.pairs, AllPairs(s), 1.0)
  {
  }

  /** The pair table holds 190 per well-formed draw. */
  lemma {:induction false} PairTableOfRows(rows: seq<Draw>)
    requires AllValid(rows)
    ensures AllHaveGaps(rows)
    ensures Total(Accumulate(rows).pairs) == 190.0 * (|rows| as real)
    decreases |rows|
  {
    ValidRowsHaveGaps(rows);
    if rows != [] {
      var init := rows[..|rows| - 1];
      PairTableOfRows(init);
      PairTableStep(rows, init);
    }
  }

  /** Every zone tuple of well-formed draws adds up to 20. */
  lemma {:induction false} ZoneTableOfRows(rows: seq<Draw>)
    requires AllValid(rows)
    ensures AllHaveGaps(rows)
    ensures TwentyPerTuple(Accumulate(rows).zones)
    decreases |rows|
  {
    ValidRowsHaveGaps(rows);
    if rows != [] {
      var init := rows[..|rows| - 1];
      var s := SortInts(rows[|rows| - 1].numbers);
      ZoneTableOfRows(init);
      ZoneTupleTotal(s);
      TwentyPerTupleAdded(Accumulate(init).zones, ZoneTupleOf(s));
    }
  }

  lemma ConsecutiveFormAdded(c: Counter<Pair>, s: seq<int>)
    requires ConsecutiveForm(c)
    ensures ConsecutiveForm(AddAll(c, ConsecutivePairs(s), 1.0))
  {
    var r := AddAll(c, ConsecutivePairs(s), 1.0);
    forall i | 0 <= i < |r| ensures r[i].0.1 == r[i].0.0 + 1 {
      var p := r[i].0;
      assert Keys(r)[i] == p;
      AddAllKeys(c, ConsecutivePairs(s), 1.0, p);
      if p in ConsecutivePairs(s) {
        ConsecutivePairsMeaning(s, 0, p);
      } else {
        var q :| 0 <= q < |c| && Keys(c)[q] == p;
      }
    }
  }

  lemma TwentyPerTupleAdded(c: Counter<ZoneTuple>, z: ZoneTuple)
    requires TwentyPerTuple(c)
    requires TupleTotal(z) == 20
    ensures TwentyPerTuple(Add(c, z, 1.0))
  {
    var r := Add(c, z, 1.0);
    forall i | 0 <= i < |r| ensures TupleTotal(r[i].0) == 20 {
      var k := r[i].0;
      assert Keys(r)[i] == k;
      if k != z {
        var q :| 0 <= q < |c| && Keys(c)[q] == k;
      }
    }
  }

  /** The ranked outputs hold at most 5, 10 and 5 entries with non-increasing
      counts; the sum range is attained and bounds every sum; the analysis fails
      exactly when the window is empty or some draw has fewer than two numbers. */
  lemma PatternsMeaning(rows: seq<Draw>)
    ensures Patterns(rows).Err? <==> rows == [] || exists i :: 0 <= i < |rows| && |rows[i].numbers| < 2
    ensures Patterns(rows).Ok? ==> var r := Patterns(rows).value;
      && |r.commonConsecutivePairs| <= 5 && Descending(r.commonConsecutivePairs)
      && |r.commonNumberPairs| <= 10 && Descending(r.commonNumberPairs)
      && |r.commonZoneCombinations| <= 5 && Descending(r.commonZoneCombinations)
      && |r.sumRange| == |rows| && |r.maxGaps| == |rows|
      && r.sumMin in r.sumRange && r.sumMax in r.sumRange
      && forall i :: 0 <= i < |r.sumRange| ==> r.sumMin <= r.sumRange[i] <= r.sumMax
  {
    if rows != [] && AllHaveGaps(rows) {
      var t := Accumulate(rows);
      AccumulateSums(rows);
      TopProperties(t.consecutive, 5);
      TopProperties(t.pairs, 10);
      TopProperties(t.zones, 5);
    }
  }
}
