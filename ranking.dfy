/** Python's `sorted(items, key=lambda x: x[1], reverse=True)` on a list of
    (item, weight) pairs and the slice `[:n]` taken of it. Python's sort is
    stable, also with `reverse=True`: pairs of equal weight keep their
    original relative order. */
module Ranking {
  import opened Common
  import opened Counters

  predicate Descending<T>(s: seq<(T, real)>) {
    forall i, j :: 0 <= i < j < |s| ==> s[i].1 >= s[j].1
  }

  /** The pairs of `s` whose weight is exactly `v`, in their order in `s`. */
  function WithWeight<T>(s: seq<(T, real)>, v: real): seq<(T, real)>
    decreases |s|
  {
    if s == [] then [] else (if s[0].1 == v then [s[0]] else []) + WithWeight(s[1..], v)
  }

  /** Inserts `x` in front of the first pair that does not outweigh it. */
  function InsertDesc<T>(x: (T, real), s: seq<(T, real)>): (r: seq<(T, real)>)
    ensures |r| == |s| + 1
    decreases |s|
  {
    if s == [] || s[0].1 <= x.1 then [x] + s else [s[0]] + InsertDesc(x, s[1..])
  }

  function SortDesc<T>(s: seq<(T, real)>): (r: seq<(T, real)>)
    ensures |r| == |s|
    decreases |s|
  {
    if s == [] then [] else InsertDesc(s[0], SortDesc(s[1..]))
  }

  /** `sorted(s, key=weight, reverse=True)[:n]`. */
  function Top<T>(s: seq<(T, real)>, n: nat): (r: seq<(T, real)>)
    ensures |r| == Min(n, |s|)
  {
    SortedDescending(s);
    SortDesc(s)[..Min(n, |s|)]
  }

  lemma {:induction false} InsertDescPermutes<T>(x: (T, real), s: seq<(T, real)>)
    ensures multiset(InsertDesc(x, s)) == multiset(s) + multiset{x}
    decreases |s|
  {
    if s != [] && s[0].1 > x.1 {
      InsertDescPermutes(x, s[1..]);
      assert s == [s[0]] + s[1..];
    }
  }

  lemma {:induction false} InsertDescSorted<T>(x: (T, real), s: seq<(T, real)>)
    requires Descending(s)
    ensures Descending(InsertDesc(x, s))
    decreases |s|
  {
    if s != [] && s[0].1 > x.1 {
      InsertDescSorted(x, s[1..]);
      HeadBounds(s);
      InsertDescBound(x, s[1..], s[0].1);
      ConsDescending(s[0], InsertDesc(x, s[1..]));
    } else {
      InFrontBounds(x, s);
      ConsDescending(x, s);
    }
  }

  /** The head of a descending sequence weighs at least as much as its tail. */
  lemma HeadBounds<T>(s: seq<(T, real)>)
    requires Descending(s) && s != []
    ensures forall k :: 0 <= k < |s[1..]| ==> s[1..][k].1 <= s[0].1
  {
    forall k | 0 <= k < |s[1..]| ensures s[1..][k].1 <= s[0].1 {
      assert s[1..][k] == s[k + 1];
    }
  }

  lemma InFrontBounds<T>(x: (T, real), s: seq<(T, real)>)
    requires Descending(s) && (s == [] || s[0].1 <= x.1)
    ensures forall k :: 0 <= k < |s| ==> x.1 >= s[k].1
  {
  }

  /** Inserting a pair under a bound keeps every weight under it. */
  lemma {:induction false} InsertDescBound<T>(x: (T, real), s: seq<(T, real)>, b: real)
    requires x.1 <= b && forall k :: 0 <= k < |s| ==> s[k].1 <= b
    ensures forall k :: 0 <= k < |InsertDesc(x, s)| ==> InsertDesc(x, s)[k].1 <= b
    decreases |s|
  {
    if s != [] && s[0].1 > x.1 {
      var tail := s[1..];
      assert forall k :: 0 <= k < |tail| ==> tail[k] == s[k + 1];
      InsertDescBound(x, tail, b);
      ConsBound(s[0], InsertDesc(x, tail), b);
    } else {
      ConsBound(x, s, b);
    }
  }

  lemma ConsBound<T>(h: (T, real), t: seq<(T, real)>, b: real)
    requires h.1 <= b && forall k :: 0 <= k < |t| ==> t[k].1 <= b
    ensures forall k :: 0 <= k < |[h] + t| ==> ([h] + t)[k].1 <= b
  {
    var r := [h] + t;
    forall k | 0 <= k < |r| ensures r[k].1 <= b {
      if k > 0 {
        assert r[k] == t[k - 1];
      }
    }
  }

  lemma ConsDescending<T>(h: (T, real), t: seq<(T, real)>)
    requires Descending(t) && forall k :: 0 <= k < |t| ==> h.1 >= t[k].1
    ensures Descending([h] + t)
  {
    var r := [h] + t;
    forall i, j | 0 <= i < j < |r| ensures r[i].1 >= r[j].1 {
      assert r[j] == t[j - 1];
      if i > 0 {
        assert r[i] == t[i - 1];
      }
    }
  }

  /** The sort yields a descending permutation of its input. */
  lemma {:induction false} SortedDescending<T>(s: seq<(T, real)>)
    ensures Descending(SortDesc(s))
    ensures multiset(SortDesc(s)) == multiset(s)
    ensures |SortDesc(s)| == |s|
    decreases |s|
  {
    if s != [] {
      SortedDescending(s[1..]);
      InsertDescSorted(s[0], SortDesc(s[1..]));
      InsertDescPermutes(s[0], SortDesc(s[1..]));
      assert s == [s[0]] + s[1..];
    }
  }

  lemma {:induction false} InsertDescStable<T>(x: (T, real), s: seq<(T, real)>, v: real)
    ensures WithWeight(InsertDesc(x, s), v) == (if x.1 == v then [x] else []) + WithWeight(s, v)
    decreases |s|
  {
    if s != [] && s[0].1 > x.1 {
      var tail := InsertDesc(x, s[1..]);
      InsertDescStable(x, s[1..], v);
      var r := [s[0]] + tail;
      assert r[0] == s[0] && r[1..] == tail;
      var head := if s[0].1 == v then [s[0]] else [];
      var mid := if x.1 == v then [x] else [];
      assert WithWeight(r, v) == head + (mid + WithWeight(s[1..], v));
      assert WithWeight(s, v) == head + WithWeight(s[1..], v);
      assert head == [] || mid == [];
      assert head + (mid + WithWeight(s[1..], v)) == mid + (head + WithWeight(s[1..], v));
    } else {
      var r := [x] + s;
      assert r[0] == x && r[1..] == s;
    }
  }

  /** Stability: among pairs of one weight, the sort keeps their input order. */
  lemma {:induction false} SortDescStable<T>(s: seq<(T, real)>, v: real)
    ensures WithWeight(SortDesc(s), v) == WithWeight(s, v)
    decreases |s|
  {
    if s != [] {
      InsertDescStable(s[0], SortDesc(s[1..]), v);
      SortDescStable(s[1..], v);
    }
  }

  /** The ranked prefix: at most `n` pairs, weights non-increasing, ties in input
      order, every pair taken from the input, and no pair left out outweighs a
      ranked one. */
  lemma TopProperties<T>(s: seq<(T, real)>, n: nat)
    ensures |Top(s, n)| <= n
    ensures Descending(Top(s, n))
    ensures forall v :: WithWeight(Top(s, n), v) == WithWeight(SortDesc(s)[..Min(n, |s|)], v)
    ensures forall v :: WithWeight(SortDesc(s), v) == WithWeight(s, v)
    ensures forall i :: 0 <= i < |Top(s, n)| ==> Top(s, n)[i] in s
    ensures forall i, j :: 0 <= i < |Top(s, n)| <= j < |s| ==> Top(s, n)[i].1 >= SortDesc(s)[j].1
  {
    SortedDescending(s);
    var r := SortDesc(s);
    var m := Min(n, |s|);
    assert Top(s, n) == r[..m];
    PrefixDescending(r, m);
    SortDescStableAll(s);
    PrefixMembers(s, r, m);
    PrefixAbove(r, m);
  }

  lemma PrefixDescending<T>(r: seq<(T, real)>, m: int)
    requires Descending(r) && 0 <= m <= |r|
    ensures Descending(r[..m])
  {
  }

  lemma SortDescStableAll<T>(s: seq<(T, real)>)
    ensures forall v :: WithWeight(SortDesc(s), v) == WithWeight(s, v)
  {
    forall v ensures WithWeight(SortDesc(s), v) == WithWeight(s, v) {
      SortDescStable(s, v);
    }
  }

  lemma PrefixMembers<T>(s: seq<(T, real)>, r: seq<(T, real)>, m: int)
    requires multiset(r) == multiset(s) && 0 <= m <= |r|
    ensures forall i :: 0 <= i < |r[..m]| ==> r[..m][i] in s
  {
    forall i | 0 <= i < |r[..m]| ensures r[..m][i] in s {
      assert r[..m][i] == r[i];
      assert r[i] in multiset(r);
    }
  }

  lemma PrefixAbove<T>(r: seq<(T, real)>, m: int)
    requires Descending(r) && 0 <= m <= |r|
    ensures forall i, j :: 0 <= i < |r[..m]| <= j < |r| ==> r[..m][i].1 >= r[j].1
  {
    forall i, j | 0 <= i < |r[..m]| <= j < |r| ensures r[..m][i].1 >= r[j].1 {
      assert r[..m][i] == r[i];
    }
  }

  /** A key ranked at position `i` of a well-formed counter is outweighed by at
      most `i` keys: every key in the first `n` ranked places has fewer than `n`
      keys strictly above it. */
  lemma TopRankBound<K>(c: Counter<K>, i: nat)
    requires WellFormed(c)
    requires i < |c|
    ensures Get(c, SortDesc(c)[i].0) == SortDesc(c)[i].1
    ensures |Outweighing(c, SortDesc(c)[i].1)| <= i
  {
    var r := SortDesc(c);
    SortedDescending(c);
    assert r[i] in multiset(r);
    EntryOfRanked(c, r[i]);
    var above := Outweighing(c, r[i].1);
    var front := SetOf(Keys(r[..i]));
    forall y | y in above ensures y in front {
      RankedAbove(c, r, i, y);
    }
    SetOfSize(Keys(r[..i]));
    SetSubsetSize(above, front);
  }

  /** The keys of `c` whose weight exceeds `v`. */
  function Outweighing<K(==)>(c: Counter<K>, v: real): set<K> {
    set y | y in Keys(c) && Get(c, y) > v
  }

  lemma EntryOfRanked<K>(c: Counter<K>, e: (K, real))
    requires WellFormed(c)
    requires e in multiset(SortDesc(c))
    ensures Get(c, e.0) == e.1
  {
    SortedDescending(c);
    assert e in multiset(c);
    var p :| 0 <= p < |c| && c[p] == e;
    GetEntry(c, p);
  }

  lemma EntryOfKey<K>(c: Counter<K>, y: K)
    requires WellFormed(c)
    requires y in Keys(c)
    ensures (y, Get(c, y)) in multiset(SortDesc(c))
  {
    SortedDescending(c);
    var q :| 0 <= q < |c| && Keys(c)[q] == y;
    GetEntry(c, q);
    assert c[q] == (y, Get(c, y));
    assert c[q] in multiset(c);
  }

  lemma RankedAbove<K>(c: Counter<K>, r: seq<(K, real)>, i: nat, y: K)
    requires WellFormed(c)
    requires r == SortDesc(c) && Descending(r)
    requires i < |r|
    requires y in Keys(c) && Get(c, y) > r[i].1
    ensures y in SetOf(Keys(r[..i]))
  {
    EntryOfKey(c, y);
    var j :| 0 <= j < |r| && r[j] == (y, Get(c, y));
    HeavierComesFirst(r, i, j);
    KeyInPrefix(r, i, j);
  }

  lemma HeavierComesFirst<T>(r: seq<(T, real)>, i: int, j: int)
    requires Descending(r) && 0 <= i < |r| && 0 <= j < |r| && r[j].1 > r[i].1
    ensures j < i
  {
  }

  lemma KeyInPrefix<K>(r: seq<(K, real)>, i: int, j: int)
    requires 0 <= j < i <= |r|
    ensures r[j].0 in SetOf(Keys(r[..i]))
  {
    assert Keys(r[..i])[j] == r[..i][j].0 == r[j].0;
  }

  lemma SetSubsetSize<T>(a: set<T>, b: set<T>)
    requires a <= b
    ensures |a| <= |b|
  {
    assert b == a + (b - a);
  }

  /** Ranking a well-formed counter keeps every key once. */
  lemma SortDescKeysDistinct<K>(c: Counter<K>)
    requires WellFormed(c)
    ensures Distinct(Keys(SortDesc(c)))
  {
    var r := SortDesc(c);
    SortedDescending(c);
    DistinctKeysDistinctEntries(c);
    NoDuplicatesWhenDistinct(c);
    DistinctWhenNoDuplicates(r);
    PermutedKeysDistinct(c, r);
  }

  lemma DistinctKeysDistinctEntries<K>(c: Counter<K>)
    requires WellFormed(c)
    ensures Distinct(c)
  {
    forall i, j | 0 <= i < j < |c| ensures c[i] != c[j] {
      assert Keys(c)[i] != Keys(c)[j];
    }
  }

  lemma PermutedKeysDistinct<K>(c: Counter<K>, r: seq<(K, real)>)
    requires WellFormed(c) && Distinct(r) && multiset(r) == multiset(c)
    ensures Distinct(Keys(r))
  {
    forall i, j | 0 <= i < j < |r| ensures Keys(r)[i] != Keys(r)[j] {
      assert r[i] in multiset(r) && r[j] in multiset(r);
      EntriesKeysDiffer(c, r[i], r[j]);
    }
  }

  lemma EntriesKeysDiffer<K>(c: Counter<K>, a: (K, real), b: (K, real))
    requires WellFormed(c) && a in multiset(c) && b in multiset(c) && a != b
    ensures a.0 != b.0
  {
    var p :| 0 <= p < |c| && c[p] == a;
    var q :| 0 <= q < |c| && c[q] == b;
    assert Keys(c)[p] == a.0 && Keys(c)[q] == b.0;
  }
}
