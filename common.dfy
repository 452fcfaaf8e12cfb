/** Shared vocabulary: error results, properties of integer sequences, sums,
    counting, Python's `sorted` on a list of ints and on a set of ints. */
module Common {

  datatype Option<T> = None | Some(value: T)

  /** The Python exceptions the modelled code can raise. */
  datatype Error =
    | IndexError      // `.iloc[0]` on an empty frame
    | ValueError      // `int()` of a malformed token, `max([])`, `min([])`, a numpy sample that is too large
    | KeyError        // an unknown dictionary key
    | ZeroDivision    // a division by a zero count

  datatype Result<T> = Ok(value: T) | Err(error: Error)

  predicate Distinct<T(==)>(s: seq<T>) {
    forall i, j :: 0 <= i < j < |s| ==> s[i] != s[j]
  }

  predicate StrictlyAscending(s: seq<int>) {
    forall i, j :: 0 <= i < j < |s| ==> s[i] < s[j]
  }

  predicate NonDecreasing(s: seq<int>) {
    forall i, j :: 0 <= i < j < |s| ==> s[i] <= s[j]
  }

  predicate AllIn(s: seq<int>, lo: int, hi: int) {
    forall i :: 0 <= i < |s| ==> lo <= s[i] <= hi
  }

  function SetOf<T>(s: seq<T>): set<T> {
    set x | x in s
  }

  function Sum(s: seq<int>): int
    decreases |s|
  {
    if s == [] then 0 else Sum(s[..|s| - 1]) + s[|s| - 1]
  }

  lemma {:induction false} SumConcat(a: seq<int>, b: seq<int>)
    ensures Sum(a + b) == Sum(a) + Sum(b)
    decreases |b|
  {
    if b != [] {
      var init := b[..|b| - 1];
      SumConcat(a, init);
      assert (a + b)[..|a + b| - 1] == a + init;
    } else {
      assert a + b == a;
    }
  }

  /** Adding `d` to one item adds `d` to the sum. */
  lemma SumUpdate(s: seq<int>, v: int, d: int)
    requires 0 <= v < |s|
    ensures Sum(s[v := s[v] + d]) == Sum(s) + d
  {
    var t := s[v := s[v] + d];
    assert s == s[..v] + [s[v]] + s[v + 1..];
    assert t == s[..v] + [s[v] + d] + s[v + 1..];
    SumConcat(s[..v] + [s[v]], s[v + 1..]);
    SumConcat(s[..v], [s[v]]);
    SumConcat(s[..v] + [s[v] + d], s[v + 1..]);
    SumConcat(s[..v], [s[v] + d]);
  }

  lemma {:induction false} SumNonNegative(s: seq<int>)
    requires forall i :: 0 <= i < |s| ==> s[i] >= 0
    ensures Sum(s) >= 0
    decreases |s|
  {
    if s != [] {
      SumNonNegative(s[..|s| - 1]);
    }
  }

  lemma {:induction false} SumZero(s: seq<int>)
    requires forall i :: 0 <= i < |s| ==> s[i] == 0
    ensures Sum(s) == 0
    decreases |s|
  {
    if s != [] {
      SumZero(s[..|s| - 1]);
    }
  }

  lemma {:induction false} OccurrencesConcat<T>(a: seq<T>, b: seq<T>, x: T)
    ensures Occurrences(a + b, x) == Occurrences(a, x) + Occurrences(b, x)
    decreases |b|
  {
    if b != [] {
      var init := b[..|b| - 1];
      OccurrencesConcat(a, init, x);
      assert (a + b)[..|a + b| - 1] == a + init;
    } else {
      assert a + b == a;
    }
  }

  function Max(a: int, b: int): int {
    if a >= b then a else b
  }

  function Min(a: int, b: int): int {
    if a <= b then a else b
  }

  /** Python's `max(s)`, defined for a non-empty list. */
  function MaxOf(s: seq<int>): (m: int)
    requires s != []
    ensures m in s
    ensures forall i :: 0 <= i < |s| ==> s[i] <= m
    decreases |s|
  {
    if |s| == 1 then s[0]
    else
      var rest := MaxOf(s[..|s| - 1]);
      assert s == s[..|s| - 1] + [s[|s| - 1]];
      if s[|s| - 1] > rest then s[|s| - 1] else rest
  }

  /** Python's `min(s)`, defined for a non-empty list. */
  function MinOf(s: seq<int>): (m: int)
    requires s != []
    ensures m in s
    ensures forall i :: 0 <= i < |s| ==> m <= s[i]
    decreases |s|
  {
    if |s| == 1 then s[0]
    else
      var rest := MinOf(s[..|s| - 1]);
      assert s == s[..|s| - 1] + [s[|s| - 1]];
      if s[|s| - 1] < rest then s[|s| - 1] else rest
  }

  lemma DistinctConcat<T>(a: seq<T>, b: seq<T>)
    requires Distinct(a) && Distinct(b)
    requires forall x :: x in a ==> x !in b
    ensures Distinct(a + b)
  {
    var ab := a + b;
    forall i, j | 0 <= i < j < |ab| ensures ab[i] != ab[j] {
      if j < |a| {
        assert ab[i] == a[i] && ab[j] == a[j];
      } else if i >= |a| {
        assert ab[i] == b[i - |a|] && ab[j] == b[j - |a|];
      } else {
        assert ab[i] == a[i] && ab[j] == b[j - |a|];
        assert a[i] in a;
      }
    }
  }

  /** Number of occurrences of `x` in `s`. */
  function Occurrences<T(==)>(s: seq<T>, x: T): nat
    decreases |s|
  {
    if s == [] then 0 else Occurrences(s[..|s| - 1], x) + (if s[|s| - 1] == x then 1 else 0)
  }

  lemma {:induction false} OccurrencesPositive<T>(s: seq<T>, x: T)
    ensures Occurrences(s, x) > 0 <==> x in s
  {
    if s != [] {
      OccurrencesPositive(s[..|s| - 1], x);
      assert s == s[..|s| - 1] + [s[|s| - 1]];
    }
  }

  /** In a sequence of distinct elements, every element occurs exactly once. */
  lemma {:induction false} OccurrencesDistinct<T>(s: seq<T>, x: T)
    requires Distinct(s)
    ensures Occurrences(s, x) == (if x in s then 1 else 0)
  {
    if s != [] {
      var init := s[..|s| - 1];
      assert Distinct(init);
      OccurrencesDistinct(init, x);
      assert s == init + [s[|s| - 1]];
      assert s[|s| - 1] !in init;
    }
  }

  /** The cardinality of the set of a sequence's elements never exceeds its length,
      and equals it exactly when the elements are distinct. */
  lemma {:induction false} SetOfSize<T>(s: seq<T>)
    ensures |SetOf(s)| <= |s|
    ensures Distinct(s) ==> |SetOf(s)| == |s|
  {
    if s != [] {
      var init := s[..|s| - 1];
      SetOfSize(init);
      assert SetOf(s) == SetOf(init) + {s[|s| - 1]};
      if Distinct(s) {
        assert Distinct(init);
        assert s[|s| - 1] !in SetOf(init);
      }
    }
  }

  // ---------------------------------------------------------------------
  // Python's sorted() on a list of ints: insertion sort, ascending.

  function InsertAscending(x: int, s: seq<int>): seq<int>
    decreases |s|
  {
    if s == [] || x <= s[0] then [x] + s else [s[0]] + InsertAscending(x, s[1..])
  }

  lemma {:induction false} InsertAscendingCount(x: int, s: seq<int>)
    ensures multiset(InsertAscending(x, s)) == multiset(s) + multiset{x}
    ensures |InsertAscending(x, s)| == |s| + 1
    decreases |s|
  {
    if s != [] && x > s[0] {
      InsertAscendingCount(x, s[1..]);
      assert s == [s[0]] + s[1..];
    }
  }

  /** A bound below `x` and every element of `s` stays below the insertion. */
  lemma {:induction false} InsertAscendingBound(x: int, s: seq<int>, lo: int)
    requires lo <= x && forall i :: 0 <= i < |s| ==> lo <= s[i]
    ensures forall i :: 0 <= i < |InsertAscending(x, s)| ==> lo <= InsertAscending(x, s)[i]
    decreases |s|
  {
    if s != [] && x > s[0] {
      InsertAscendingBound(x, s[1..], lo);
    }
  }

  lemma ConsNonDecreasing(a: int, t: seq<int>)
    requires NonDecreasing(t) && forall i :: 0 <= i < |t| ==> a <= t[i]
    ensures NonDecreasing([a] + t)
  {
    var r := [a] + t;
    forall i, j | 0 <= i < j < |r| ensures r[i] <= r[j] {
      assert r[j] == t[j - 1];
      if i > 0 {
        assert r[i] == t[i - 1];
      }
    }
  }

  lemma {:induction false} InsertAscendingSorted(x: int, s: seq<int>)
    requires NonDecreasing(s)
    ensures NonDecreasing(InsertAscending(x, s))
    decreases |s|
  {
    if s == [] || x <= s[0] {
      ConsNonDecreasing(x, s);
    } else {
      assert NonDecreasing(s[1..]);
      InsertAscendingSorted(x, s[1..]);
      InsertAscendingBound(x, s[1..], s[0]);
      ConsNonDecreasing(s[0], InsertAscending(x, s[1..]));
    }
  }

  /** `sorted(xs)` for a list of ints: ascending, and a permutation of the input. */
  function SortInts(s: seq<int>): (r: seq<int>)
    ensures NonDecreasing(r)
    ensures multiset(r) == multiset(s)
    ensures |r| == |s|
    decreases |s|
  {
    if s == [] then []
    else
      assert s == [s[0]] + s[1..];
      InsertAscendingSorted(s[0], SortInts(s[1..]));
      InsertAscendingCount(s[0], SortInts(s[1..]));
      InsertAscending(s[0], SortInts(s[1..]))
  }

  lemma {:induction false} DistinctWhenNoDuplicates<T>(s: seq<T>)
    requires forall x :: multiset(s)[x] <= 1
    ensures Distinct(s)
  {
    forall i, j | 0 <= i < j < |s| ensures s[i] != s[j] {
      RepeatedCount(s, i, j);
    }
  }

  lemma RepeatedCount<T>(s: seq<T>, i: int, j: int)
    requires 0 <= i < j < |s|
    ensures s[i] == s[j] ==> multiset(s)[s[j]] >= 2
  {
    assert s == s[..j] + [s[j]] + s[j + 1..];
    assert s[i] in s[..j];
    assert multiset(s) == multiset(s[..j]) + multiset{s[j]} + multiset(s[j + 1..]);
  }

  lemma {:induction false} NoDuplicatesWhenDistinct<T>(s: seq<T>)
    requires Distinct(s)
    ensures forall x :: multiset(s)[x] <= 1
  {
    if s != [] {
      var init := s[..|s| - 1];
      assert s == init + [s[|s| - 1]];
      assert Distinct(init);
      NoDuplicatesWhenDistinct(init);
      assert s[|s| - 1] !in init;
      assert multiset(s) == multiset(init) + multiset{s[|s| - 1]};
    }
  }

  /** Sorting a list of distinct ints yields a strictly ascending list. */
  lemma SortDistinctIsStrict(s: seq<int>)
    requires Distinct(s)
    ensures StrictlyAscending(SortInts(s))
    ensures Distinct(SortInts(s))
  {
    var r := SortInts(s);
    NoDuplicatesWhenDistinct(s);
    DistinctWhenNoDuplicates(r);
  }

  // ---------------------------------------------------------------------
  // Python's sorted(set(xs)) on a list of ints.

  /** Drops repeated neighbours of an ascending list. */
  function DedupSorted(s: seq<int>): (r: seq<int>)
    requires NonDecreasing(s)
    ensures StrictlyAscending(r)
    ensures forall x :: x in r <==> x in s
    ensures |r| > 0 ==> |s| > 0 && r[|r| - 1] == s[|s| - 1]
    decreases |s|
  {
    if |s| <= 1 then s
    else
      var init := s[..|s| - 1];
      var last := s[|s| - 1];
      var rest := DedupSorted(init);
      assert s == init + [last];
      if last == init[|init| - 1] then rest
      else
        assert forall k :: 0 <= k < |rest| ==> rest[k] < last by {
          forall k | 0 <= k < |rest| ensures rest[k] < last {
            assert rest[k] in init;
            var idx :| 0 <= idx < |init| && init[idx] == rest[k];
            assert s[idx] <= s[|s| - 2];
          }
        }
        AppendAscending(rest, last);
        rest + [last]
  }

  lemma AppendAscending(s: seq<int>, x: int)
    requires StrictlyAscending(s)
    requires forall k :: 0 <= k < |s| ==> s[k] < x
    ensures StrictlyAscending(s + [x])
  {
    var r := s + [x];
    forall i, j | 0 <= i < j < |r| ensures r[i] < r[j] {
      assert r[i] == s[i];
      if j < |s| {
        assert r[j] == s[j];
      }
    }
  }

  /** `sorted(set(xs))`: the distinct elements of `xs`, strictly ascending. */
  function SortedElements(s: seq<int>): (r: seq<int>)
    ensures StrictlyAscending(r)
    ensures forall x :: x in r <==> x in s
  {
    var sorted := SortInts(s);
    assert forall x :: x in sorted <==> x in s by {
      forall x ensures x in sorted <==> x in s {
        assert x in multiset(sorted) <==> x in multiset(s);
      }
    }
    DedupSorted(sorted)
  }
}
