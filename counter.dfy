/** Python's `Counter` / `defaultdict(float)`: a table from keys to weights that
    remembers the order in which keys were first inserted (which decides how
    ties are broken by a later stable sort). `c[k] += w` on a missing key
    inserts it at the end with value `0 + w`. */
module Counters {
  import opened Common

  type Counter<K> = seq<(K, real)>

  function Keys<K>(c: Counter<K>): (ks: seq<K>)
    ensures |ks| == |c|
    ensures forall i :: 0 <= i < |c| ==> ks[i] == c[i].0
    decreases |c|
  {
    if c == [] then [] else [c[0].0] + Keys(c[1..])
  }

  /** Every key is stored once. */
  predicate WellFormed<K(==)>(c: Counter<K>) {
    Distinct(Keys(c))
  }

  /** `c.get(k, 0)`. */
  function Get<K(==)>(c: Counter<K>, k: K): real
    decreases |c|
  {
    if c == [] then 0.0 else if c[0].0 == k then c[0].1 else Get(c[1..], k)
  }

  /** `c[k] += w`. */
  function Add<K(==,!new)>(c: Counter<K>, k: K, w: real): (r: Counter<K>)
    ensures Get(r, k) == Get(c, k) + w
    ensures forall k' :: k' != k ==> Get(r, k') == Get(c, k')
    ensures k in Keys(c) ==> Keys(r) == Keys(c)
    ensures k !in Keys(c) ==> Keys(r) == Keys(c) + [k]
    decreases |c|
  {
    if c == [] then [(k, w)]
    else if c[0].0 == k then [(k, c[0].1 + w)] + c[1..]
    else
      var tail := Add(c[1..], k, w);
      assert ([c[0]] + tail)[0] == c[0] && ([c[0]] + tail)[1..] == tail;
      [c[0]] + tail
  }

  /** `c[k] = v`: replaces the weight of a stored key, or appends a new key. */
  function Put<K(==,!new)>(c: Counter<K>, k: K, v: real): (r: Counter<K>)
    ensures Get(r, k) == v
    ensures forall k' :: k' != k ==> Get(r, k') == Get(c, k')
    ensures k in Keys(c) ==> Keys(r) == Keys(c)
    ensures k !in Keys(c) ==> Keys(r) == Keys(c) + [k]
    decreases |c|
  {
    if c == [] then [(k, v)]
    else if c[0].0 == k then [(k, v)] + c[1..]
    else
      var tail := Put(c[1..], k, v);
      assert ([c[0]] + tail)[0] == c[0] && ([c[0]] + tail)[1..] == tail;
      [c[0]] + tail
  }

  /** `sum(c.values())`. */
  function Total<K>(c: Counter<K>): real
    decreases |c|
  {
    if c == [] then 0.0 else c[0].1 + Total(c[1..])
  }

  /** Every stored weight is positive. */
  predicate Positive<K>(c: Counter<K>) {
    forall i :: 0 <= i < |c| ==> c[i].1 > 0.0
  }

  lemma {:induction false} GetAbsent<K>(c: Counter<K>, k: K)
    requires k !in Keys(c)
    ensures Get(c, k) == 0.0
    decreases |c|
  {
    if c != [] {
      assert Keys(c) == [c[0].0] + Keys(c[1..]);
      GetAbsent(c[1..], k);
    }
  }

  /** In a well-formed counter, `Get` reads the weight stored beside a key. */
  lemma {:induction false} GetEntry<K>(c: Counter<K>, i: int)
    requires WellFormed(c)
    requires 0 <= i < |c|
    ensures Get(c, c[i].0) == c[i].1
    decreases |c|
  {
    if i > 0 {
      assert Keys(c)[0] != Keys(c)[i];
      assert Keys(c[1..]) == Keys(c)[1..];
      GetEntry(c[1..], i - 1);
    }
  }

  /** The keys after `c[k] += w`: those of `c`, and `k`. */
  lemma AddMembers<K(!new)>(c: Counter<K>, k: K, w: real, x: K)
    ensures x in Keys(Add(c, k, w)) <==> x in Keys(c) || x == k
  {
    if k !in Keys(c) {
      assert Keys(Add(c, k, w)) == Keys(c) + [k];
    }
  }

  lemma AddWellFormed<K(!new)>(c: Counter<K>, k: K, w: real)
    requires WellFormed(c)
    ensures WellFormed(Add(c, k, w))
  {
    if k !in Keys(c) {
      var ks := Keys(c) + [k];
      assert forall i :: 0 <= i < |Keys(c)| ==> ks[i] == Keys(c)[i];
    }
  }

  lemma PutWellFormed<K(!new)>(c: Counter<K>, k: K, v: real)
    requires WellFormed(c)
    ensures WellFormed(Put(c, k, v))
  {
    if k !in Keys(c) {
      var ks := Keys(c) + [k];
      assert forall i :: 0 <= i < |Keys(c)| ==> ks[i] == Keys(c)[i];
    }
  }

  lemma {:induction false} AddTotal<K(!new)>(c: Counter<K>, k: K, w: real)
    ensures Total(Add(c, k, w)) == Total(c) + w
    decreases |c|
  {
    if c != [] && c[0].0 != k {
      AddTotal(c[1..], k, w);
      var tail := Add(c[1..], k, w);
      assert ([c[0]] + tail)[1..] == tail;
    } else if c != [] {
      assert ([(k, c[0].1 + w)] + c[1..])[1..] == c[1..];
    }
  }

  lemma {:induction false} AddPositive<K(!new)>(c: Counter<K>, k: K, w: real)
    requires Positive(c)
    requires w > 0.0
    ensures Positive(Add(c, k, w))
    decreases |c|
  {
    if c != [] && c[0].0 != k {
      AddPositive(c[1..], k, w);
      var tail := Add(c[1..], k, w);
      assert forall i :: 1 <= i < |tail| + 1 ==> ([c[0]] + tail)[i] == tail[i - 1];
    } else if c != [] {
      var r := [(k, c[0].1 + w)] + c[1..];
      assert forall i :: 1 <= i < |r| ==> r[i] == c[i];
    }
  }

  /** A key of a positive counter has a positive weight. */
  lemma {:induction false} GetPositive<K>(c: Counter<K>, k: K)
    requires Positive(c)
    requires k in Keys(c)
    ensures Get(c, k) > 0.0
    decreases |c|
  {
    assert Keys(c) == [c[0].0] + Keys(c[1..]);
    if c[0].0 != k {
      assert forall i :: 0 <= i < |c[1..]| ==> c[1..][i] == c[i + 1];
      GetPositive(c[1..], k);
    }
  }

  // ---------------------------------------------------------------------
  // Adding one weight for each key of a sequence.

  /** `for k in ks: c[k] += w`. */
  function AddAll<K(==,!new)>(c: Counter<K>, ks: seq<K>, w: real): Counter<K>
    decreases |ks|
  {
    if ks == [] then c
    else Add(AddAll(c, ks[..|ks| - 1], w), ks[|ks| - 1], w)
  }

  lemma AddAllSnoc<K(!new)>(c: Counter<K>, ks: seq<K>, k: K, w: real)
    ensures AddAll(c, ks + [k], w) == Add(AddAll(c, ks, w), k, w)
  {
    assert (ks + [k])[..|ks|] == ks;
  }

  /** One step of a loop over a prefix of `ks`. */
  lemma AddAllPrefixStep<K(!new)>(c: Counter<K>, ks: seq<K>, j: int, w: real)
    requires 0 <= j < |ks|
    ensures AddAll(c, ks[..j + 1], w) == Add(AddAll(c, ks[..j], w), ks[j], w)
  {
    var s := ks[..j + 1];
    assert s[..|s| - 1] == ks[..j];
    assert s[|s| - 1] == ks[j];
  }

  lemma {:induction false} AddAllGet<K(!new)>(c: Counter<K>, ks: seq<K>, w: real, k: K)
    ensures Get(AddAll(c, ks, w), k) == Get(c, k) + w * (Occurrences(ks, k) as real)
  {
    AddAllAdds(c, ks, w, k);
    RepeatedWeight(ks, w, k);
  }

  /** `w` added once per occurrence of `k` in `ks`. */
  function ScaledCount<K(==)>(ks: seq<K>, w: real, k: K): real
    decreases |ks|
  {
    if ks == [] then 0.0
    else ScaledCount(ks[..|ks| - 1], w, k) + (if ks[|ks| - 1] == k then w else 0.0)
  }

  lemma {:induction false} AddAllAdds<K(!new)>(c: Counter<K>, ks: seq<K>, w: real, k: K)
    ensures Get(AddAll(c, ks, w), k) == Get(c, k) + ScaledCount(ks, w, k)
    decreases |ks|
  {
    if ks != [] {
      AddAllAdds(c, ks[..|ks| - 1], w, k);
    }
  }

  lemma {:induction false} RepeatedWeight<K>(ks: seq<K>, w: real, k: K)
    ensures ScaledCount(ks, w, k) == w * (Occurrences(ks, k) as real)
    decreases |ks|
  {
    if ks != [] {
      var init := ks[..|ks| - 1];
      RepeatedWeight(init, w, k);
      MultiplySucc(w, Occurrences(init, k));
    }
  }

  lemma MultiplySucc(w: real, n: nat)
    ensures w * ((n + 1) as real) == w * (n as real) + w
  {
  }

  lemma {:induction false} AddAllKeys<K(!new)>(c: Counter<K>, ks: seq<K>, w: real, k: K)
    ensures k in Keys(AddAll(c, ks, w)) <==> k in Keys(c) || k in ks
    decreases |ks|
  {
    if ks != [] {
      var init := ks[..|ks| - 1];
      AddAllKeys(c, init, w, k);
      assert ks == init + [ks[|ks| - 1]];
    }
  }

  lemma {:induction false} AddAllWellFormed<K(!new)>(c: Counter<K>, ks: seq<K>, w: real)
    requires WellFormed(c)
    ensures WellFormed(AddAll(c, ks, w))
    decreases |ks|
  {
    if ks != [] {
      var init := ks[..|ks| - 1];
      AddAllWellFormed(c, init, w);
      AddWellFormed(AddAll(c, init, w), ks[|ks| - 1], w);
    }
  }

  lemma {:induction false} AddAllTotal<K(!new)>(c: Counter<K>, ks: seq<K>)
    ensures Total(AddAll(c, ks, 1.0)) == Total(c) + (|ks| as real)
    decreases |ks|
  {
    if ks != [] {
      var init := ks[..|ks| - 1];
      AddAllTotal(c, init);
      AddTotal(AddAll(c, init, 1.0), ks[|ks| - 1], 1.0);
    }
  }

  lemma {:induction false} AddAllPositive<K(!new)>(c: Counter<K>, ks: seq<K>, w: real)
    requires Positive(c) && w > 0.0
    ensures Positive(AddAll(c, ks, w))
    decreases |ks|
  {
    if ks != [] {
      var init := ks[..|ks| - 1];
      AddAllPositive(c, init, w);
      AddPositive(AddAll(c, init, w), ks[|ks| - 1], w);
    }
  }

  lemma {:induction false} AddAllAppend<K(!new)>(c: Counter<K>, a: seq<K>, b: seq<K>, w: real)
    ensures AddAll(c, a + b, w) == AddAll(AddAll(c, a, w), b, w)
    decreases |b|
  {
    if b == [] {
      assert a + b == a;
    } else {
      var init := b[..|b| - 1];
      var x := b[|b| - 1];
      assert a + b == (a + init) + [x];
      assert b == init + [x];
      AddAllAppend(c, a, init, w);
      AddAllSnoc(c, a + init, x, w);
      AddAllSnoc(AddAll(c, a, w), init, x, w);
    }
  }

  /** Adding a list of distinct keys once each raises each of them by one. */
  lemma AddAllDistinctGet<K(!new)>(c: Counter<K>, ks: seq<K>, k: K)
    requires Distinct(ks)
    ensures Get(AddAll(c, ks, 1.0), k) == Get(c, k) + (if k in ks then 1.0 else 0.0)
  {
    AddAllGet(c, ks, 1.0, k);
    OccurrencesDistinct(ks, k);
  }

  lemma {:induction false} ScaledCountNonNegative<K>(ks: seq<K>, w: real, k: K)
    requires w >= 0.0
    ensures ScaledCount(ks, w, k) >= 0.0
    decreases |ks|
  {
    if ks != [] {
      ScaledCountNonNegative(ks[..|ks| - 1], w, k);
    }
  }
}
