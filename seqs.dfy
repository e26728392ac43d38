/**
 * Order-preserving filters and counts by a key, the `filter(...)` /
 * `filter(...).length` idiom the hooks use throughout, with the facts the
 * rest of the model needs about them.
 */
module Seqs {

  /** `s.filter(x => key(x) === k)`: the elements whose key is k, in their original order. */
  function FilterKey<T, K(==)>(s: seq<T>, key: T -> K, k: K): (r: seq<T>)
    ensures |r| <= |s|
    ensures forall i :: 0 <= i < |r| ==> r[i] in s && key(r[i]) == k
    ensures forall i :: 0 <= i < |s| && key(s[i]) == k ==> s[i] in r
    decreases |s|
  {
    if s == [] then []
    else
      var init, last := s[..|s| - 1], s[|s| - 1];
      assert s == init + [last];
      FilterKey(init, key, k) + (if key(last) == k then [last] else [])
  }

  /** `s.filter(x => key(x) === k).length`. */
  function CountKey<T, K(==)>(s: seq<T>, key: T -> K, k: K): nat {
    |FilterKey(s, key, k)|
  }

  /** Filtering distributes over concatenation: the filter keeps the input order. */
  lemma {:induction false} FilterKeyConcat<T, K>(a: seq<T>, b: seq<T>, key: T -> K, k: K)
    ensures FilterKey(a + b, key, k) == FilterKey(a, key, k) + FilterKey(b, key, k)
    decreases |b|
  {
    if b == [] {
      assert a + b == a;
    } else {
      var init := b[..|b| - 1];
      assert (a + b)[..|a + b| - 1] == a + init;
      assert (a + b)[|a + b| - 1] == b[|b| - 1];
      FilterKeyConcat(a, init, key, k);
    }
  }

  /** Appending one element adds it to the filter exactly when its key matches. */
  lemma FilterKeySnoc<T, K>(s: seq<T>, x: T, key: T -> K, k: K)
    ensures FilterKey(s + [x], key, k) == FilterKey(s, key, k) + (if key(x) == k then [x] else [])
  {
    assert (s + [x])[..|s|] == s;
  }

  /** The same, for every key at once. */
  lemma FilterKeySnocAll<T, K>(s: seq<T>, x: T, key: T -> K)
    ensures forall k :: FilterKey(s + [x], key, k) == FilterKey(s, key, k) + (if key(x) == k then [x] else [])
  {
    forall k {
      FilterKeySnoc(s, x, key, k);
    }
  }

  /** When every element has key k the filter returns its input unchanged. */
  lemma {:induction false} FilterKeyAll<T, K>(s: seq<T>, key: T -> K, k: K)
    requires forall i :: 0 <= i < |s| ==> key(s[i]) == k
    ensures FilterKey(s, key, k) == s
    decreases |s|
  {
    if s != [] {
      var init := s[..|s| - 1];
      FilterKeyAll(init, key, k);
      assert s == init + [s[|s| - 1]];
    }
  }

  /** No two positions of ks hold the same key. */
  predicate Distinct<K(==)>(ks: seq<K>) {
    forall i, j :: 0 <= i < j < |ks| ==> ks[i] != ks[j]
  }

  /** The number of positions of ks that hold x. */
  function Occurrences<K(==)>(ks: seq<K>, x: K): nat {
    if ks == [] then 0 else (if ks[0] == x then 1 else 0) + Occurrences(ks[1..], x)
  }

  lemma {:induction false} OccurrencesDistinct<K>(ks: seq<K>, x: K)
    requires Distinct(ks)
    ensures Occurrences(ks, x) == if x in ks then 1 else 0
  {
    if ks != [] {
      OccurrencesDistinct(ks[1..], x);
      if ks[0] == x {
        assert x !in ks[1..] by {
          forall j | 0 <= j < |ks[1..]| ensures ks[1..][j] != x {
            assert ks[1..][j] == ks[j + 1];
          }
        }
      }
    }
  }

  /** The number of elements of s whose key is one of ks. */
  function CountIn<T, K(==)>(s: seq<T>, key: T -> K, ks: seq<K>): nat {
    if s == [] then 0
    else CountIn(s[..|s| - 1], key, ks) + (if key(s[|s| - 1]) in ks then 1 else 0)
  }

  /** The counts by each key of ks, added up. */
  function SumCounts<T, K(==)>(s: seq<T>, key: T -> K, ks: seq<K>): nat {
    if ks == [] then 0 else CountKey(s, key, ks[0]) + SumCounts(s, key, ks[1..])
  }

  lemma SumCountsCons<T, K>(s: seq<T>, key: T -> K, k: K, ks: seq<K>)
    ensures SumCounts(s, key, [k] + ks) == CountKey(s, key, k) + SumCounts(s, key, ks)
  {
    assert ([k] + ks)[1..] == ks;
  }

  lemma {:induction false} SumCountsSnoc<T, K>(s: seq<T>, x: T, key: T -> K, ks: seq<K>)
    ensures SumCounts(s + [x], key, ks) == SumCounts(s, key, ks) + Occurrences(ks, key(x))
  {
    if ks != [] {
      FilterKeySnoc(s, x, key, ks[0]);
      SumCountsSnoc(s, x, key, ks[1..]);
    }
  }

  /**
   * Counting by distinct keys counts each element at most once: the sum of
   * the per-key counts is the number of elements whose key is among them.
   */
  lemma {:induction false} SumCountsIsCountIn<T, K>(s: seq<T>, key: T -> K, ks: seq<K>)
    requires Distinct(ks)
    ensures SumCounts(s, key, ks) == CountIn(s, key, ks)
    decreases |s|
  {
    if s == [] {
      SumCountsEmpty(s, key, ks);
    } else {
      var init, last := s[..|s| - 1], s[|s| - 1];
      assert s == init + [last];
      SumCountsIsCountIn(init, key, ks);
      SumCountsSnoc(init, last, key, ks);
      OccurrencesDistinct(ks, key(last));
    }
  }

  lemma {:induction false} SumCountsEmpty<T, K>(s: seq<T>, key: T -> K, ks: seq<K>)
    requires s == []
    ensures SumCounts(s, key, ks) == 0
  {
    if ks != [] {
      SumCountsEmpty(s, key, ks[1..]);
    }
  }

  /** At most every element has its key among ks; all of them do when every key is. */
  lemma {:induction false} CountInBound<T, K>(s: seq<T>, key: T -> K, ks: seq<K>)
    ensures CountIn(s, key, ks) <= |s|
    ensures (forall i :: 0 <= i < |s| ==> key(s[i]) in ks) ==> CountIn(s, key, ks) == |s|
    decreases |s|
  {
    if s != [] {
      CountInBound(s[..|s| - 1], key, ks);
    }
  }

  /** Sum and bound together: the per-key counts of distinct keys add up to at most |s|. */
  lemma SumCountsBound<T, K>(s: seq<T>, key: T -> K, ks: seq<K>)
    requires Distinct(ks)
    ensures SumCounts(s, key, ks) <= |s|
    ensures (forall i :: 0 <= i < |s| ==> key(s[i]) in ks) ==> SumCounts(s, key, ks) == |s|
  {
    SumCountsIsCountIn(s, key, ks);
    CountInBound(s, key, ks);
  }
}
