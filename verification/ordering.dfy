/** Kotlin's `sortedBy`, `minByOrNull`, `maxByOrNull` and `take`, over
    sequences ordered by a real-valued key. `sortedBy` is a stable sort; it is
    modelled by a stable insertion sort, and its specification (sorted,
    a permutation, equal keys kept in input order) determines the result. */
module Ordering {
  import opened Base

  predicate SortedOn<T>(s: seq<T>, key: T -> real) {
    forall i, j :: 0 <= i < j < |s| ==> key(s[i]) <= key(s[j])
  }

  /** The elements whose key is `k`, in order. */
  function WithKey<T>(s: seq<T>, key: T -> real, k: real): seq<T> {
    if |s| == 0 then [] else (if key(s[0]) == k then [s[0]] else []) + WithKey(s[1..], key, k)
  }

  /** Inserts `x` before the first element whose key is not smaller. */
  function Insert<T(==,!new)>(x: T, s: seq<T>, key: T -> real): (r: seq<T>)
    requires SortedOn(s, key)
    ensures |r| == |s| + 1
    ensures multiset(r) == multiset(s) + multiset{x}
    ensures forall y :: y in r <==> y in s || y == x
    ensures SortedOn(r, key)
  {
    if |s| == 0 || key(x) <= key(s[0]) then [x] + s
    else
      var rest := Insert(x, s[1..], key);
      assert s == [s[0]] + s[1..];
      assert forall y :: y in rest ==> key(s[0]) <= key(y);
      SortedCons(s[0], rest, key);
      [s[0]] + rest
  }

  /** An element no larger than any of a sorted sequence may lead it. */
  lemma SortedCons<T>(h: T, rest: seq<T>, key: T -> real)
    requires SortedOn(rest, key) && forall y :: y in rest ==> key(h) <= key(y)
    ensures SortedOn([h] + rest, key)
  {
    forall i, j | 0 <= i < j < |[h] + rest| ensures key(([h] + rest)[i]) <= key(([h] + rest)[j]) {
      if i == 0 {
        assert ([h] + rest)[j] == rest[j - 1];
      }
    }
  }

  /** `sortedBy(key)`. */
  function SortOn<T(==,!new)>(s: seq<T>, key: T -> real): (r: seq<T>)
    ensures |r| == |s|
    ensures multiset(r) == multiset(s)
    ensures SortedOn(r, key)
  {
    if |s| == 0 then []
    else
      assert s == [s[0]] + s[1..];
      Insert(s[0], SortOn(s[1..], key), key)
  }

  lemma WithKeyCons<T(!new)>(x: T, s: seq<T>, key: T -> real, k: real)
    ensures WithKey([x] + s, key, k) == (if key(x) == k then [x] else []) + WithKey(s, key, k)
  {
    assert ([x] + s)[1..] == s;
  }

  lemma {:induction false} InsertKeepsKeyOrder<T(!new)>(x: T, s: seq<T>, key: T -> real, k: real)
    requires SortedOn(s, key)
    ensures WithKey(Insert(x, s, key), key, k) == (if key(x) == k then [x] else []) + WithKey(s, key, k)
  {
    if |s| == 0 || key(x) <= key(s[0]) {
      WithKeyCons(x, s, key, k);
    } else {
      var rest := Insert(x, s[1..], key);
      var ax: seq<T> := if key(x) == k then [x] else [];
      var a0: seq<T> := if key(s[0]) == k then [s[0]] else [];
      var w := WithKey(s[1..], key, k);
      assert WithKey(Insert(x, s, key), key, k) == a0 + (ax + w) by {
        assert Insert(x, s, key) == [s[0]] + rest;
        WithKeyCons(s[0], rest, key, k);
        InsertKeepsKeyOrder(x, s[1..], key, k);
      }
      assert WithKey(s, key, k) == a0 + w by {
        assert s == [s[0]] + s[1..];
        WithKeyCons(s[0], s[1..], key, k);
      }
      if key(x) == k {
        // every element placed before x has a smaller key than x
        assert a0 == [];
        assert a0 + (ax + w) == ax + w;
        assert a0 + w == w;
      } else {
        assert ax == [];
        assert ax + w == w;
        assert ax + (a0 + w) == a0 + w;
      }
    }
  }

  /** Stability: the elements sharing any one key keep their input order. */
  lemma {:induction false} SortOnIsStable<T(!new)>(s: seq<T>, key: T -> real, k: real)
    ensures WithKey(SortOn(s, key), key, k) == WithKey(s, key, k)
  {
    if |s| > 0 {
      SortOnIsStable(s[1..], key, k);
      InsertKeepsKeyOrder(s[0], SortOn(s[1..], key), key, k);
    }
  }

  /** `minByOrNull(key)` as an index: the first element of least key. */
  function FirstMinIndex<T>(s: seq<T>, key: T -> real): (k: nat)
    requires |s| > 0
    ensures k < |s|
    ensures forall j :: 0 <= j < |s| ==> key(s[k]) <= key(s[j])
    ensures forall j :: 0 <= j < k ==> key(s[k]) < key(s[j])
  {
    if |s| == 1 then 0
    else
      var k := FirstMinIndex(s[1..], key);
      if key(s[0]) <= key(s[1 + k]) then 0 else 1 + k
  }

  /** The head of the stably sorted sequence is the first element of least key,
      so `sortedBy(key).first()` and `minByOrNull(key)` agree. */
  lemma {:induction false} SortHeadIsFirstMin<T(!new)>(s: seq<T>, key: T -> real)
    requires |s| > 0
    ensures SortOn(s, key)[0] == s[FirstMinIndex(s, key)]
  {
    if |s| > 1 {
      SortHeadIsFirstMin(s[1..], key);
    }
  }

  /** `maxByOrNull(key)?.key ?: 0`. */
  function MaxKeyOrZero<T>(s: seq<T>, key: T -> real): (m: real)
    ensures |s| == 0 ==> m == 0.0
    ensures forall i :: 0 <= i < |s| ==> key(s[i]) <= m
    ensures |s| > 0 ==> exists i :: 0 <= i < |s| && key(s[i]) == m
  {
    if |s| == 0 then 0.0
    else if |s| == 1 then key(s[0])
    else
      var m := MaxKeyOrZero(s[1..], key);
      assert forall i :: 1 <= i < |s| ==> key(s[i]) == key(s[1..][i - 1]);
      if key(s[0]) >= m then key(s[0]) else m
  }

  /** In a sorted rearrangement of `s`, no element of a prefix has a larger
      key than any element of `s` the prefix leaves out. */
  lemma PrefixBelowRest<T>(s: seq<T>, sorted: seq<T>, key: T -> real, n: nat)
    requires SortedOn(sorted, key) && multiset(sorted) == multiset(s) && n <= |sorted|
    ensures forall x, y :: x in sorted[..n] && y in multiset(s) - multiset(sorted[..n]) ==> key(x) <= key(y)
  {
    LeftOutIsRest(s, sorted, n);
    SortedPrefixBelow(sorted, key, n);
    forall x, y | x in sorted[..n] && y in multiset(s) - multiset(sorted[..n]) ensures key(x) <= key(y) {
      assert y in multiset(sorted[n..]);
    }
  }

  /** What a prefix of a rearrangement leaves out is the rest of it. */
  lemma LeftOutIsRest<T>(s: seq<T>, sorted: seq<T>, n: nat)
    requires multiset(sorted) == multiset(s) && n <= |sorted|
    ensures multiset(s) - multiset(sorted[..n]) == multiset(sorted[n..])
  {
    assert sorted == sorted[..n] + sorted[n..];
  }

  /** In a sorted sequence, no element of a prefix has a larger key than an
      element after it. */
  lemma SortedPrefixBelow<T>(sorted: seq<T>, key: T -> real, n: nat)
    requires SortedOn(sorted, key) && n <= |sorted|
    ensures forall x, y :: x in sorted[..n] && y in sorted[n..] ==> key(x) <= key(y)
  {
    forall x, y | x in sorted[..n] && y in sorted[n..] ensures key(x) <= key(y) {
      var i :| 0 <= i < n && sorted[..n][i] == x;
      var j :| 0 <= j < |sorted| - n && sorted[n..][j] == y;
      assert sorted[i] == x && sorted[n + j] == y;
    }
  }

  /** The first `n` of the sorted elements (`sortedBy(key).take(n)`) have
      keys no larger than any element left out. */
  lemma TakeSmallest<T(!new)>(s: seq<T>, key: T -> real, n: nat)
    ensures var first := Take(SortOn(s, key), n);
      forall x, y :: x in first && y in multiset(s) - multiset(first) ==> key(x) <= key(y)
  {
    var sorted := SortOn(s, key);
    PrefixBelowRest(s, sorted, key, |Take(sorted, n)|);
  }

  /** `take(n)`. */
  function Take<T>(s: seq<T>, n: nat): (r: seq<T>)
    ensures |r| == Min(n, |s|)
    ensures r == s[..|r|]
    ensures multiset(r) <= multiset(s)
  {
    if n <= |s| then
      assert s == s[..n] + s[n..];
      s[..n]
    else s
  }
}
