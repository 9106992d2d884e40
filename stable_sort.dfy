/** `list.sort(key=...)` on integer keys: Python's sort is stable, so the
    result is the one stable ordering of the input by key. It is specified
    here as insertion of each element, in input order, after every element
    whose key is not larger. */
module StableSort {

  predicate SortedBy<T>(s: seq<T>, key: T -> int) {
    forall i, j | 0 <= i < j < |s| :: key(s[i]) <= key(s[j])
  }

  /** Inserts `x` after the last element of `sorted` whose key is not larger than its own. */
  function Insert<T>(sorted: seq<T>, x: T, key: T -> int): seq<T> {
    if sorted == [] then [x]
    else if key(sorted[|sorted| - 1]) <= key(x) then sorted + [x]
    else Insert(sorted[..|sorted| - 1], x, key) + [sorted[|sorted| - 1]]
  }

  /** `sorted(s, key=key)`. */
  function SortBy<T>(s: seq<T>, key: T -> int): seq<T> {
    if s == [] then [] else Insert(SortBy(s[..|s| - 1], key), s[|s| - 1], key)
  }

  /** The elements of `s` whose key is `k`, in their order in `s`. */
  function WithKey<T>(s: seq<T>, key: T -> int, k: int): seq<T> {
    if s == [] then []
    else WithKey(s[..|s| - 1], key, k) + (if key(s[|s| - 1]) == k then [s[|s| - 1]] else [])
  }

  // ---------------------------------------------------------------------
  // The sort result is ordered, a permutation of the input, and stable.

  lemma {:induction false} SortByPermutes<T>(s: seq<T>, key: T -> int)
    ensures |SortBy(s, key)| == |s|
    ensures multiset(SortBy(s, key)) == multiset(s)
    decreases |s|
  {
    if s != [] {
      var prefix := s[..|s| - 1];
      SortByPermutes(prefix, key);
      InsertPermutes(SortBy(prefix, key), s[|s| - 1], key);
      assert s == prefix + [s[|s| - 1]];
    }
  }

  lemma {:induction false} SortBySorted<T>(s: seq<T>, key: T -> int)
    ensures SortedBy(SortBy(s, key), key)
    decreases |s|
  {
    if s != [] {
      SortBySorted(s[..|s| - 1], key);
      InsertSorted(SortBy(s[..|s| - 1], key), s[|s| - 1], key);
    }
  }

  /** Stability: among elements with equal keys, the input order is kept. */
  lemma {:induction false} SortByStable<T>(s: seq<T>, key: T -> int, k: int)
    ensures WithKey(SortBy(s, key), key, k) == WithKey(s, key, k)
    decreases |s|
  {
    if s != [] {
      var prefix := s[..|s| - 1];
      SortByStable(prefix, key, k);
      InsertStable(SortBy(prefix, key), s[|s| - 1], key, k);
    }
  }

  lemma {:induction false} InsertPermutes<T>(sorted: seq<T>, x: T, key: T -> int)
    ensures |Insert(sorted, x, key)| == |sorted| + 1
    ensures multiset(Insert(sorted, x, key)) == multiset(sorted) + multiset{x}
    decreases |sorted|
  {
    if sorted != [] && key(sorted[|sorted| - 1]) > key(x) {
      var prefix := sorted[..|sorted| - 1];
      InsertPermutes(prefix, x, key);
      assert sorted == prefix + [sorted[|sorted| - 1]];
    }
  }

  lemma {:induction false} InsertSorted<T>(sorted: seq<T>, x: T, key: T -> int)
    requires SortedBy(sorted, key)
    ensures SortedBy(Insert(sorted, x, key), key)
    decreases |sorted|
  {
    if sorted != [] && key(sorted[|sorted| - 1]) > key(x) {
      var prefix := sorted[..|sorted| - 1];
      var last := sorted[|sorted| - 1];
      InsertSorted(prefix, x, key);
      InsertPermutes(prefix, x, key);
      var r := Insert(prefix, x, key);
      forall i | 0 <= i < |r| ensures key(r[i]) <= key(last) {
        assert r[i] in multiset(r);
        assert r[i] in multiset(prefix) || r[i] == x;
        if r[i] != x {
          var j :| 0 <= j < |prefix| && prefix[j] == r[i];
          assert sorted[j] == r[i];
        }
      }
    }
  }

  lemma {:induction false} InsertStable<T>(sorted: seq<T>, x: T, key: T -> int, k: int)
    ensures WithKey(Insert(sorted, x, key), key, k)
         == WithKey(sorted, key, k) + (if key(x) == k then [x] else [])
    decreases |sorted|
  {
    if sorted == [] {
    } else if key(sorted[|sorted| - 1]) <= key(x) {
      WithKeySnoc(sorted, x, key, k);
    } else {
      var prefix := sorted[..|sorted| - 1];
      var last := sorted[|sorted| - 1];
      var r := Insert(prefix, x, key);
      InsertStable(prefix, x, key, k);
      WithKeySnoc(r, last, key, k);
      assert WithKey(sorted, key, k) == WithKey(prefix, key, k) + (if key(last) == k then [last] else []);
      // `last` and `x` have different keys, so at most one of them is kept.
      assert key(last) != key(x);
    }
  }

  lemma WithKeySnoc<T>(s: seq<T>, y: T, key: T -> int, k: int)
    ensures WithKey(s + [y], key, k) == WithKey(s, key, k) + (if key(y) == k then [y] else [])
  {
    assert (s + [y])[..|s|] == s;
  }

}
