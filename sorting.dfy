/** Python's stable `sorted(..., key=..., reverse=True)` over an integer key. */
module Sorting {

  ghost predicate SortedDesc<T>(s: seq<T>, key: T -> int) {
    forall i, j :: 0 <= i < j < |s| ==> key(s[i]) >= key(s[j])
  }

  /** Inserts `x` before the first element whose key is not greater than its own, so that
      `x` stays ahead of the equal-keyed elements that came after it in the input. */
  function InsertDesc<T>(x: T, s: seq<T>, key: T -> int): (r: seq<T>)
    ensures |r| == |s| + 1
    ensures multiset(r) == multiset(s) + multiset{x}
  {
    if s == [] || key(s[0]) <= key(x) then
      [x] + s
    else
      assert s == [s[0]] + s[1..];
      [s[0]] + InsertDesc(x, s[1..], key)
  }

  lemma {:induction false} InsertBounded<T>(x: T, s: seq<T>, key: T -> int, b: int)
    requires key(x) <= b
    requires forall i :: 0 <= i < |s| ==> key(s[i]) <= b
    ensures forall i :: 0 <= i < |InsertDesc(x, s, key)| ==> key(InsertDesc(x, s, key)[i]) <= b
  {
    if s != [] && key(s[0]) > key(x) {
      InsertBounded(x, s[1..], key, b);
      var r := InsertDesc(x, s, key);
      assert forall i :: 1 <= i < |r| ==> r[i] == InsertDesc(x, s[1..], key)[i - 1];
    }
  }

  lemma {:induction false} InsertSorted<T>(x: T, s: seq<T>, key: T -> int)
    requires SortedDesc(s, key)
    ensures SortedDesc(InsertDesc(x, s, key), key)
  {
    if s != [] && key(s[0]) > key(x) {
      var rest := InsertDesc(x, s[1..], key);
      InsertSorted(x, s[1..], key);
      InsertBounded(x, s[1..], key, key(s[0]));
      ConsSorted(s[0], rest, key);
    }
  }

  lemma ConsSorted<T>(x: T, rest: seq<T>, key: T -> int)
    requires SortedDesc(rest, key)
    requires forall i :: 0 <= i < |rest| ==> key(rest[i]) <= key(x)
    ensures SortedDesc([x] + rest, key)
  {
    var r := [x] + rest;
    forall i, j | 0 <= i < j < |r| ensures key(r[i]) >= key(r[j]) {
      assert r[j] == rest[j - 1];
      if i > 0 {
        assert r[i] == rest[i - 1];
      }
    }
  }

  /** Insertion sort, descending by `key`, stable. */
  function SortDesc<T>(s: seq<T>, key: T -> int): (r: seq<T>)
    ensures |r| == |s|
    ensures multiset(r) == multiset(s)
    ensures SortedDesc(r, key)
  {
    if s == [] then []
    else
      assert s == [s[0]] + s[1..];
      InsertSorted(s[0], SortDesc(s[1..], key), key);
      InsertDesc(s[0], SortDesc(s[1..], key), key)
  }

  /** The first `n` elements of a descending sequence are descending, come from it, and no
      later element has a greater key than any of them. */
  lemma TopOfSorted<T>(s: seq<T>, n: nat, key: T -> int)
    requires n <= |s| && SortedDesc(s, key)
    ensures SortedDesc(s[..n], key)
    ensures multiset(s[..n]) <= multiset(s)
    ensures forall i, j :: 0 <= i < n <= j < |s| ==> key(s[j]) <= key(s[..n][i])
  {
    assert s == s[..n] + s[n..];
    assert multiset(s) == multiset(s[..n]) + multiset(s[n..]);
  }

  /** No element left out of the first `n` of a descending sequence has a greater key than
      one kept. */
  lemma TopBeatsRest<T>(s: seq<T>, n: nat, key: T -> int)
    requires n <= |s| && SortedDesc(s, key)
    ensures forall e, f :: e in s && e !in s[..n] && f in s[..n] ==> key(e) <= key(f)
  {
    forall e, f | e in s && e !in s[..n] && f in s[..n] ensures key(e) <= key(f) {
      var j :| 0 <= j < |s| && s[j] == e;
      var i :| 0 <= i < n && s[..n][i] == f;
      assert j >= n;
      assert key(s[i]) >= key(s[j]);
    }
  }

  /** The elements of `s` whose key is `k`, in order. */
  function WithKey<T>(s: seq<T>, key: T -> int, k: int): seq<T> {
    if s == [] then []
    else KeyOnly(s[0], key, k) + WithKey(s[1..], key, k)
  }

  function KeyOnly<T>(x: T, key: T -> int, k: int): seq<T> {
    if key(x) == k then [x] else []
  }

  lemma WithKeyCons<T>(y: T, t: seq<T>, key: T -> int, k: int)
    ensures WithKey([y] + t, key, k) == KeyOnly(y, key, k) + WithKey(t, key, k)
  {
    assert ([y] + t)[1..] == t;
  }

  lemma {:induction false} InsertWithKey<T>(x: T, s: seq<T>, key: T -> int, k: int)
    ensures WithKey(InsertDesc(x, s, key), key, k) == KeyOnly(x, key, k) + WithKey(s, key, k)
  {
    if s == [] || key(s[0]) <= key(x) {
      WithKeyCons(x, s, key, k);
    } else {
      var r := InsertDesc(x, s[1..], key);
      InsertWithKey(x, s[1..], key, k);
      assert InsertDesc(x, s, key) == [s[0]] + r;
      WithKeyCons(s[0], r, key, k);
      assert WithKey(s, key, k) == KeyOnly(s[0], key, k) + WithKey(s[1..], key, k);
      SwapFronts(KeyOnly(s[0], key, k), KeyOnly(x, key, k), WithKey(s[1..], key, k));
    }
  }

  lemma SwapFronts<T>(a: seq<T>, b: seq<T>, w: seq<T>)
    requires a == [] || b == []
    ensures a + (b + w) == b + (a + w)
  {
    if a == [] {
      assert a + (b + w) == b + w == b + (a + w);
    } else {
      assert a + (b + w) == a + w == b + (a + w);
    }
  }

  /** Stability: among elements with equal keys the sorted order is the input order. */
  lemma {:induction false} SortStable<T>(s: seq<T>, key: T -> int, k: int)
    ensures WithKey(SortDesc(s, key), key, k) == WithKey(s, key, k)
  {
    if s != [] {
      SortStable(s[1..], key, k);
      InsertWithKey(s[0], SortDesc(s[1..], key), key, k);
    }
  }

  lemma {:induction false} WithKeyPrefix<T>(s: seq<T>, m: nat, key: T -> int, k: int)
    requires m <= |s|
    ensures WithKey(s[..m], key, k) <= WithKey(s, key, k)
  {
    if m > 0 {
      WithKeyPrefix(s[1..], m - 1, key, k);
      assert s[..m][1..] == s[1..][..m - 1];
    }
  }
}
