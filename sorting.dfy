/** Python's `list.sort(key=...)`: a stable sort. Ascending by a real key; the
    descending sorts of the scanners (`reverse=True`, which Python keeps stable)
    are ascending sorts by the negated key. */
module Sorting {

  ghost predicate SortedBy<T>(s: seq<T>, key: T -> real) {
    forall i, j :: 0 <= i < j < |s| ==> key(s[i]) <= key(s[j])
  }

  /** The elements whose key is `k`, in their order in `s`. A sort is stable
      exactly when it keeps every such subsequence as it was. */
  function WithKey<T>(s: seq<T>, key: T -> real, k: real): seq<T> {
    if s == [] then []
    else (if key(s[0]) == k then [s[0]] else []) + WithKey(s[1..], key, k)
  }

  /** Places `x` before the first element whose key is not smaller. */
  function Insert<T>(x: T, s: seq<T>, key: T -> real): (r: seq<T>)
    ensures |r| == |s| + 1
  {
    if s == [] then [x]
    else if key(x) <= key(s[0]) then [x] + s
    else [s[0]] + Insert(x, s[1..], key)
  }

  /** Insertion adds `x` and nothing else. */
  lemma {:induction false} InsertMultiset<T>(x: T, s: seq<T>, key: T -> real)
    ensures multiset(Insert(x, s, key)) == multiset(s) + multiset{x}
  {
    if s != [] && key(s[0]) < key(x) {
      InsertMultiset(x, s[1..], key);
      assert s == [s[0]] + s[1..];
    }
  }

  /** A lower bound of `x` and of every element of `s` bounds every element after insertion. */
  lemma {:induction false} InsertLowerBound<T>(x: T, s: seq<T>, key: T -> real, b: real)
    requires b <= key(x) && forall i :: 0 <= i < |s| ==> b <= key(s[i])
    ensures forall i :: 0 <= i < |Insert(x, s, key)| ==> b <= key(Insert(x, s, key)[i])
  {
    if s != [] && key(s[0]) < key(x) {
      InsertLowerBound(x, s[1..], key, b);
      assert Insert(x, s, key) == [s[0]] + Insert(x, s[1..], key);
    }
  }

  lemma {:induction false} InsertSorted<T>(x: T, s: seq<T>, key: T -> real)
    requires SortedBy(s, key)
    ensures SortedBy(Insert(x, s, key), key)
  {
    if s != [] && key(s[0]) < key(x) {
      var tail := s[1..];
      var rest := Insert(x, tail, key);
      forall i, j | 0 <= i < j < |tail| ensures key(tail[i]) <= key(tail[j]) {
        assert tail[i] == s[i + 1] && tail[j] == s[j + 1];
      }
      forall i | 0 <= i < |tail| ensures key(s[0]) <= key(tail[i]) {
        assert tail[i] == s[i + 1];
      }
      InsertSorted(x, tail, key);
      InsertLowerBound(x, tail, key, key(s[0]));
      var r := [s[0]] + rest;
      assert Insert(x, s, key) == r;
      forall i, j | 0 <= i < j < |r| ensures key(r[i]) <= key(r[j]) {
        assert r[j] == rest[j - 1];
        if i == 0 {
          assert r[i] == s[0];
        } else {
          assert r[i] == rest[i - 1];
        }
      }
    }
  }

  /** Stable insertion sort, ascending by `key`. */
  function SortBy<T>(s: seq<T>, key: T -> real): (r: seq<T>)
    ensures |r| == |s|
    ensures multiset(r) == multiset(s)
    ensures SortedBy(r, key)
  {
    if s == [] then []
    else
      assert s == [s[0]] + s[1..];
      InsertSorted(s[0], SortBy(s[1..], key), key);
      InsertMultiset(s[0], SortBy(s[1..], key), key);
      Insert(s[0], SortBy(s[1..], key), key)
  }

  lemma WithKeyCons<T>(a: T, t: seq<T>, key: T -> real, k: real)
    ensures WithKey([a] + t, key, k) == (if key(a) == k then [a] else []) + WithKey(t, key, k)
  {
    assert ([a] + t)[1..] == t;
  }

  lemma {:induction false} InsertStable<T>(x: T, s: seq<T>, key: T -> real, k: real)
    ensures WithKey(Insert(x, s, key), key, k)
         == (if key(x) == k then [x] else []) + WithKey(s, key, k)
    decreases |s|, 1
  {
    if s == [] {
      WithKeyCons(x, [], key, k);
    } else if key(x) <= key(s[0]) {
      WithKeyCons(x, s, key, k);
    } else {
      InsertStablePast(x, s, key, k);
    }
  }

  /** The case where `x` moves past the head of `s`: the head's key is smaller, so the
      two cannot both have key `k`. */
  lemma {:induction false} InsertStablePast<T>(x: T, s: seq<T>, key: T -> real, k: real)
    requires s != [] && key(s[0]) < key(x)
    ensures WithKey(Insert(x, s, key), key, k)
         == (if key(x) == k then [x] else []) + WithKey(s, key, k)
    decreases |s|, 0
  {
    var rest := Insert(x, s[1..], key);
    var w := WithKey(s[1..], key, k);
    assert Insert(x, s, key) == [s[0]] + rest;
    assert s == [s[0]] + s[1..];
    InsertStable(x, s[1..], key, k);
    WithKeyCons(s[0], rest, key, k);
    WithKeyCons(s[0], s[1..], key, k);
    if key(x) == k {
      assert key(s[0]) != k;
      assert WithKey(rest, key, k) == [x] + w;
      assert WithKey([s[0]] + rest, key, k) == [x] + w;
      assert WithKey(s, key, k) == w;
    } else if key(s[0]) == k {
      assert WithKey(rest, key, k) == w;
      assert WithKey([s[0]] + rest, key, k) == [s[0]] + w;
      assert WithKey(s, key, k) == [s[0]] + w;
    } else {
      assert WithKey(rest, key, k) == w;
      assert WithKey([s[0]] + rest, key, k) == w;
      assert WithKey(s, key, k) == w;
    }
  }

  /** Stability: among elements of equal key, the sorted order is the input order. */
  lemma {:induction false} SortByStable<T>(s: seq<T>, key: T -> real, k: real)
    ensures WithKey(SortBy(s, key), key, k) == WithKey(s, key, k)
  {
    if s != [] {
      SortByStable(s[1..], key, k);
      InsertStable(s[0], SortBy(s[1..], key), key, k);
    }
  }

  /** Every element of the sorted list comes from the input, and conversely. */
  lemma SortByMembers<T>(s: seq<T>, key: T -> real, x: T)
    ensures x in SortBy(s, key) <==> x in s
  {
    var r := SortBy(s, key);
    assert x in r <==> x in multiset(r);
    assert x in s <==> x in multiset(s);
  }

  /** Sorting never makes two elements agree on `f` (a symbol, say) when no two did. */
  lemma {:induction false} SortByKeepsDistinct<T, U>(s: seq<T>, key: T -> real, f: T -> U)
    requires forall i, j :: 0 <= i < j < |s| ==> f(s[i]) != f(s[j])
    ensures forall i, j :: 0 <= i < j < |SortBy(s, key)| ==> f(SortBy(s, key)[i]) != f(SortBy(s, key)[j])
  {
    if s != [] {
      var t := SortBy(s[1..], key);
      SortByKeepsDistinct(s[1..], key, f);
      forall i | 0 <= i < |t| ensures f(t[i]) != f(s[0]) {
        SortByMembers(s[1..], key, t[i]);
      }
      InsertKeepsDistinct(s[0], t, key, f);
    }
  }

  /** A value of `f` that neither `x` nor any element of `s` takes is not taken after insertion. */
  lemma {:induction false} InsertAvoids<T, U>(x: T, s: seq<T>, key: T -> real, f: T -> U, v: U)
    requires f(x) != v && forall i :: 0 <= i < |s| ==> f(s[i]) != v
    ensures forall i :: 0 <= i < |Insert(x, s, key)| ==> f(Insert(x, s, key)[i]) != v
  {
    if s != [] && key(s[0]) < key(x) {
      InsertAvoids(x, s[1..], key, f, v);
      assert Insert(x, s, key) == [s[0]] + Insert(x, s[1..], key);
    }
  }

  lemma {:induction false} InsertKeepsDistinct<T, U>(x: T, s: seq<T>, key: T -> real, f: T -> U)
    requires forall i, j :: 0 <= i < j < |s| ==> f(s[i]) != f(s[j])
    requires forall i :: 0 <= i < |s| ==> f(s[i]) != f(x)
    ensures forall i, j :: 0 <= i < j < |Insert(x, s, key)| ==> f(Insert(x, s, key)[i]) != f(Insert(x, s, key)[j])
  {
    if s != [] && key(s[0]) < key(x) {
      var tail := s[1..];
      var rest := Insert(x, tail, key);
      assert forall i :: 0 <= i < |tail| ==> tail[i] == s[i + 1];
      InsertKeepsDistinct(x, tail, key, f);
      InsertAvoids(x, tail, key, f, f(s[0]));
      var r := [s[0]] + rest;
      assert Insert(x, s, key) == r;
      forall i, j | 0 <= i < j < |r| ensures f(r[i]) != f(r[j]) {
        assert r[j] == rest[j - 1];
        if i > 0 {
          assert r[i] == rest[i - 1];
        }
      }
    }
  }
}
