/**
 * Stable sorting by an integer key, ascending.
 *
 * `Array.prototype.sort` has been required to be stable since ECMAScript 2019: elements whose
 * comparator result is 0 keep their relative order. A comparator `(a, b) => f(a) - f(b)` sorts
 * ascending by `f`, and `(a, b) => f(b) - f(a)` sorts ascending by `-f`.
 */
module Sorting {

  /** Every element's key is at most the key of every later element. */
  predicate SortedBy<T>(s: seq<T>, key: T -> int)
  {
    forall i, j :: 0 <= i < j < |s| ==> key(s[i]) <= key(s[j])
  }

  /** The elements of `s` whose key is `k`, in their order in `s`. */
  function WithKey<T>(s: seq<T>, key: T -> int, k: int): seq<T>
  {
    if s == [] then []
    else if key(s[0]) == k then [s[0]] + WithKey(s[1..], key, k)
    else WithKey(s[1..], key, k)
  }

  /** Puts `x` in front of the first element whose key is not smaller than its own. */
  function InsertBy<T>(x: T, s: seq<T>, key: T -> int): seq<T>
  {
    if s == [] || key(x) <= key(s[0]) then [x] + s
    else [s[0]] + InsertBy(x, s[1..], key)
  }

  /** Insertion sort: each element goes in front of the later elements with an equal key. */
  function SortBy<T>(s: seq<T>, key: T -> int): seq<T>
  {
    if s == [] then [] else InsertBy(s[0], SortBy(s[1..], key), key)
  }

  lemma {:induction false} InsertByPermutes<T>(x: T, s: seq<T>, key: T -> int)
    ensures multiset(InsertBy(x, s, key)) == multiset{x} + multiset(s)
  {
    if s != [] && key(x) > key(s[0]) {
      InsertByPermutes(x, s[1..], key);
      assert s == [s[0]] + s[1..];
    }
  }

  lemma {:induction false} InsertBySorted<T>(x: T, s: seq<T>, key: T -> int)
    requires SortedBy(s, key)
    ensures SortedBy(InsertBy(x, s, key), key)
  {
    if s != [] && key(x) > key(s[0]) {
      InsertBySorted(x, s[1..], key);
      InsertByPermutes(x, s[1..], key);
      var r := InsertBy(x, s[1..], key);
      forall y | y in multiset(r) ensures key(s[0]) <= key(y) {
        assert y in multiset{x} + multiset(s[1..]);
        if y != x {
          assert y in s[1..];
        }
      }
      forall i, j | 0 <= i < j < |r| + 1
        ensures key(([s[0]] + r)[i]) <= key(([s[0]] + r)[j])
      {
        if i == 0 {
          assert r[j - 1] in multiset(r);
        }
      }
    }
  }

  lemma {:induction false} InsertByWithKey<T>(x: T, s: seq<T>, key: T -> int, k: int)
    requires SortedBy(s, key)
    ensures WithKey(InsertBy(x, s, key), key, k) ==
            (if key(x) == k then [x] + WithKey(s, key, k) else WithKey(s, key, k))
  {
    if s != [] && key(x) > key(s[0]) {
      InsertByWithKey(x, s[1..], key, k);
    }
  }

  /** The sorted sequence is ordered by key. */
  lemma {:induction false} SortByIsSorted<T>(s: seq<T>, key: T -> int)
    ensures SortedBy(SortBy(s, key), key)
  {
    if s != [] {
      SortByIsSorted(s[1..], key);
      InsertBySorted(s[0], SortBy(s[1..], key), key);
    }
  }

  /** The sorted sequence holds the same elements, each as often. */
  lemma {:induction false} SortByIsPermutation<T>(s: seq<T>, key: T -> int)
    ensures multiset(SortBy(s, key)) == multiset(s)
    ensures |SortBy(s, key)| == |s|
  {
    if s != [] {
      SortByIsPermutation(s[1..], key);
      InsertByPermutes(s[0], SortBy(s[1..], key), key);
      assert s == [s[0]] + s[1..];
    }
    assert |multiset(SortBy(s, key))| == |multiset(s)|;
  }

  /** Stability: for every key, the elements with that key appear in their original order. */
  lemma {:induction false} SortByIsStable<T>(s: seq<T>, key: T -> int, k: int)
    ensures WithKey(SortBy(s, key), key, k) == WithKey(s, key, k)
  {
    if s != [] {
      SortByIsStable(s[1..], key, k);
      SortByIsSorted(s[1..], key);
      InsertByWithKey(s[0], SortBy(s[1..], key), key, k);
    }
  }
}
