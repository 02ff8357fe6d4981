/**
 * Stable sorting by a numeric key, the behaviour of Python's list.sort(key=...)
 * and of JavaScript's Array.prototype.sort with a numeric comparator (both are
 * stable). Descending orders use the negated key.
 */
module Sorting {

  ghost predicate SortedBy<T>(s: seq<T>, key: T -> real) {
    forall i, j :: 0 <= i < j < |s| ==> key(s[i]) <= key(s[j])
  }

  /** Inserts x after every element whose key is at most key(x). */
  function Insert<T>(s: seq<T>, x: T, key: T -> real): (r: seq<T>)
    ensures |r| == |s| + 1
  {
    if s == [] then [x]
    else if key(x) < key(s[0]) then [x] + s
    else [s[0]] + Insert(s[1..], x, key)
  }

  /** Insertion sort: the last element is inserted into the sorted prefix. */
  function SortByKey<T>(s: seq<T>, key: T -> real): (r: seq<T>)
    ensures |r| == |s|
  {
    if s == [] then []
    else Insert(SortByKey(s[..|s| - 1], key), s[|s| - 1], key)
  }

  lemma {:induction false} InsertPermutes<T>(s: seq<T>, x: T, key: T -> real)
    ensures multiset(Insert(s, x, key)) == multiset(s) + multiset{x}
    decreases |s|
  {
    if s != [] && key(s[0]) <= key(x) {
      InsertPermutes(s[1..], x, key);
      assert s == [s[0]] + s[1..];
    }
  }

  /** The result is a permutation of the input. */
  lemma {:induction false} SortByKeyPermutes<T>(s: seq<T>, key: T -> real)
    ensures multiset(SortByKey(s, key)) == multiset(s)
    decreases |s|
  {
    if s != [] {
      SortByKeyPermutes(s[..|s| - 1], key);
      InsertPermutes(SortByKey(s[..|s| - 1], key), s[|s| - 1], key);
      assert s == s[..|s| - 1] + [s[|s| - 1]];
    }
  }

  /** The elements with key k, in their order. */
  function WithKey<T>(s: seq<T>, key: T -> real, k: real): (r: seq<T>)
    ensures |r| <= |s|
  {
    if s == [] then []
    else (if key(s[0]) == k then [s[0]] else []) + WithKey(s[1..], key, k)
  }

  lemma {:induction false} WithKeyAppend<T>(a: seq<T>, b: seq<T>, key: T -> real, k: real)
    ensures WithKey(a + b, key, k) == WithKey(a, key, k) + WithKey(b, key, k)
    decreases |a|
  {
    if a == [] {
      assert a + b == b;
    } else {
      var h := if key(a[0]) == k then [a[0]] else [];
      assert (a + b)[0] == a[0] && (a + b)[1..] == a[1..] + b;
      assert WithKey(a + b, key, k) == h + WithKey(a[1..] + b, key, k);
      WithKeyAppend(a[1..], b, key, k);
      assert WithKey(a, key, k) == h + WithKey(a[1..], key, k);
    }
  }

  lemma {:induction false} WithKeyNone<T>(s: seq<T>, key: T -> real, k: real)
    requires forall i :: 0 <= i < |s| ==> key(s[i]) != k
    ensures WithKey(s, key, k) == []
    decreases |s|
  {
    if s != [] {
      WithKeyNone(s[1..], key, k);
    }
  }

  lemma {:induction false} InsertLowerBound<T>(s: seq<T>, x: T, key: T -> real, lo: real)
    requires forall i :: 0 <= i < |s| ==> lo <= key(s[i])
    requires lo <= key(x)
    ensures forall i :: 0 <= i < |Insert(s, x, key)| ==> lo <= key(Insert(s, x, key)[i])
    decreases |s|
  {
    if s != [] && key(s[0]) <= key(x) {
      InsertLowerBound(s[1..], x, key, lo);
    }
  }

  lemma {:induction false} InsertSorted<T>(s: seq<T>, x: T, key: T -> real)
    requires SortedBy(s, key)
    ensures SortedBy(Insert(s, x, key), key)
    decreases |s|
  {
    if s != [] && key(s[0]) <= key(x) {
      var t := s[1..];
      InsertSorted(t, x, key);
      InsertLowerBound(t, x, key, key(s[0]));
    }
  }

  lemma SortedTail<T>(s: seq<T>, key: T -> real)
    requires s != [] && SortedBy(s, key)
    ensures SortedBy(s[1..], key)
    ensures forall i :: 0 <= i < |s| ==> key(s[0]) <= key(s[i])
  {
    forall i, j | 0 <= i < j < |s[1..]| ensures key(s[1..][i]) <= key(s[1..][j]) {
      assert s[1..][i] == s[i + 1] && s[1..][j] == s[j + 1];
    }
  }

  lemma {:induction false} InsertWithKey<T>(s: seq<T>, x: T, key: T -> real, k: real)
    requires SortedBy(s, key)
    ensures WithKey(Insert(s, x, key), key, k)
         == WithKey(s, key, k) + (if key(x) == k then [x] else [])
    decreases |s|
  {
    var hx := if key(x) == k then [x] else [];
    if s == [] {
      assert WithKey([x], key, k) == hx + WithKey([], key, k);
    } else if key(x) < key(s[0]) {
      assert ([x] + s)[0] == x && ([x] + s)[1..] == s;
      assert WithKey([x] + s, key, k) == hx + WithKey(s, key, k);
      if key(x) == k {
        SortedTail(s, key);
        WithKeyNone(s, key, k);
      }
    } else {
      var t := s[1..];
      SortedTail(s, key);
      InsertWithKey(t, x, key, k);
      var r := [s[0]] + Insert(t, x, key);
      assert Insert(s, x, key) == r;
      assert r[0] == s[0] && r[1..] == Insert(t, x, key);
      var h0 := if key(s[0]) == k then [s[0]] else [];
      assert WithKey(r, key, k) == h0 + WithKey(Insert(t, x, key), key, k);
      assert WithKey(s, key, k) == h0 + WithKey(t, key, k);
    }
  }

  /** The result is in non-decreasing key order. */
  lemma {:induction false} SortByKeySorted<T>(s: seq<T>, key: T -> real)
    ensures SortedBy(SortByKey(s, key), key)
    decreases |s|
  {
    if s != [] {
      SortByKeySorted(s[..|s| - 1], key);
      InsertSorted(SortByKey(s[..|s| - 1], key), s[|s| - 1], key);
    }
  }

  /** Stability: for every key, the elements with that key keep their relative order. */
  lemma {:induction false} SortByKeyStable<T>(s: seq<T>, key: T -> real, k: real)
    ensures WithKey(SortByKey(s, key), key, k) == WithKey(s, key, k)
    decreases |s|
  {
    if s != [] {
      var init, x := s[..|s| - 1], s[|s| - 1];
      var hx := if key(x) == k then [x] else [];
      SortByKeyStable(init, key, k);
      SortByKeySorted(init, key);
      assert SortByKey(s, key) == Insert(SortByKey(init, key), x, key);
      InsertWithKey(SortByKey(init, key), x, key, k);
      assert WithKey(SortByKey(s, key), key, k) == WithKey(init, key, k) + hx;
      assert s == init + [x];
      WithKeyAppend(init, [x], key, k);
      assert WithKey([x], key, k) == hx + WithKey([], key, k);
    }
  }
}
