/**
 * Sequence operations of JavaScript arrays used by the frontend:
 * Array.prototype.filter, splice at one position, and filtering out one index.
 */
module Seqs {

  /** Array.prototype.filter: the elements satisfying p, in their order. */
  function Filter<T>(s: seq<T>, p: T -> bool): (r: seq<T>)
    ensures |r| <= |s|
    ensures forall i :: 0 <= i < |r| ==> p(r[i])
    ensures forall i :: 0 <= i < |r| ==> r[i] in s
    ensures forall i :: 0 <= i < |s| && p(s[i]) ==> s[i] in r
  {
    if s == [] then []
    else
      var init := s[..|s| - 1];
      assert s == init + [s[|s| - 1]];
      Filter(init, p) + (if p(s[|s| - 1]) then [s[|s| - 1]] else [])
  }

  /** a is b with some elements left out, the others in the same order. */
  predicate IsSubsequence<T(==)>(a: seq<T>, b: seq<T>)
    decreases |b|
  {
    a == [] || (b != [] &&
      ((a[|a| - 1] == b[|b| - 1] && IsSubsequence(a[..|a| - 1], b[..|b| - 1]))
       || IsSubsequence(a, b[..|b| - 1])))
  }

  /** Filtering keeps the order: its result is a subsequence of its input. */
  lemma {:induction false} FilterIsSubsequence<T>(s: seq<T>, p: T -> bool)
    ensures IsSubsequence(Filter(s, p), s)
    decreases |s|
  {
    if s != [] {
      var init := s[..|s| - 1];
      FilterIsSubsequence(init, p);
      var r := Filter(s, p);
      if p(s[|s| - 1]) {
        assert r[..|r| - 1] == Filter(init, p);
      } else {
        assert r == Filter(init, p);
      }
    }
  }

  /** Every sequence is a subsequence of itself. */
  lemma {:induction false} SubsequenceReflexive<T>(s: seq<T>)
    ensures IsSubsequence(s, s)
    decreases |s|
  {
    if s != [] {
      SubsequenceReflexive(s[..|s| - 1]);
    }
  }

  /** A subsequence of a subsequence is a subsequence. */
  lemma {:induction false} SubsequenceTransitive<T>(a: seq<T>, b: seq<T>, c: seq<T>)
    requires IsSubsequence(a, b) && IsSubsequence(b, c)
    ensures IsSubsequence(a, c)
    decreases |c|
  {
    if a != [] {
      var c' := c[..|c| - 1];
      if b[|b| - 1] == c[|c| - 1] && IsSubsequence(b[..|b| - 1], c') {
        if a[|a| - 1] == b[|b| - 1] && IsSubsequence(a[..|a| - 1], b[..|b| - 1]) {
          SubsequenceTransitive(a[..|a| - 1], b[..|b| - 1], c');
        } else {
          SubsequenceTransitive(a, b[..|b| - 1], c');
        }
      } else {
        SubsequenceTransitive(a, b, c');
      }
    }
  }

  /** Filtering twice by the same test is filtering once. */
  lemma {:induction false} FilterIdempotent<T>(s: seq<T>, p: T -> bool)
    ensures Filter(Filter(s, p), p) == Filter(s, p)
    decreases |s|
  {
    if s != [] {
      var init := s[..|s| - 1];
      FilterIdempotent(init, p);
      var r := Filter(init, p);
      var x := s[|s| - 1];
      if p(x) {
        var r' := r + [x];
        assert Filter(s, p) == r';
        assert r'[..|r'| - 1] == r;
        assert Filter(r', p) == Filter(r, p) + [x];
      } else {
        assert Filter(s, p) == r;
      }
    }
  }

  /** Where splice(start, ...) acts: a negative start counts from the end, and the position is clamped to 0..|s|. */
  function SpliceIndex(len: nat, start: int): (k: nat)
    ensures k <= len
    ensures 0 <= start <= len ==> k == start
  {
    if start < 0 then (if len + start < 0 then 0 else len + start)
    else if start <= len then start else len
  }

  /** s.splice(start, 0, x): x inserted at the splice position. */
  function InsertAt<T>(s: seq<T>, start: int, x: T): (r: seq<T>)
    ensures |r| == |s| + 1
    ensures var k := SpliceIndex(|s|, start); r[k] == x && r[..k] + r[k + 1..] == s
    ensures multiset(r) == multiset(s) + multiset{x}
  {
    var k := SpliceIndex(|s|, start);
    assert s == s[..k] + s[k..];
    var r := s[..k] + [x] + s[k..];
    assert r[..k] == s[..k] && r[k + 1..] == s[k..];
    r
  }

  /** s.splice(i, 1) for a position in range: the element at i taken out. */
  function RemoveAt<T>(s: seq<T>, i: nat): (r: seq<T>)
    requires i < |s|
    ensures |r| == |s| - 1
    ensures forall j :: 0 <= j < i ==> r[j] == s[j]
    ensures forall j :: i <= j < |r| ==> r[j] == s[j + 1]
    ensures multiset(r) + multiset{s[i]} == multiset(s)
  {
    assert s == s[..i] + [s[i]] + s[i + 1..];
    s[..i] + s[i + 1..]
  }

  /** s.filter((_, j) => j !== i): every element except the one at position i, if there is one. */
  function Without<T>(s: seq<T>, i: int): (r: seq<T>)
    ensures 0 <= i < |s| ==> |r| == |s| - 1
    ensures 0 <= i < |s| ==> forall j :: 0 <= j < i ==> r[j] == s[j]
    ensures 0 <= i < |s| ==> forall j :: i <= j < |r| ==> r[j] == s[j + 1]
    ensures !(0 <= i < |s|) ==> r == s
    decreases |s|
  {
    if s == [] then []
    else
      var init := s[..|s| - 1];
      Without(init, i) + (if i == |s| - 1 then [] else [s[|s| - 1]])
  }

  /** Putting an element back where it was taken out gives the original sequence. */
  lemma RemoveInsert<T>(s: seq<T>, i: nat)
    requires i < |s|
    ensures InsertAt(RemoveAt(s, i), i, s[i]) == s
  {
    var r := RemoveAt(s, i);
    var t := InsertAt(r, i, s[i]);
    assert t[..i] + t[i + 1..] == r;
    forall j | 0 <= j < |s| ensures t[j] == s[j] {
      if j < i {
        assert t[j] == (t[..i] + t[i + 1..])[j];
      } else if i < j {
        assert t[j] == (t[..i] + t[i + 1..])[j - 1];
      }
    }
  }

  /** Filtering a concatenation filters each part. */
  lemma {:induction false} FilterAppend<T>(a: seq<T>, b: seq<T>, p: T -> bool)
    ensures Filter(a + b, p) == Filter(a, p) + Filter(b, p)
    decreases |b|
  {
    if b == [] {
      assert a + b == a;
    } else {
      var init := b[..|b| - 1];
      var x := b[|b| - 1];
      assert (a + b)[..|a + b| - 1] == a + init;
      assert (a + b)[|a + b| - 1] == x;
      FilterAppend(a, init, p);
    }
  }

  /** A sequence whose every element passes is its own filter. */
  lemma {:induction false} FilterAll<T>(s: seq<T>, p: T -> bool)
    requires forall i :: 0 <= i < |s| ==> p(s[i])
    ensures Filter(s, p) == s
    decreases |s|
  {
    if s != [] {
      FilterAll(s[..|s| - 1], p);
    }
  }

  /** When the first n elements pass, the filter keeps at least n. */
  lemma {:induction false} FilterPassingPrefix<T>(s: seq<T>, p: T -> bool, n: nat)
    requires n <= |s| && forall i :: 0 <= i < n ==> p(s[i])
    ensures |Filter(s, p)| >= n
    decreases |s|
  {
    if n == |s| {
      FilterAll(s, p);
    } else {
      var init := s[..|s| - 1];
      assert forall i :: 0 <= i < n ==> init[i] == s[i];
      FilterPassingPrefix(init, p, n);
    }
  }

  /** A sequence whose every element fails has an empty filter. */
  lemma {:induction false} FilterNone<T>(s: seq<T>, p: T -> bool)
    requires forall i :: 0 <= i < |s| ==> !p(s[i])
    ensures Filter(s, p) == []
    decreases |s|
  {
    if s != [] {
      FilterNone(s[..|s| - 1], p);
    }
  }

  /** The filtered multiset: each element that passes keeps its multiplicity, the others are gone. */
  lemma {:induction false} FilterMultiset<T>(s: seq<T>, p: T -> bool, x: T)
    ensures multiset(Filter(s, p))[x] == if p(x) then multiset(s)[x] else 0
    decreases |s|
  {
    if s != [] {
      var init := s[..|s| - 1];
      assert s == init + [s[|s| - 1]];
      FilterMultiset(init, p, x);
    }
  }

  /** A permutation has as many elements passing a test as the original. */
  lemma FilterCountPermutation<T>(a: seq<T>, b: seq<T>, p: T -> bool)
    requires multiset(a) == multiset(b)
    ensures |Filter(a, p)| == |Filter(b, p)|
  {
    forall x ensures multiset(Filter(a, p))[x] == multiset(Filter(b, p))[x] {
      FilterMultiset(a, p, x);
      FilterMultiset(b, p, x);
    }
    assert multiset(Filter(a, p)) == multiset(Filter(b, p));
    assert |multiset(Filter(a, p))| == |Filter(a, p)|;
    assert |multiset(Filter(b, p))| == |Filter(b, p)|;
  }

  /** Replacing one element changes the count of passing elements by what the old and new element contribute. */
  lemma FilterCountUpdate<T>(s: seq<T>, k: nat, x: T, p: T -> bool)
    requires k < |s|
    ensures |Filter(s[k := x], p)| + (if p(s[k]) then 1 else 0) == |Filter(s, p)| + (if p(x) then 1 else 0)
  {
    var a, b := s[..k], s[k + 1..];
    assert s == a + [s[k]] + b;
    assert s[k := x] == a + [x] + b;
    FilterAppend(a + [s[k]], b, p);
    FilterAppend(a, [s[k]], p);
    FilterAppend(a + [x], b, p);
    FilterAppend(a, [x], p);
    assert Filter([x], p) == Filter([], p) + (if p(x) then [x] else []);
    assert Filter([s[k]], p) == Filter([], p) + (if p(s[k]) then [s[k]] else []);
  }

  /** Two sequences that pass and fail a test at the same positions have equally many passing elements. */
  lemma {:induction false} FilterCountSamePositions<T, U>(a: seq<T>, p: T -> bool, b: seq<U>, q: U -> bool)
    requires |a| == |b| && forall i :: 0 <= i < |a| ==> p(a[i]) == q(b[i])
    ensures |Filter(a, p)| == |Filter(b, q)|
    decreases |a|
  {
    if a != [] {
      FilterCountSamePositions(a[..|a| - 1], p, b[..|b| - 1], q);
    }
  }
}
