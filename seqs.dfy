/**
 * The collection operations the front end and backend use: `Array.prototype.filter`
 * and list comprehensions, `find`/`next(...)` (first match), and `[...new Set(xs)]`
 * (de-duplication keeping first occurrences).
 */
module Seqs {
  import opened Wrappers

  /** `a` is an order-preserving subsequence of `b`. */
  ghost predicate IsSubseq<T>(a: seq<T>, b: seq<T>)
    decreases |b|
  {
    a == [] || (b != [] && ((a[0] == b[0] && IsSubseq(a[1..], b[1..])) || IsSubseq(a, b[1..])))
  }

  /** The elements of `s` satisfying `p`, in their original order. */
  function Filter<T>(s: seq<T>, p: T -> bool): (r: seq<T>)
    ensures |r| <= |s|
    ensures forall i :: 0 <= i < |r| ==> r[i] in s && p(r[i])
    ensures forall i :: 0 <= i < |s| && p(s[i]) ==> s[i] in r
    ensures IsSubseq(r, s)
    ensures forall i :: 0 <= i < |s| ==> multiset(r)[s[i]] == if p(s[i]) then multiset(s)[s[i]] else 0
    decreases |s|
  {
    if s == [] then []
    else
      assert s == [s[0]] + s[1..];
      if p(s[0]) then [s[0]] + Filter(s[1..], p)
      else Filter(s[1..], p)
  }

  /** Filtering by a predicate every element satisfies returns the sequence itself. */
  lemma {:induction false} FilterKeepsAll<T>(s: seq<T>, p: T -> bool)
    requires forall x :: x in s ==> p(x)
    ensures Filter(s, p) == s
    decreases |s|
  {
    if s != [] {
      FilterKeepsAll(s[1..], p);
    }
  }

  /** Two predicates that agree on the elements of `s` filter it alike. */
  lemma {:induction false} FilterAgree<T>(s: seq<T>, p: T -> bool, q: T -> bool)
    requires forall x :: x in s ==> p(x) == q(x)
    ensures Filter(s, p) == Filter(s, q)
    decreases |s|
  {
    if s != [] {
      FilterAgree(s[1..], p, q);
    }
  }

  /** Filtering twice is filtering once by any predicate that is the conjunction on `s`. */
  lemma {:induction false} FilterFilter<T>(s: seq<T>, p: T -> bool, q: T -> bool, both: T -> bool)
    requires forall x :: x in s ==> both(x) == (p(x) && q(x))
    ensures Filter(Filter(s, p), q) == Filter(s, both)
    decreases |s|
  {
    if s != [] {
      FilterFilter(s[1..], p, q, both);
      if p(s[0]) {
        assert Filter(s, p) == [s[0]] + Filter(s[1..], p);
        assert Filter(s, p)[1..] == Filter(s[1..], p);
      }
    }
  }

  /** `if (active) { xs = xs.filter(p) }`. */
  function FilterIf<T>(active: bool, s: seq<T>, p: T -> bool): seq<T> {
    if active then Filter(s, p) else s
  }

  /**
   * A filter stage that may be switched off, applied after a filter, is one filter
   * by the conjunction with the stage's condition (true when switched off).
   */
  lemma FilterIfAfterFilter<T>(active: bool, s: seq<T>, m: T -> bool, p: T -> bool, m': T -> bool)
    requires forall x :: x in s ==> m'(x) == (m(x) && (!active || p(x)))
    ensures FilterIf(active, Filter(s, m), p) == Filter(s, m')
  {
    if active {
      FilterFilter(s, m, p, m');
    } else {
      FilterAgree(s, m, m');
    }
  }

  /** A filter stage that may be switched off is a filter by its condition or by `true`. */
  lemma FilterIfIsFilter<T>(active: bool, s: seq<T>, p: T -> bool, m: T -> bool)
    requires forall x :: x in s ==> m(x) == (!active || p(x))
    ensures FilterIf(active, s, p) == Filter(s, m)
  {
    if active {
      FilterAgree(s, p, m);
    } else {
      FilterKeepsAll(s, m);
    }
  }

  /** `xs.find(p)` / `next((x for x in xs if p(x)), None)`: the index of the first match. */
  function FindFirst<T>(s: seq<T>, p: T -> bool): (r: Option<nat>)
    ensures r.None? <==> forall i :: 0 <= i < |s| ==> !p(s[i])
    ensures r.Some? ==> r.value < |s| && p(s[r.value])
    ensures r.Some? ==> forall j :: 0 <= j < r.value ==> !p(s[j])
    decreases |s|
  {
    if s == [] then None
    else if p(s[0]) then Some(0)
    else match FindFirst(s[1..], p)
      case None => None
      case Some(i) => Some(i + 1)
  }

  /** The index of the first occurrence of `x` in `s`. */
  function FirstIndex<T(==)>(s: seq<T>, x: T): (k: nat)
    requires x in s
    ensures k < |s| && s[k] == x && x !in s[..k]
    decreases |s|
  {
    if s[0] == x then 0 else 1 + FirstIndex(s[1..], x)
  }

  /** A position holding `x` with no earlier `x` is the first index of `x`. */
  lemma FirstIndexUnique<T>(s: seq<T>, x: T, k: nat)
    requires k < |s| && s[k] == x && x !in s[..k]
    ensures FirstIndex(s, x) == k
  {
  }

  predicate NoDuplicates<T(==)>(s: seq<T>) {
    forall i, j :: 0 <= i < j < |s| ==> s[i] != s[j]
  }

  /**
   * `[...new Set(s)]`: each distinct element once, in order of first occurrence
   * (a JavaScript `Set` iterates in insertion order and ignores re-insertions).
   */
  function Distinct<T(==)>(s: seq<T>): (r: seq<T>)
    ensures forall i :: 0 <= i < |r| ==> r[i] in s
    ensures forall i :: 0 <= i < |s| ==> s[i] in r
    ensures NoDuplicates(r)
    ensures forall i, j :: 0 <= i < j < |r| ==> FirstIndex(s, r[i]) < FirstIndex(s, r[j])
    decreases |s|
  {
    if s == [] then []
    else
      var d := Distinct(s[..|s| - 1]);
      var x := s[|s| - 1];
      DistinctStep(s, d);
      if x in d then d else d + [x]
  }

  /** The first index of an element of a prefix is the same in the whole sequence. */
  lemma FirstIndexInPrefix<T>(s: seq<T>, n: nat, x: T)
    requires n <= |s| && x in s[..n]
    ensures FirstIndex(s, x) == FirstIndex(s[..n], x) < n
  {
    var f := FirstIndex(s[..n], x);
    assert s[..f] == s[..n][..f];
    FirstIndexUnique(s, x, f);
  }

  /** Adding the last element of `s` to the de-duplicated prefix keeps every property of `Distinct`. */
  lemma DistinctStep<T>(s: seq<T>, d: seq<T>)
    requires s != []
    requires forall i :: 0 <= i < |d| ==> d[i] in s[..|s| - 1]
    requires forall i :: 0 <= i < |s| - 1 ==> s[i] in d
    requires NoDuplicates(d)
    requires forall i, j :: 0 <= i < j < |d| ==> FirstIndex(s[..|s| - 1], d[i]) < FirstIndex(s[..|s| - 1], d[j])
    ensures var r := if s[|s| - 1] in d then d else d + [s[|s| - 1]];
      && (forall i :: 0 <= i < |r| ==> r[i] in s)
      && (forall i :: 0 <= i < |s| ==> s[i] in r)
      && NoDuplicates(r)
      && (forall i, j :: 0 <= i < j < |r| ==> FirstIndex(s, r[i]) < FirstIndex(s, r[j]))
  {
    var n := |s| - 1;
    var x := s[n];
    var r := if x in d then d else d + [x];
    forall i | 0 <= i < |r| ensures r[i] in s {
      if i < |d| { assert r[i] in s[..n]; }
    }
    forall i | 0 <= i < |s| ensures s[i] in r {
      if i < n { assert s[i] in d; }
    }
    assert x !in d ==> x !in s[..n];
    forall i, j | 0 <= i < j < |r|
      ensures FirstIndex(s, r[i]) < FirstIndex(s, r[j])
    {
      FirstIndexInPrefix(s, n, r[i]);
      if j < |d| {
        FirstIndexInPrefix(s, n, r[j]);
      } else {
        FirstIndexUnique(s, x, n);
      }
    }
  }
}
