/**
 * `Array.prototype.filter` and `Array.prototype.map` on sequences, and the
 * "apply this stage only when its criterion list is non-empty" pattern that
 * every filter composable uses.
 */
module Filtering {

  /** `a` is an order-preserving subsequence of `b`: `a` is `b` with some elements dropped. */
  predicate IsSubsequence<T(==)>(a: seq<T>, b: seq<T>)
    decreases |b|
  {
    a == [] || (b != [] && ((a[0] == b[0] && IsSubsequence(a[1..], b[1..])) || IsSubsequence(a, b[1..])))
  }

  /**
   * `r` holds exactly the elements of `s` that satisfy `p`, each as often as in `s`,
   * in their order in `s`.
   */
  ghost predicate Keeps<T(!new)>(r: seq<T>, s: seq<T>, p: T -> bool)
  {
    && IsSubsequence(r, s)
    && forall x :: multiset(r)[x] == if p(x) then multiset(s)[x] else 0
  }

  /** `s.filter(p)`. */
  function Filter<T(==,!new)>(s: seq<T>, p: T -> bool): (r: seq<T>)
    ensures forall x :: x in r <==> x in s && p(x)
    ensures Keeps(r, s, p)
  {
    if s == [] then []
    else
      assert s == [s[0]] + s[1..];
      if p(s[0]) then [s[0]] + Filter(s[1..], p) else Filter(s[1..], p)
  }

  /** `s.map(f)`. */
  function Map<T(!new), U(!new)>(s: seq<T>, f: T -> U): (r: seq<U>)
    ensures |r| == |s|
    ensures forall i :: 0 <= i < |s| ==> r[i] == f(s[i])
    ensures forall y :: y in r <==> exists x :: x in s && f(x) == y
  {
    if s == [] then [] else [f(s[0])] + Map(s[1..], f)
  }

  /** The conjunction of two element tests. */
  function Both<T>(p: T -> bool, q: T -> bool): T -> bool
  {
    x => p(x) && q(x)
  }

  /** The test a stage applies: everything passes when the criterion list is empty. */
  function Guard<T, K>(criteria: seq<K>, test: T -> bool): T -> bool
  {
    x => |criteria| == 0 || test(x)
  }

  /** `if (criteria && criteria.length > 0) filtered = filtered.filter(test)`. */
  function Stage<T(==,!new), K>(s: seq<T>, criteria: seq<K>, test: T -> bool): (r: seq<T>)
    ensures forall x :: x in r <==> x in s && (|criteria| == 0 || test(x))
    ensures |criteria| == 0 ==> r == s
    ensures |criteria| > 0 ==> Keeps(r, s, test)
  {
    if |criteria| > 0 then Filter(s, test) else s
  }

  /** A filter whose test holds on every element returns its input unchanged. */
  lemma {:induction false} FilterKeepsAll<T(!new)>(s: seq<T>, p: T -> bool)
    requires forall x :: x in s ==> p(x)
    ensures Filter(s, p) == s
  {
    if s != [] {
      assert forall x :: x in s[1..] ==> x in s;
      FilterKeepsAll(s[1..], p);
    }
  }

  /** Two tests that agree on the elements of `s` filter it alike. */
  lemma {:induction false} FilterExtensional<T(!new)>(s: seq<T>, p: T -> bool, q: T -> bool)
    requires forall x :: x in s ==> p(x) == q(x)
    ensures Filter(s, p) == Filter(s, q)
  {
    if s != [] {
      assert forall x :: x in s[1..] ==> x in s;
      FilterExtensional(s[1..], p, q);
    }
  }

  lemma FilterIdempotent<T(!new)>(s: seq<T>, p: T -> bool)
    ensures Filter(Filter(s, p), p) == Filter(s, p)
  {
    FilterKeepsAll(Filter(s, p), p);
  }

  /** Two chained filters are one filter with the conjunction of their tests. */
  lemma {:induction false} FilterFuse<T(!new)>(s: seq<T>, p: T -> bool, q: T -> bool)
    ensures Filter(Filter(s, p), q) == Filter(s, Both(p, q))
  {
    if s != [] {
      FilterFuse(s[1..], p, q);
    }
  }

  /** The order of two chained filters does not matter. */
  lemma FilterCommute<T(!new)>(s: seq<T>, p: T -> bool, q: T -> bool)
    ensures Filter(Filter(s, p), q) == Filter(Filter(s, q), p)
  {
    FilterFuse(s, p, q);
    FilterFuse(s, q, p);
    FilterExtensional(s, Both(p, q), Both(q, p));
  }

  /** A stage is a filter by its guarded test. */
  lemma StageIsFilter<T(!new), K>(s: seq<T>, criteria: seq<K>, test: T -> bool)
    ensures Stage(s, criteria, test) == Filter(s, Guard(criteria, test))
  {
    if |criteria| == 0 {
      FilterKeepsAll(s, Guard(criteria, test));
    } else {
      FilterExtensional(s, test, Guard(criteria, test));
    }
  }
}
