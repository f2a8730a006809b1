/**
 * The array operations the pages chain together: `filter`, `some`,
 * `[...new Set(xs)]` and `slice`, with the facts about them that the
 * list views rely on.
 */
module Seqs {

  /** `a` is `b` with some elements dropped and the rest kept in order. */
  ghost predicate IsSubsequence<T>(a: seq<T>, b: seq<T>)
    decreases |b|
  {
    |a| <= |b|
    && (a == [] || (a[0] == b[0] && IsSubsequence(a[1..], b[1..])) || IsSubsequence(a, b[1..]))
  }

  /** No element occurs twice. */
  predicate NoDuplicates<T(==)>(s: seq<T>) {
    forall i, j :: 0 <= i < j < |s| ==> s[i] != s[j]
  }

  /** `xs.filter(p)`: the elements satisfying `p`, in their original order. */
  function Filter<T(!new)>(xs: seq<T>, p: T -> bool): (r: seq<T>)
    ensures |r| <= |xs|
    ensures forall x :: x in r <==> x in xs && p(x)
    // every passing element is kept as often as it occurs, every other one dropped
    ensures forall x :: multiset(r)[x] == if p(x) then multiset(xs)[x] else 0
    ensures IsSubsequence(r, xs)
    decreases |xs|
  {
    if xs == [] then []
    else
      assert xs == [xs[0]] + xs[1..];
      if p(xs[0]) then [xs[0]] + Filter(xs[1..], p)
      else Filter(xs[1..], p)
  }

  /** A filter that every element passes keeps the whole sequence. */
  lemma {:induction false} FilterKeepsAll<T(!new)>(xs: seq<T>, p: T -> bool)
    requires forall x :: x in xs ==> p(x)
    ensures Filter(xs, p) == xs
    decreases |xs|
  {
    if xs != [] {
      FilterKeepsAll(xs[1..], p);
    }
  }

  /** Two filters that agree on every element give the same result. */
  lemma {:induction false} FilterAgree<T(!new)>(xs: seq<T>, p: T -> bool, q: T -> bool)
    requires forall x :: x in xs ==> p(x) == q(x)
    ensures Filter(xs, p) == Filter(xs, q)
    decreases |xs|
  {
    if xs != [] {
      FilterAgree(xs[1..], p, q);
    }
  }

  /** Chaining two filters is filtering by both conditions. */
  lemma {:induction false} FilterFilter<T(!new)>(xs: seq<T>, p: T -> bool, q: T -> bool, pq: T -> bool)
    requires forall x :: x in xs ==> pq(x) == (p(x) && q(x))
    ensures Filter(Filter(xs, p), q) == Filter(xs, pq)
    decreases |xs|
  {
    if xs != [] {
      FilterFilter(xs[1..], p, q, pq);
    }
  }

  /** `xs.some(p)`. */
  function Any<T>(xs: seq<T>, p: T -> bool): (r: bool)
    ensures r <==> exists x :: x in xs && p(x)
    decreases |xs|
  {
    if xs == [] then false else p(xs[0]) || Any(xs[1..], p)
  }

  /** The index of the first occurrence of `x` in `xs`. */
  function IndexOf<T(==)>(xs: seq<T>, x: T): (i: nat)
    requires x in xs
    ensures i < |xs| && xs[i] == x
    ensures forall j :: 0 <= j < i ==> xs[j] != x
    decreases |xs|
  {
    if xs[0] == x then 0 else 1 + IndexOf(xs[1..], x)
  }

  /**
   * The elements of `xs` not in `seen`, each once, in the order of first
   * occurrence: what iterating a JavaScript `Set` built from `xs` yields.
   */
  function DedupeAfter<T(==,!new)>(xs: seq<T>, seen: set<T>): (r: seq<T>)
    ensures NoDuplicates(r)
    ensures forall x :: x in r <==> x in xs && x !in seen
    ensures IsSubsequence(r, xs)
    // listed in the order in which they first occur in `xs`
    ensures forall a, b :: 0 <= a < b < |r| ==> IndexOf(xs, r[a]) < IndexOf(xs, r[b])
    decreases |xs|
  {
    if xs == [] then []
    else if xs[0] in seen then DedupeAfter(xs[1..], seen)
    else [xs[0]] + DedupeAfter(xs[1..], seen + {xs[0]})
  }

  /** `[...new Set(xs)]`. */
  function Dedupe<T(==,!new)>(xs: seq<T>): (r: seq<T>)
    ensures NoDuplicates(r)
    ensures forall x :: x in r <==> x in xs
    ensures IsSubsequence(r, xs)
    ensures forall a, b :: 0 <= a < b < |r| ==> IndexOf(xs, r[a]) < IndexOf(xs, r[b])
  {
    DedupeAfter(xs, {})
  }

  /** A `slice` bound: negative counts from the end, and the result is clamped to `[0, len]`. */
  function SliceBound(k: int, len: nat): (r: nat)
    ensures r <= len
  {
    if k < 0 then (if len + k < 0 then 0 else len + k)
    else if k > len then len
    else k
  }

  /** `xs.slice(start, end)` with JavaScript's handling of out-of-range bounds. */
  function Slice<T>(xs: seq<T>, start: int, end: int): (r: seq<T>)
    ensures |r| <= |xs|
    ensures 0 <= start <= end ==> |r| <= end - start
    ensures forall x :: x in r ==> x in xs
  {
    var from, to := SliceBound(start, |xs|), SliceBound(end, |xs|);
    if from < to then xs[from..to] else []
  }

  /** Within range, `slice` is plain sub-sequence extraction. */
  lemma SliceInRange<T>(xs: seq<T>, start: int, end: int)
    requires 0 <= start <= end <= |xs|
    ensures Slice(xs, start, end) == xs[start..end]
  {
  }
}
