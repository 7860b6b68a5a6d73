/**
 * The array methods the stores and pages use on their lists: `filter`, `findIndex`, and
 * `slice(0, n)`, with the facts about them the other modules rely on.
 */
module Lists {

  /** `xs.filter(keep)`. */
  function Filter<T(!new)>(xs: seq<T>, keep: T -> bool): (r: seq<T>)
    ensures |r| <= |xs|
    ensures forall x :: x in r <==> x in xs && keep(x)
  {
    if xs == [] then [] else (if keep(xs[0]) then [xs[0]] else []) + Filter(xs[1..], keep)
  }

  /** `a` is `b` with some elements left out and the rest in their order. */
  predicate IsSubsequence<T(==)>(a: seq<T>, b: seq<T>)
    decreases |b|
  {
    if a == [] then true
    else if b == [] then false
    else if a[0] == b[0] then IsSubsequence(a[1..], b[1..])
    else IsSubsequence(a, b[1..])
  }

  /** `xs.findIndex(hit)`: the first index whose element satisfies `hit`, or -1. */
  function FindIndex<T>(xs: seq<T>, hit: T -> bool): (i: int)
    ensures -1 <= i < |xs|
    ensures i == -1 <==> forall k :: 0 <= k < |xs| ==> !hit(xs[k])
    ensures i >= 0 ==> hit(xs[i]) && forall k :: 0 <= k < i ==> !hit(xs[k])
  {
    if xs == [] then -1
    else if hit(xs[0]) then 0
    else var j := FindIndex(xs[1..], hit); if j == -1 then -1 else j + 1
  }

  /** `xs.slice(0, n)` for `n >= 0`. */
  function Take<T>(xs: seq<T>, n: nat): (r: seq<T>)
    ensures |r| == if n < |xs| then n else |xs|
    ensures r == xs[..|r|]
  {
    if n < |xs| then xs[..n] else xs
  }

  lemma {:induction false} FilterAppend<T(!new)>(xs: seq<T>, x: T, keep: T -> bool)
    ensures Filter(xs + [x], keep) == Filter(xs, keep) + (if keep(x) then [x] else [])
  {
    if xs == [] {
      assert [x][1..] == [];
    } else {
      assert (xs + [x])[1..] == xs[1..] + [x];
      FilterAppend(xs[1..], x, keep);
    }
  }

  /** A filter keeps the order of what it keeps. */
  lemma {:induction false} FilterIsSubsequence<T(!new)>(xs: seq<T>, keep: T -> bool)
    ensures IsSubsequence(Filter(xs, keep), xs)
  {
    if xs != [] {
      FilterIsSubsequence(xs[1..], keep);
      var rest := Filter(xs[1..], keep);
      if keep(xs[0]) {
        assert Filter(xs, keep) == [xs[0]] + rest;
        assert ([xs[0]] + rest)[1..] == rest;
      } else {
        assert Filter(xs, keep) == rest;
        if rest != [] {
          assert rest[0] in rest;
          assert rest[0] != xs[0];
        }
      }
    }
  }

  /** Elements all kept: the filter is the identity. */
  lemma {:induction false} FilterKeepingAll<T(!new)>(xs: seq<T>, keep: T -> bool)
    requires forall k :: 0 <= k < |xs| ==> keep(xs[k])
    ensures Filter(xs, keep) == xs
  {
    if xs != [] {
      FilterKeepingAll(xs[1..], keep);
      assert [xs[0]] + xs[1..] == xs;
    }
  }

  /** Elements all rejected: the filter is empty. */
  lemma {:induction false} FilterKeepingNone<T(!new)>(xs: seq<T>, keep: T -> bool)
    requires forall k :: 0 <= k < |xs| ==> !keep(xs[k])
    ensures Filter(xs, keep) == []
  {
    if xs != [] {
      FilterKeepingNone(xs[1..], keep);
    }
  }

  /** Filtering twice with the same test is filtering once. */
  lemma FilterTwice<T(!new)>(xs: seq<T>, keep: T -> bool)
    ensures Filter(Filter(xs, keep), keep) == Filter(xs, keep)
  {
    var r := Filter(xs, keep);
    forall k | 0 <= k < |r| ensures keep(r[k]) {
      assert r[k] in r;
    }
    FilterKeepingAll(r, keep);
  }

  /** A filter of a concatenation is the concatenation of the filters. */
  lemma {:induction false} FilterConcat<T(!new)>(a: seq<T>, b: seq<T>, keep: T -> bool)
    ensures Filter(a + b, keep) == Filter(a, keep) + Filter(b, keep)
  {
    if a == [] {
      assert a + b == b;
    } else {
      assert (a + b)[1..] == a[1..] + b;
      FilterConcat(a[1..], b, keep);
    }
  }

  /** The number of elements that pass `keep`, counted one by one. */
  function CountIf<T>(xs: seq<T>, keep: T -> bool): (n: nat)
    ensures n <= |xs|
  {
    if xs == [] then 0 else (if keep(xs[0]) then 1 else 0) + CountIf(xs[1..], keep)
  }

  /** The opposite test. */
  function Not<T>(keep: T -> bool): T -> bool {
    (x: T) => !keep(x)
  }

  /** `xs.filter(keep).length` counts the elements that pass. */
  lemma {:induction false} FilterLength<T(!new)>(xs: seq<T>, keep: T -> bool)
    ensures |Filter(xs, keep)| == CountIf(xs, keep)
  {
    if xs != [] {
      FilterLength(xs[1..], keep);
    }
  }

  /** Every element passes a test or its opposite, and not both. */
  lemma {:induction false} CountIfSplits<T>(xs: seq<T>, keep: T -> bool)
    ensures CountIf(xs, keep) + CountIf(xs, Not(keep)) == |xs|
  {
    if xs != [] {
      CountIfSplits(xs[1..], keep);
    }
  }
}
