/** Order-preserving filtering (`Iterator::filter`, `Vec::retain`), shared
    by the modules that keep some elements of a list. */
module Seqs {
  /** The elements of `xs` that satisfy `p`, in their original order. */
  function Filter<T>(xs: seq<T>, p: T -> bool): (r: seq<T>)
    ensures |r| <= |xs|
  {
    if xs == [] then [] else (if p(xs[0]) then [xs[0]] else []) + Filter(xs[1..], p)
  }

  /** Filtering a concatenation filters each part: the kept elements keep
      their relative order. */
  lemma {:induction false} FilterAppend<T>(a: seq<T>, b: seq<T>, p: T -> bool)
    ensures Filter(a + b, p) == Filter(a, p) + Filter(b, p)
  {
    if a != [] {
      assert (a + b)[1..] == a[1..] + b;
      assert (a + b)[0] == a[0];
      FilterAppend(a[1..], b, p);
      calc {
        Filter(a + b, p);
        (if p(a[0]) then [a[0]] else []) + Filter(a[1..] + b, p);
        (if p(a[0]) then [a[0]] else []) + (Filter(a[1..], p) + Filter(b, p));
        ((if p(a[0]) then [a[0]] else []) + Filter(a[1..], p)) + Filter(b, p);
      }
    } else {
      assert a + b == b;
    }
  }

  /** Extending the filtered prefix by one element. */
  lemma FilterSnoc<T>(xs: seq<T>, i: nat, p: T -> bool)
    requires i < |xs|
    ensures Filter(xs[..i + 1], p) == Filter(xs[..i], p) + (if p(xs[i]) then [xs[i]] else [])
  {
    assert xs[..i + 1] == xs[..i] + [xs[i]];
    FilterAppend(xs[..i], [xs[i]], p);
  }

  /** An element is kept exactly when it occurs in the input and satisfies
      the predicate. */
  lemma {:induction false} FilterMembers<T>(xs: seq<T>, p: T -> bool, x: T)
    ensures x in Filter(xs, p) <==> x in xs && p(x)
  {
    if xs != [] {
      FilterMembers(xs[1..], p, x);
      assert xs == [xs[0]] + xs[1..];
    }
  }

  /** Nothing is dropped when every element satisfies the predicate. */
  lemma {:induction false} FilterAll<T>(xs: seq<T>, p: T -> bool)
    requires forall i :: 0 <= i < |xs| ==> p(xs[i])
    ensures Filter(xs, p) == xs
  {
    if xs != [] {
      FilterAll(xs[1..], p);
    }
  }
}
