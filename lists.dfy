/**
 * Two list operations the source performs through library calls, with the facts
 * the model relies on: `filter`, which the handlers use to drop entries, and the
 * concatenation of one piece of text per list element, which the prompt builders
 * perform with `forEach` and `+=`.
 */
module Lists {

  /** The elements of `xs` that satisfy `keep`, in their original order. */
  function Filter<T>(xs: seq<T>, keep: T -> bool): (r: seq<T>)
    ensures |r| <= |xs|
    ensures forall i :: 0 <= i < |r| ==> r[i] in xs && keep(r[i])
    ensures forall i :: 0 <= i < |xs| && keep(xs[i]) ==> xs[i] in r
  {
    if xs == [] then []
    else if keep(xs[0]) then [xs[0]] + Filter(xs[1..], keep)
    else Filter(xs[1..], keep)
  }

  /** Filtering works piecewise, so the relative order of the kept elements is that of the input. */
  lemma {:induction false} FilterAppend<T>(a: seq<T>, b: seq<T>, keep: T -> bool)
    ensures Filter(a + b, keep) == Filter(a, keep) + Filter(b, keep)
  {
    if a == [] {
      assert a + b == b;
    } else {
      assert (a + b)[1..] == a[1..] + b;
      FilterAppend(a[1..], b, keep);
    }
  }

  /** Filtering a list cut anywhere is filtering the two parts and joining them: order and repeats are kept. */
  lemma {:induction false} FilterSplit<T>(xs: seq<T>, keep: T -> bool)
    ensures forall k :: 0 <= k <= |xs| ==> Filter(xs, keep) == Filter(xs[..k], keep) + Filter(xs[k..], keep)
  {
    forall k | 0 <= k <= |xs|
      ensures Filter(xs, keep) == Filter(xs[..k], keep) + Filter(xs[k..], keep)
    {
      assert xs[..k] + xs[k..] == xs;
      FilterAppend(xs[..k], xs[k..], keep);
    }
  }

  /** When every element is kept, filtering returns the input unchanged. */
  lemma {:induction false} FilterKeepsAll<T>(xs: seq<T>, keep: T -> bool)
    requires forall i :: 0 <= i < |xs| ==> keep(xs[i])
    ensures Filter(xs, keep) == xs
  {
    if xs != [] {
      FilterKeepsAll(xs[1..], keep);
    }
  }

  /** Filtering a second time with the same test changes nothing. */
  lemma {:induction false} FilterIdempotent<T>(xs: seq<T>, keep: T -> bool)
    ensures Filter(Filter(xs, keep), keep) == Filter(xs, keep)
  {
    var r := Filter(xs, keep);
    FilterKeepsAll(r, keep);
  }

  /** Replacing a dropped element by another dropped element does not change the filtered list. */
  lemma {:induction false} FilterReplaceDropped<T>(xs: seq<T>, i: nat, x: T, keep: T -> bool)
    requires i < |xs| && !keep(xs[i]) && !keep(x)
    ensures Filter(xs[i := x], keep) == Filter(xs, keep)
  {
    if i > 0 {
      assert xs[i := x][1..] == xs[1..][i - 1 := x];
      FilterReplaceDropped(xs[1..], i - 1, x, keep);
    } else {
      assert xs[i := x][1..] == xs[1..];
    }
  }

  /** The pieces `f` gives for the elements of `xs`, concatenated in list order. */
  function Flatten<T, U>(xs: seq<T>, f: T -> seq<U>): seq<U>
  {
    if xs == [] then [] else Flatten(xs[..|xs| - 1], f) + f(xs[|xs| - 1])
  }

  /** A one-element list flattens to that element's piece. */
  lemma FlattenSingleton<T, U>(x: T, f: T -> seq<U>)
    ensures Flatten([x], f) == f(x)
  {
    assert [x][..0] == [];
  }

  /** Flattening a concatenation flattens each part. */
  lemma {:induction false} FlattenAppend<T, U>(a: seq<T>, b: seq<T>, f: T -> seq<U>)
    ensures Flatten(a + b, f) == Flatten(a, f) + Flatten(b, f)
  {
    if b == [] {
      assert a + b == a;
    } else {
      assert (a + b)[..|a + b| - 1] == a + b[..|b| - 1];
      FlattenAppend(a, b[..|b| - 1], f);
    }
  }

  /** Element i's piece stands between the pieces of the elements before it and those after it. */
  lemma {:induction false} FlattenAt<T, U>(xs: seq<T>, i: nat, f: T -> seq<U>)
    requires i < |xs|
    ensures Flatten(xs, f) == Flatten(xs[..i], f) + f(xs[i]) + Flatten(xs[i + 1..], f)
  {
    var before, here, after := xs[..i], [xs[i]], xs[i + 1..];
    assert before + here == xs[..i + 1];
    assert xs[..i + 1] + after == xs;
    FlattenAppend(before + here, after, f);
    FlattenAppend(before, here, f);
    FlattenSingleton(xs[i], f);
  }
}
