/**
 * Generic facts about sequence concatenation and slicing. Stated over an
 * arbitrary element type, they keep the element type's own equality out of
 * the proofs that use them. `Same`, `Refl`, `Trans`, `Chain` and the
 * `Regroup*` lemmas are proof plumbing only: they model nothing in the tool.
 */
module Seqs {

  lemma Assoc<T>(a: seq<T>, b: seq<T>, c: seq<T>)
    ensures a + b + c == a + (b + c)
  {
  }

  lemma AppendEmpty<T>(a: seq<T>)
    ensures [] + a == a && a + [] == a
  {
  }

  /** Equality chained through `b`, for any type. */
  lemma Chain<T>(a: T, b: T, c: T)
    requires a == b && b == c
    ensures a == c
  {
  }

  /** Equality of two values of any type. Stated through this predicate, an
      equality of tuples or datatypes is compared as a whole, not field by
      field. */
  predicate Same<T(==)>(a: T, b: T) {
    a == b
  }

  lemma SameChain<T>(a: T, b: T, c: T)
    requires Same(a, b) && Same(b, c)
    ensures Same(a, c)
  {
  }

  /** `x` is `a` then `y`, and `y` is `rest` then `z`: so `x` is `[a] + rest`
      then `z`. */
  lemma ConsChain<T>(x: seq<T>, a: T, rest: seq<T>, y: seq<T>, z: seq<T>, all: seq<T>)
    requires x == [a] + y && y == rest + z && all == [a] + rest
    ensures x == all + z
  {
    Assoc([a], rest, z);
  }

  lemma Refl<T>(a: seq<T>)
    ensures a == a
  {
  }

  lemma Trans<T>(a: seq<T>, b: seq<T>, c: seq<T>)
    requires a == b && b == c
    ensures a == c
  {
  }

  /** A prefix extended by the next element is the longer prefix. */
  lemma TakeSnoc<T>(xs: seq<T>, k: nat)
    requires k < |xs|
    ensures xs[..k] + [xs[k]] == xs[..k + 1]
  {
  }

  lemma SnocSlice<T>(a: seq<T>, xs: seq<T>, k: nat)
    requires k < |xs|
    ensures a + xs[..k] + [xs[k]] == a + xs[..k + 1]
  {
    assert xs[..k + 1] == xs[..k] + [xs[k]];
  }

  /** The elements of the middle of a concatenation, at their places. */
  lemma Embedded<T>(a: seq<T>, x: seq<T>, b: seq<T>)
    ensures |a + x + b| == |a| + |x| + |b|
    ensures forall k :: 0 <= k < |x| ==> (a + x + b)[|a| + k] == x[k]
  {
  }

  /** A sequence that starts with `a` and continues element by element as
      `b` is `a + b`. */
  lemma ConcatPointwise<T>(r: seq<T>, a: seq<T>, b: seq<T>)
    requires |r| == |a| + |b| && r[..|a|] == a
    requires forall i :: 0 <= i < |b| ==> r[|a| + i] == b[i]
    ensures r == a + b
  {
    assert forall i :: 0 <= i < |r| ==> r[i] == (a + b)[i] by {
      forall i | 0 <= i < |r|
        ensures r[i] == (a + b)[i]
      {
        if i < |a| {
          assert r[i] == r[..|a|][i];
        } else {
          assert r[|a| + (i - |a|)] == b[i - |a|];
        }
      }
    }
  }

  /** A window of a window is a window. */
  lemma SliceSlice<T>(t: seq<T>, p: nat, e: nat, a: nat, b: nat)
    requires p <= e <= |t| && a <= b <= e - p
    ensures t[p..e][a..b] == t[p + a..p + b]
  {
    var w := t[p..e];
    forall i | 0 <= i < b - a
      ensures w[a..b][i] == t[p + a..p + b][i]
    {
      assert w[a..b][i] == w[a + i] == t[p + a + i];
    }
  }

  /** A window holding `x + y` holds `x`, then `y`. */
  lemma SliceSplit<T>(t: seq<T>, p: nat, x: seq<T>, y: seq<T>)
    requires p + |x| + |y| <= |t| && t[p..p + |x| + |y|] == x + y
    ensures t[p..p + |x|] == x && t[p + |x|..p + |x| + |y|] == y
  {
    SliceSlice(t, p, p + |x| + |y|, 0, |x|);
    SliceSlice(t, p, p + |x| + |y|, |x|, |x| + |y|);
    assert (x + y)[..|x|] == x;
    assert (x + y)[|x|..] == y;
  }

  /** `u` is written in `t` from `p` on. */
  predicate At<T(==)>(t: seq<T>, p: nat, u: seq<T>) {
    p + |u| <= |t| && t[p..p + |u|] == u
  }

  /** Where `x + y` is written, `x` is, and `y` right after it. */
  lemma AtSplit<T>(t: seq<T>, p: nat, x: seq<T>, y: seq<T>)
    requires At(t, p, x + y)
    ensures At(t, p, x) && At(t, p + |x|, y)
  {
    SliceSplit(t, p, x, y);
  }

  /** Where `[x] + u` is written, `x` is at `p` and `u` right after it. */
  lemma AtCons<T>(t: seq<T>, p: nat, x: T, u: seq<T>)
    requires At(t, p, [x] + u)
    ensures p < |t| && t[p] == x && At(t, p + 1, u)
  {
    SliceSlice(t, p, p + 1 + |u|, 1, 1 + |u|);
    assert t[p] == t[p..p + 1 + |u|][0];
  }

  /** `ok` holds of every element of `xs`. */
  predicate All<T(==)>(xs: seq<T>, ok: T -> bool) {
    forall x :: x in xs ==> ok(x)
  }

  lemma AllAppend<T>(a: seq<T>, b: seq<T>, ok: T -> bool)
    requires All(a, ok) && All(b, ok)
    ensures All(a + b, ok)
  {
  }

  /** `ok` holds of every element of `[x] + xs` exactly when it holds of `x`
      and of every element of `xs`. */
  lemma AllCons<T>(x: T, xs: seq<T>, ok: T -> bool)
    ensures All([x] + xs, ok) <==> ok(x) && All(xs, ok)
  {
    assert x in [x] + xs;
    assert forall y :: y in xs ==> y in [x] + xs;
  }

  /** `u` is written in `t` from `p` on, stated element by element: the same
      as `At`, but recursive, so that the solver looks at one element at a
      time instead of comparing whole slices. */
  predicate Written<T(==)>(t: seq<T>, p: nat, u: seq<T>) {
    p + |u| <= |t| && forall k :: 0 <= k < |u| ==> t[p + k] == u[k]
  }

  lemma WrittenIsAt<T>(t: seq<T>, p: nat, u: seq<T>)
    ensures Written(t, p, u) <==> At(t, p, u)
  {
    if At(t, p, u) {
      forall k | 0 <= k < |u| ensures t[p + k] == u[k] {
        assert t[p..p + |u|][k] == t[p + k];
      }
    }
  }

  /** Where `x + y` is written, `x` is, and `y` right after it. */
  lemma WrittenSplit<T>(t: seq<T>, p: nat, x: seq<T>, y: seq<T>)
    requires Written(t, p, x + y)
    ensures Written(t, p, x) && Written(t, p + |x|, y)
  {
    forall k | 0 <= k < |x| ensures t[p + k] == x[k] {
      assert (x + y)[k] == x[k];
    }
    forall k | 0 <= k < |y| ensures t[p + |x| + k] == y[k] {
      assert (x + y)[|x| + k] == y[k];
    }
  }

  /** Where `[x] + u` is written, `x` is at `p` and `u` right after it. */
  lemma WrittenCons<T>(t: seq<T>, p: nat, x: T, u: seq<T>)
    requires Written(t, p, [x] + u)
    ensures p < |t| && t[p] == x && Written(t, p + 1, u)
  {
    assert ([x] + u)[0] == x;
    forall k | 0 <= k < |u| ensures t[p + 1 + k] == u[k] {
      assert ([x] + u)[k + 1] == u[k];
    }
  }

  /** A sequence is written in itself from its start. */
  lemma WrittenWhole<T>(t: seq<T>)
    ensures Written(t, 0, t)
  {
  }

  lemma Regroup5<T>(a: seq<T>, b: seq<T>, c: seq<T>, d: seq<T>, e: seq<T>)
    ensures a + (b + c) + d + e == (a + b) + c + (d + e)
  {
  }

  lemma Regroup3<T>(a: seq<T>, b: seq<T>, c: seq<T>, d: seq<T>)
    ensures a + (b + c) + d == (a + b) + c + d
  {
  }

  lemma Regroup4<T>(a: seq<T>, b: seq<T>, c: seq<T>, d: seq<T>, e: seq<T>)
    ensures a + (b + (c + d)) + e == (a + b) + c + (d + e)
  {
  }

  /** The pieces of `a + b + c`. */
  lemma Pieces<T>(a: seq<T>, b: seq<T>, c: seq<T>)
    ensures |a + b + c| == |a| + |b| + |c|
    ensures (a + b + c)[..|a|] == a && (a + b + c)[|a|..] == b + c
    ensures (a + b + c)[|a|..|a| + |b|] == b && (a + b + c)[|a| + |b|..] == c
    ensures forall i :: 0 <= i < |a| ==> (a + b + c)[i] == a[i]
  {
  }

  lemma DropDrop<T>(t: seq<T>, p: nat, k: nat)
    requires p + k <= |t|
    ensures t[p..][k..] == t[p + k..]
  {
  }

  lemma Regroup6<T>(s: seq<T>, a: seq<T>, b: seq<T>, c: seq<T>, d: seq<T>)
    ensures s + (a + (b + c) + d) == (s + a) + b + (c + d)
  {
  }
}
