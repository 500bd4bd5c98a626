/** Sums of a natural-valued function over a sequence, and the few laws the money proofs need. */
module Sums {

  function Sum<T>(xs: seq<T>, f: T -> nat): nat
  {
    if xs == [] then 0 else Sum(xs[..|xs| - 1], f) + f(xs[|xs| - 1])
  }

  lemma SumAppend<T>(xs: seq<T>, x: T, f: T -> nat)
    ensures Sum(xs + [x], f) == Sum(xs, f) + f(x)
  {
    assert (xs + [x])[..|xs|] == xs;
  }

  lemma SumOne<T>(x: T, f: T -> nat)
    ensures Sum([x], f) == f(x)
  {
    SumAppend([], x, f);
  }

  /** If every new term is an old term plus an increment, the sums differ by the sum of the increments. */
  lemma {:induction false} SumPointwise<S, T>(xs: seq<S>, ys: seq<T>, f: S -> nat, d: S -> nat, g: T -> nat)
    requires |xs| == |ys|
    requires forall i :: 0 <= i < |xs| ==> g(ys[i]) == f(xs[i]) + d(xs[i])
    ensures Sum(ys, g) == Sum(xs, f) + Sum(xs, d)
  {
    if xs != [] {
      var n := |xs| - 1;
      SumPointwise(xs[..n], ys[..n], f, d, g);
    }
  }

  lemma {:induction false} SumSame<S, T>(xs: seq<S>, ys: seq<T>, f: S -> nat, g: T -> nat)
    requires |xs| == |ys|
    requires forall i :: 0 <= i < |xs| ==> g(ys[i]) == f(xs[i])
    ensures Sum(ys, g) == Sum(xs, f)
  {
    if xs != [] {
      var n := |xs| - 1;
      SumSame(xs[..n], ys[..n], f, g);
    }
  }

  lemma {:induction false} SumLeast<S, T>(xs: seq<S>, ys: seq<T>, f: S -> nat, g: T -> nat)
    requires |xs| == |ys|
    requires forall i :: 0 <= i < |xs| ==> f(xs[i]) <= g(ys[i])
    ensures Sum(xs, f) <= Sum(ys, g)
  {
    if xs != [] {
      SumLeast(xs[..|xs| - 1], ys[..|ys| - 1], f, g);
    }
  }

  lemma {:induction false} SumZero<T>(xs: seq<T>, f: T -> nat)
    requires forall i :: 0 <= i < |xs| ==> f(xs[i]) == 0
    ensures Sum(xs, f) == 0
  {
    if xs != [] {
      SumZero(xs[..|xs| - 1], f);
    }
  }

  lemma {:induction false} SumTerm<T>(xs: seq<T>, i: nat, f: T -> nat)
    requires i < |xs|
    ensures f(xs[i]) <= Sum(xs, f)
  {
    if i < |xs| - 1 {
      SumTerm(xs[..|xs| - 1], i, f);
    }
  }

  lemma {:induction false} SumUpdate<T>(xs: seq<T>, i: nat, x: T, f: T -> nat)
    requires i < |xs|
    ensures Sum(xs[i := x], f) + f(xs[i]) == Sum(xs, f) + f(x)
  {
    var n := |xs| - 1;
    if i == n {
      assert xs[i := x][..n] == xs[..n];
    } else {
      assert xs[i := x][..n] == xs[..n][i := x];
      SumUpdate(xs[..n], i, x, f);
    }
  }

  /** The sequence without its i-th element. */
  function Without<T>(xs: seq<T>, i: nat): seq<T>
    requires i < |xs|
  {
    xs[..i] + xs[i + 1..]
  }

  lemma {:induction false} SumWithout<T>(xs: seq<T>, i: nat, f: T -> nat)
    requires i < |xs|
    ensures Sum(Without(xs, i), f) + f(xs[i]) == Sum(xs, f)
  {
    var n := |xs| - 1;
    if i == n {
      assert Without(xs, i) == xs[..n];
    } else {
      assert Without(xs, i) == Without(xs[..n], i) + [xs[n]];
      SumAppend(Without(xs[..n], i), xs[n], f);
      SumWithout(xs[..n], i, f);
    }
  }
}
