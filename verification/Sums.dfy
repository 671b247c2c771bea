/** Sums over the threads of a machine. */
module Sums {
  function Sum<X>(xs: seq<X>, f: X -> nat): nat {
    if xs == [] then 0 else f(xs[0]) + Sum(xs[1..], f)
  }

  /** One thread moves: only its own term changes. */
  lemma {:induction false} SumUpdate<X>(xs: seq<X>, t: nat, x: X, f: X -> nat)
    requires t < |xs|
    ensures Sum(xs[t := x], f) == Sum(xs, f) - f(xs[t]) + f(x)
    ensures Sum(xs, f) >= f(xs[t])
  {
    if t == 0 {
      assert xs[0 := x][1..] == xs[1..];
    } else {
      assert xs[t := x][1..] == xs[1..][t - 1 := x];
      SumUpdate(xs[1..], t - 1, x, f);
    }
  }

  lemma {:induction false} SumOfZeros<X>(xs: seq<X>, f: X -> nat)
    requires forall i :: 0 <= i < |xs| ==> f(xs[i]) == 0
    ensures Sum(xs, f) == 0
  {
    if xs != [] {
      SumOfZeros(xs[1..], f);
    }
  }

  lemma {:induction false} SomeTerm<X>(xs: seq<X>, f: X -> nat)
    requires Sum(xs, f) > 0
    ensures exists i :: 0 <= i < |xs| && f(xs[i]) > 0
  {
    if f(xs[0]) == 0 {
      SomeTerm(xs[1..], f);
      var i :| 0 <= i < |xs[1..]| && f(xs[1..][i]) > 0;
      assert f(xs[i + 1]) > 0;
    }
  }

  lemma {:induction false} SumBound<X>(xs: seq<X>, f: X -> nat)
    requires forall x :: f(x) <= 1
    ensures Sum(xs, f) <= |xs|
  {
    if xs != [] {
      SumBound(xs[1..], f);
    }
  }

  /** Two threads count at least for both their terms. */
  lemma {:induction false} TwoTerms<X>(xs: seq<X>, t: nat, u: nat, f: X -> nat)
    requires t < |xs| && u < |xs| && t != u
    ensures Sum(xs, f) >= f(xs[t]) + f(xs[u])
  {
    if t == 0 {
      SumUpdate(xs[1..], u - 1, xs[u], f);
    } else if u == 0 {
      SumUpdate(xs[1..], t - 1, xs[t], f);
    } else {
      TwoTerms(xs[1..], t - 1, u - 1, f);
    }
  }
}
