/** Counting the elements of a sequence that satisfy a predicate. */
module Counting {
  function Tick(b: bool): nat {
    if b then 1 else 0
  }

  function Num<T>(xs: seq<T>, p: T -> bool): nat {
    if xs == [] then 0
    else Num(xs[..|xs| - 1], p) + Tick(p(xs[|xs| - 1]))
  }

  lemma NumAppend<T>(xs: seq<T>, x: T, p: T -> bool)
    ensures Num(xs + [x], p) == Num(xs, p) + Tick(p(x))
  {
    assert (xs + [x])[..|xs|] == xs;
  }

  lemma {:induction false} NumUpdate<T>(xs: seq<T>, t: nat, x: T, p: T -> bool)
    requires t < |xs|
    ensures Num(xs[t := x], p) == Num(xs, p) - Tick(p(xs[t])) + Tick(p(x))
    decreases |xs|
  {
    var n := |xs| - 1;
    if t < n {
      NumUpdate(xs[..n], t, x, p);
      assert xs[t := x][..n] == xs[..n][t := x];
    } else {
      assert xs[t := x][..n] == xs[..n];
    }
  }

  lemma {:induction false} NumPositive<T>(xs: seq<T>, p: T -> bool)
    ensures Num(xs, p) > 0 <==> exists t :: 0 <= t < |xs| && p(xs[t])
  {
    if xs != [] {
      var n := |xs| - 1;
      NumPositive(xs[..n], p);
      if t :| 0 <= t < n && p(xs[t]) {
        assert p(xs[..n][t]);
      }
      if Num(xs[..n], p) > 0 {
        var t :| 0 <= t < n && p(xs[..n][t]);
        assert p(xs[t]);
      }
    }
  }

  lemma {:induction false} NumLe<T(!new)>(xs: seq<T>, p: T -> bool, q: T -> bool)
    requires forall x :: p(x) ==> q(x)
    ensures Num(xs, p) <= Num(xs, q)
  {
    if xs != [] {
      NumLe(xs[..|xs| - 1], p, q);
    }
  }

  lemma {:induction false} NumSum<T(!new)>(xs: seq<T>, p: T -> bool, q: T -> bool, both: T -> bool)
    requires forall x :: !(p(x) && q(x)) && ((p(x) || q(x)) ==> both(x))
    ensures Num(xs, p) + Num(xs, q) <= Num(xs, both)
  {
    if xs != [] {
      NumSum(xs[..|xs| - 1], p, q, both);
    }
  }

  function Sum<T>(xs: seq<T>, f: T -> nat): nat {
    if xs == [] then 0
    else Sum(xs[..|xs| - 1], f) + f(xs[|xs| - 1])
  }

  lemma SumAppend<T>(xs: seq<T>, x: T, f: T -> nat)
    ensures Sum(xs + [x], f) == Sum(xs, f) + f(x)
  {
    assert (xs + [x])[..|xs|] == xs;
  }

  lemma {:induction false} SumUpdate<T>(xs: seq<T>, t: nat, x: T, f: T -> nat)
    requires t < |xs|
    ensures Sum(xs[t := x], f) + f(xs[t]) == Sum(xs, f) + f(x)
    decreases |xs|
  {
    var n := |xs| - 1;
    if t < n {
      SumUpdate(xs[..n], t, x, f);
      assert xs[t := x][..n] == xs[..n][t := x];
    } else {
      assert xs[t := x][..n] == xs[..n];
    }
  }
}
