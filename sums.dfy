/** Exact-arithmetic sums of real weights over a list, added from left to
    right. Both sides of the application add amounts this way: the frontend
    with `reduce((sum, e) => sum + w(e), 0)` and `totals[k] += amount`, the
    backend with `mapToDouble(w).sum()`. */
module Sums {

  /** Sum of `w(x)` over `xs`, starting at 0 and adding the elements in order. */
  function Sum<T>(xs: seq<T>, w: T -> real): real
  {
    if xs == [] then 0.0 else Sum(xs[..|xs| - 1], w) + w(xs[|xs| - 1])
  }

  /** Summing a concatenation is summing the two parts. */
  lemma {:induction false} SumAppend<T>(xs: seq<T>, ys: seq<T>, w: T -> real)
    ensures Sum(xs + ys, w) == Sum(xs, w) + Sum(ys, w)
    decreases |ys|
  {
    if ys == [] {
      assert xs + ys == xs;
    } else {
      var n := |ys| - 1;
      assert (xs + ys)[..|xs + ys| - 1] == xs + ys[..n];
      SumAppend(xs, ys[..n], w);
    }
  }

  /** A three-element list sums its three weights. */
  lemma SumOfThree<T>(x: T, y: T, z: T, w: T -> real)
    ensures Sum([x, y, z], w) == w(x) + w(y) + w(z)
  {
    assert [x][..0] == [];
    assert Sum([x], w) == w(x);
    assert [x, y][..1] == [x];
    assert Sum([x, y], w) == w(x) + w(y);
    assert [x, y, z][..2] == [x, y];
  }

  /** The sum does not depend on the order of the list. */
  lemma {:induction false} SumPermutation<T>(xs: seq<T>, ys: seq<T>, w: T -> real)
    requires multiset(xs) == multiset(ys)
    ensures Sum(xs, w) == Sum(ys, w)
    decreases |xs|
  {
    if xs == [] {
      assert |ys| == |multiset(ys)| == 0;
    } else {
      var n := |xs| - 1;
      var x := xs[n];
      assert xs == xs[..n] + [x];
      assert x in multiset(ys);
      var j :| 0 <= j < |ys| && ys[j] == x;
      var rest := ys[..j] + ys[j + 1..];
      assert ys == ys[..j] + [x] + ys[j + 1..];
      assert multiset(xs[..n]) == multiset(rest) by {
        calc {
          multiset(xs[..n]);
          multiset(xs) - multiset{x};
          multiset(ys) - multiset{x};
          multiset(ys[..j]) + multiset([x]) + multiset(ys[j + 1..]) - multiset{x};
          multiset(rest);
        }
      }
      SumPermutation(xs[..n], rest, w);
      SumAppend(ys[..j], [x], w);
      SumAppend(ys[..j] + [x], ys[j + 1..], w);
      SumAppend(ys[..j], ys[j + 1..], w);
    }
  }

  /** Two lists of equal length whose weights agree position by position have equal sums. */
  lemma {:induction false} SumPointwise<T, U>(xs: seq<T>, v: T -> real, ys: seq<U>, w: U -> real)
    requires |xs| == |ys|
    requires forall i :: 0 <= i < |xs| ==> v(xs[i]) == w(ys[i])
    ensures Sum(xs, v) == Sum(ys, w)
  {
    if xs != [] {
      var n := |xs| - 1;
      SumPointwise(xs[..n], v, ys[..n], w);
    }
  }

  /** Weights that are never positive have a sum that is not positive. */
  lemma {:induction false} SumNonPositive<T>(xs: seq<T>, w: T -> real)
    requires forall i :: 0 <= i < |xs| ==> w(xs[i]) <= 0.0
    ensures Sum(xs, w) <= 0.0
  {
    if xs != [] {
      SumNonPositive(xs[..|xs| - 1], w);
    }
  }

  /** Weights that are all zero sum to zero. */
  lemma {:induction false} SumZero<T>(xs: seq<T>, w: T -> real)
    requires forall i :: 0 <= i < |xs| ==> w(xs[i]) == 0.0
    ensures Sum(xs, w) == 0.0
  {
    if xs != [] {
      SumZero(xs[..|xs| - 1], w);
    }
  }
}
