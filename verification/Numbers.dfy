/** Options and the sums and extrema over sequences of reals that the price modules share. */
module Numbers {

  datatype Option<+T> = None | Some(value: T)

  function Max(x: real, y: real): real {
    if x >= y then x else y
  }

  function Min(x: real, y: real): real {
    if x <= y then x else y
  }

  function MaxOf(xs: seq<real>): (m: real)
    requires xs != []
    ensures m in xs
    ensures forall x | x in xs :: x <= m
  {
    var init, last := xs[..|xs| - 1], xs[|xs| - 1];
    assert xs == init + [last];
    if init == [] then last else Max(MaxOf(init), last)
  }

  function MinOf(xs: seq<real>): (m: real)
    requires xs != []
    ensures m in xs
    ensures forall x | x in xs :: m <= x
  {
    var init, last := xs[..|xs| - 1], xs[|xs| - 1];
    assert xs == init + [last];
    if init == [] then last else Min(MinOf(init), last)
  }

  function Sum(xs: seq<real>): real {
    if xs == [] then 0.0 else Sum(xs[..|xs| - 1]) + xs[|xs| - 1]
  }

  lemma {:induction false} SumConcat(xs: seq<real>, ys: seq<real>)
    ensures Sum(xs + ys) == Sum(xs) + Sum(ys)
  {
    if ys == [] {
      assert xs + ys == xs;
    } else {
      var init := ys[..|ys| - 1];
      assert (xs + ys)[..|xs + ys| - 1] == xs + init;
      SumConcat(xs, init);
    }
  }

  /** Taking one element out of a sum leaves the sum of the others. */
  lemma {:induction false} SumWithout(xs: seq<real>, i: nat)
    requires i < |xs|
    ensures Sum(xs) == Sum(xs[..i] + xs[i + 1..]) + xs[i]
  {
    assert xs == (xs[..i] + [xs[i]]) + xs[i + 1..];
    SumConcat(xs[..i] + [xs[i]], xs[i + 1..]);
    SumConcat(xs[..i], xs[i + 1..]);
  }

  /** Equal multisets stay equal when the last element of one is taken out of the other. */
  lemma WithoutLast<T>(xs: seq<T>, ys: seq<T>) returns (i: nat)
    requires xs != [] && multiset(xs) == multiset(ys)
    ensures i < |ys| && ys[i] == xs[|xs| - 1]
    ensures multiset(xs[..|xs| - 1]) == multiset(ys[..i] + ys[i + 1..])
  {
    var last := xs[|xs| - 1];
    assert xs == xs[..|xs| - 1] + [last];
    assert last in multiset(ys);
    i :| 0 <= i < |ys| && ys[i] == last;
    assert ys == ys[..i] + [ys[i]] + ys[i + 1..];
    assert multiset(xs[..|xs| - 1]) == multiset(xs) - multiset{last};
    assert multiset(ys[..i] + ys[i + 1..]) == multiset(ys) - multiset{last};
  }

  /** Positions of a list, in order. */
  predicate Ascends(at: seq<nat>) {
    forall a, b | 0 <= a < b < |at| :: at[a] < at[b]
  }

  lemma AscendsOn(at: seq<nat>, next: nat)
    requires Ascends(at) && forall a | a in at :: a < next
    ensures Ascends(at + [next])
  {
    assert forall a | 0 <= a < |at| :: at[a] in at;
  }

  /** One position more, or none, at the end of a list that was n long. */
  lemma PlacesMore(at: seq<nat>, n: nat, more: seq<nat>)
    requires Ascends(at) && (forall k | 0 <= k < |at| :: at[k] < n) && (more == [] || more == [n])
    ensures Ascends(at + more)
    ensures forall j: nat | j < n :: j in at + more <==> j in at
    ensures n in at + more <==> more != []
  {
  }

  lemma CancelFactor(x: real, y: real, n: real)
    requires n > 0.0 && x * n < y * n
    ensures x < y
  {
    if x >= y {
      ProductNonNegative(x - y, n);
      assert false;
    }
  }

  lemma ScaleLess(x: real, y: real, n: real)
    requires n > 0.0 && x < y
    ensures x * n < y * n
  {
    assert (y - x) * n > 0.0;
    assert (y - x) * n == y * n - x * n;
  }

  lemma ProductNonNegative(x: real, y: real)
    requires x >= 0.0 && y >= 0.0
    ensures x * y >= 0.0
  {
  }

  lemma QuotientAbove(x: real, n: real, bound: real)
    requires n > 0.0 && x > bound * n
    ensures x / n > bound
  {
    CancelFactor(bound, x / n, n);
  }

  lemma QuotientBelow(x: real, n: real, bound: real)
    requires n > 0.0 && x < bound * n
    ensures x / n < bound
  {
    CancelFactor(x / n, bound, n);
  }

  lemma QuotientWithin(x: real, n: real, bound: real)
    requires n > 0.0 && 0.0 <= x <= bound * n
    ensures 0.0 <= x / n <= bound
  {
    assert (x / n) * n == x;
    if bound < x / n {
      ScaleLess(bound, x / n, n);
      assert false;
    }
  }

  /** Sequences holding the same values have the same extrema. */
  lemma SameExtrema(xs: seq<real>, ys: seq<real>)
    requires xs != [] && ys != []
    requires forall x :: x in xs <==> x in ys
    ensures MaxOf(xs) == MaxOf(ys) && MinOf(xs) == MinOf(ys)
  {
    assert MaxOf(xs) in ys && MaxOf(ys) in xs;
    assert MinOf(xs) in ys && MinOf(ys) in xs;
  }

  lemma QuotientIs(x: real, n: real, y: real)
    requires n > 0.0 && y * n == x
    ensures x / n == y
  {
    if x / n < y {
      ScaleLess(x / n, y, n);
      assert false;
    } else if y < x / n {
      ScaleLess(y, x / n, n);
      assert false;
    }
  }

  function Mean(xs: seq<real>): real
    requires xs != []
  {
    Sum(xs) / |xs| as real
  }

  /** The one value that stands for all of them in their sum. */
  predicate Averages(x: real, xs: seq<real>) {
    x * |xs| as real == Sum(xs)
  }

  lemma MeanAverages(xs: seq<real>)
    requires xs != []
    ensures Averages(Mean(xs), xs)
  {
  }

  predicate Between(xs: seq<real>, lo: real, hi: real) {
    forall j | 0 <= j < |xs| :: lo <= xs[j] <= hi
  }

  lemma {:induction false} SumBetween(xs: seq<real>, lo: real, hi: real)
    requires Between(xs, lo, hi)
    ensures lo * |xs| as real <= Sum(xs) <= hi * |xs| as real
  {
    if xs != [] {
      var init := xs[..|xs| - 1];
      SumBetween(init, lo, hi);
      assert |xs| as real == |init| as real + 1.0;
      Distribute(lo, |init| as real);
      Distribute(hi, |init| as real);
    }
  }

  lemma Distribute(x: real, n: real)
    ensures x * (n + 1.0) == x * n + x
  {
  }

  lemma MeanBetween(xs: seq<real>, lo: real, hi: real)
    requires xs != [] && Between(xs, lo, hi)
    ensures lo <= Mean(xs) <= hi
  {
    SumBetween(xs, lo, hi);
    var n := |xs| as real;
    assert Mean(xs) * n == Sum(xs);
    if Mean(xs) < lo {
      ScaleLess(Mean(xs), lo, n);
      assert false;
    }
    if hi < Mean(xs) {
      ScaleLess(hi, Mean(xs), n);
      assert false;
    }
  }

  lemma MeanWithinExtremes(xs: seq<real>)
    requires xs != []
    ensures MinOf(xs) <= Mean(xs) <= MaxOf(xs)
  {
    assert forall j | 0 <= j < |xs| :: xs[j] in xs;
    MeanBetween(xs, MinOf(xs), MaxOf(xs));
  }
}
