/**
 * The folds the dashboard applies to lists of readings: the sum
 * (`reduce((a, b) => a + b, 0)`), the largest and smallest value
 * (`Math.max`, `Math.min`) and the arithmetic mean. Readings are exact reals.
 */
module Series {

  /** `xs.reduce((a, b) => a + b, 0)`, a left fold. */
  function Sum(xs: seq<real>): real
  {
    if xs == [] then 0.0 else Sum(xs[..|xs| - 1]) + xs[|xs| - 1]
  }

  /** The fold adds up a concatenation part by part, whatever the split point. */
  lemma {:induction false} SumConcat(xs: seq<real>, ys: seq<real>)
    ensures Sum(xs + ys) == Sum(xs) + Sum(ys)
  {
    if ys != [] {
      var init := ys[..|ys| - 1];
      SumConcat(xs, init);
      assert (xs + ys)[..|xs + ys| - 1] == xs + init;
    } else {
      assert xs + ys == xs;
    }
  }

  /** `Math.max(a, b)`. */
  function Larger(a: real, b: real): real {
    if a >= b then a else b
  }

  /** `Math.min(a, b)`. */
  function Smaller(a: real, b: real): real {
    if a <= b then a else b
  }

  /** The largest value of a non-empty list: an upper bound that occurs in it. */
  function Max(xs: seq<real>): (m: real)
    requires xs != []
    ensures forall i :: 0 <= i < |xs| ==> xs[i] <= m
    ensures exists i :: 0 <= i < |xs| && xs[i] == m
  {
    if |xs| == 1 then xs[0] else Larger(Max(xs[..|xs| - 1]), xs[|xs| - 1])
  }

  /** The smallest value of a non-empty list: a lower bound that occurs in it. */
  function Min(xs: seq<real>): (m: real)
    requires xs != []
    ensures forall i :: 0 <= i < |xs| ==> m <= xs[i]
    ensures exists i :: 0 <= i < |xs| && xs[i] == m
  {
    if |xs| == 1 then xs[0] else Smaller(Min(xs[..|xs| - 1]), xs[|xs| - 1])
  }

  /** A sum of values that are all at most `b` is at most `|xs|` times `b`. */
  lemma {:induction false} SumAtMost(xs: seq<real>, b: real)
    requires forall i :: 0 <= i < |xs| ==> xs[i] <= b
    ensures Sum(xs) <= |xs| as real * b
  {
    if xs != [] {
      var init := xs[..|xs| - 1];
      SumAtMost(init, b);
      assert xs[|xs| - 1] <= b;
      assert Sum(xs) == Sum(init) + xs[|xs| - 1];
      assert |xs| as real == |init| as real + 1.0;
    }
  }

  /** A sum of values that are all at least `b` is at least `|xs|` times `b`. */
  lemma {:induction false} SumAtLeast(xs: seq<real>, b: real)
    requires forall i :: 0 <= i < |xs| ==> b <= xs[i]
    ensures |xs| as real * b <= Sum(xs)
  {
    if xs != [] {
      var init := xs[..|xs| - 1];
      SumAtLeast(init, b);
      assert b <= xs[|xs| - 1];
      assert Sum(xs) == Sum(init) + xs[|xs| - 1];
      assert |xs| as real == |init| as real + 1.0;
    }
  }

  /** `sum / length` of a non-empty list; it lies between the smallest and the largest value. */
  function Mean(xs: seq<real>): (m: real)
    requires xs != []
    ensures Min(xs) <= m <= Max(xs)
  {
    var n := |xs| as real;
    SumAtMost(xs, Max(xs));
    SumAtLeast(xs, Min(xs));
    DivideBounds(Sum(xs), n, Min(xs), Max(xs));
    Sum(xs) / n
  }

  /** Dividing `lo * n <= s <= hi * n` by a positive `n`. */
  lemma DivideBounds(s: real, n: real, lo: real, hi: real)
    requires n > 0.0
    requires n * lo <= s <= n * hi
    ensures lo <= s / n <= hi
  {
    assert s / n * n == s;
  }
}
