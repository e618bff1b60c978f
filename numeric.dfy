/** Arithmetic the modelled code borrows from Python and numpy: sums, means
    and the one non-finite float value the code itself can produce. */
module Numeric {

  /** A float as far as the modelled code can tell values apart: a finite
      number, or NaN (what `np.mean` returns for an empty array and what
      `0 / 0` gives on numpy integers). Every comparison with NaN is false. */
  datatype Float = Finite(value: real) | NaN

  function Abs(x: real): (r: real)
    ensures r >= 0.0 && (r == x || r == -x)
  {
    if x < 0.0 then -x else x
  }

  /** Sum of a sequence, folded from the left as Python's `sum` does. */
  function Sum(xs: seq<real>): real
  {
    if xs == [] then 0.0 else Sum(xs[..|xs| - 1]) + xs[|xs| - 1]
  }

  /** `np.mean` of a float array: NaN when the array is empty. */
  function Mean(xs: seq<real>): (r: Float)
    ensures r.NaN? <==> xs == []
  {
    if xs == [] then NaN else Finite(Sum(xs) / (|xs| as real))
  }

  /** `np.mean` along the last axis of a 2-D array: one mean per row. */
  function MeansOf(rows: seq<seq<real>>): (ms: seq<Float>)
    ensures |ms| == |rows| && forall i :: 0 <= i < |rows| ==> ms[i] == Mean(rows[i])
  {
    seq(|rows|, i requires 0 <= i < |rows| => Mean(rows[i]))
  }

  predicate AllFinite(xs: seq<Float>)
  {
    forall i :: 0 <= i < |xs| ==> xs[i].Finite?
  }

  function Values(xs: seq<Float>): (r: seq<real>)
    requires AllFinite(xs)
    ensures |r| == |xs| && forall i :: 0 <= i < |xs| ==> r[i] == xs[i].value
  {
    seq(|xs|, i requires 0 <= i < |xs| => xs[i].value)
  }

  /** `np.mean` of an array that may hold NaN: one NaN makes the mean NaN. */
  function MeanF(xs: seq<Float>): (r: Float)
    ensures r.Finite? <==> xs != [] && AllFinite(xs)
  {
    if AllFinite(xs) then Mean(Values(xs)) else NaN
  }

  lemma {:induction false} SumAppend(a: seq<real>, b: seq<real>)
    ensures Sum(a + b) == Sum(a) + Sum(b)
    decreases |b|
  {
    if b != [] {
      var b' := b[..|b| - 1];
      assert (a + b)[..|a + b| - 1] == a + b';
      SumAppend(a, b');
    } else {
      assert a + b == a;
    }
  }

  lemma {:induction false} SumBounds(xs: seq<real>, lo: real, hi: real)
    requires forall i :: 0 <= i < |xs| ==> lo <= xs[i] <= hi
    ensures (|xs| as real) * lo <= Sum(xs) <= (|xs| as real) * hi
  {
    if xs != [] {
      SumBounds(xs[..|xs| - 1], lo, hi);
    }
  }

  /** The mean of a non-empty sequence lies between any bounds of its elements. */
  lemma MeanWithin(xs: seq<real>, lo: real, hi: real)
    requires xs != []
    requires forall i :: 0 <= i < |xs| ==> lo <= xs[i] <= hi
    ensures Mean(xs).Finite? && lo <= Mean(xs).value <= hi
  {
    SumBounds(xs, lo, hi);
  }

  lemma {:induction false} SumNonNegative(xs: seq<real>)
    requires forall i :: 0 <= i < |xs| ==> xs[i] >= 0.0
    ensures Sum(xs) >= 0.0
  {
    if xs != [] {
      SumNonNegative(xs[..|xs| - 1]);
    }
  }

  /** The mean of non-negative numbers, when defined, is non-negative. */
  lemma MeanNonNegative(xs: seq<real>)
    requires forall i :: 0 <= i < |xs| ==> xs[i] >= 0.0
    ensures Mean(xs).Finite? ==> Mean(xs).value >= 0.0
  {
    SumNonNegative(xs);
  }
}
