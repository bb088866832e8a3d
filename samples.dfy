/** Values shared by the filter-bank modules: signals, errors, powers of two. */
module Samples {

  /** A signal is an ordered sequence of exact real samples (no floating-point rounding). */
  type Signal = seq<real>

  /** The ways the core fails at run time. */
  datatype Error =
    | EmptySignal     // the power-of-two test takes log2 of a zero length
    | EmptyList       // pop from an empty list of bands
    | LengthMismatch  // elementwise sum of two arrays of different lengths

  datatype Result<T> = Ok(value: T) | Err(error: Error)

  datatype Option<T> = None | Some(value: T)

  function Pow2(k: nat): (p: nat)
    ensures p >= 1
  {
    if k == 0 then 1 else 2 * Pow2(k - 1)
  }

  lemma {:induction false} Pow2Monotone(i: nat, j: nat)
    requires i <= j
    ensures Pow2(i) <= Pow2(j)
  {
    if i < j {
      Pow2Monotone(i, j - 1);
    }
  }

  /** n zero samples, as numpy's zeros(n). */
  function Zeros(n: nat): (z: Signal)
  {
    seq(n, i => 0.0)
  }

  /** Elementwise sum of two arrays of equal length. */
  function Add(a: Signal, b: Signal): (s: Signal)
    requires |a| == |b|
  {
    seq(|a|, i requires 0 <= i < |a| => a[i] + b[i])
  }
}
