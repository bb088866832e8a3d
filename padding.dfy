/**
 * Extending a signal with zeros to a power-of-two length, and trimming the
 * zeros off again. The number of zeros lives in a small state object.
 */
module Padding {
  import opened Samples

  /** n is 2^k for some k. */
  predicate IsPow2(n: nat)
    decreases n
  {
    n == 1 || (n >= 2 && n % 2 == 0 && IsPow2(n / 2))
  }

  /** The integer part of log2(n). */
  function FloorLog2(n: nat): (e: nat)
    requires n >= 1
    ensures Pow2(e) <= n < Pow2(e + 1)
  {
    if n == 1 then 0 else 1 + FloorLog2(n / 2)
  }

  /** 2 ** (int(log2(n)) + 1): the length pad_array extends a signal of length n to. */
  function NextPow2(n: nat): (r: nat)
    requires n >= 1
  {
    Pow2(FloorLog2(n) + 1)
  }

  lemma {:induction false} Pow2IsPow2(k: nat)
    ensures IsPow2(Pow2(k))
  {
    if k > 0 {
      Pow2IsPow2(k - 1);
    }
  }

  /** The power-of-two test is exact: it holds of n just when n is 2^FloorLog2(n). */
  lemma {:induction false} IsPow2Exact(n: nat)
    requires n >= 1
    ensures IsPow2(n) <==> n == Pow2(FloorLog2(n))
    decreases n
  {
    if n == Pow2(FloorLog2(n)) {
      Pow2IsPow2(FloorLog2(n));
    }
    if n >= 2 {
      IsPow2Exact(n / 2);
    }
  }

  /** NextPow2(n) is the least power of two above n. */
  lemma NextPow2Least(n: nat, k: nat)
    requires n >= 1
    ensures IsPow2(NextPow2(n)) && n < NextPow2(n)
    ensures n < Pow2(k) ==> NextPow2(n) <= Pow2(k)
  {
    Pow2IsPow2(FloorLog2(n) + 1);
    if n < Pow2(k) {
      if k <= FloorLog2(n) {
        Pow2Monotone(k, FloorLog2(n));
      }
      Pow2Monotone(FloorLog2(n) + 1, k);
    }
  }

  /** Python's normalisation of the stop bound of a slice of a length-n sequence. */
  function SliceStop(n: nat, stop: int): (r: nat)
  {
    if stop >= n then n
    else if stop >= 0 then stop
    else if stop + n >= 0 then stop + n
    else 0
  }

  /** The slice x[0 : len(x) - amount] that depad_array takes. */
  function Depad(x: Signal, amount: nat): (y: Signal)
    ensures |y| <= |x| && y == x[..|y|]
    ensures amount <= |x| ==> |y| == |x| - amount
    ensures |x| < amount <= 2 * |x| ==> |y| == 2 * |x| - amount
    ensures 2 * |x| < amount ==> y == []
  {
    x[..SliceStop(|x|, |x| - amount)]
  }

  /** Trimming as many samples as were appended gives the signal back. */
  lemma DepadPadded(x: Signal, amount: nat)
    ensures Depad(x + Zeros(amount), amount) == x
  {
    assert (x + Zeros(amount))[..|x|] == x;
  }

  /** The process-wide pad_amount, with its initial value 0. */
  class PadState {
    var padAmount: nat

    constructor ()
      ensures padAmount == 0
    {
      padAmount := 0;
    }

    /**
     * pad_array: a power-of-two length is returned unchanged and leaves
     * padAmount alone; otherwise zeros are appended up to the next power of
     * two and their number is recorded. An empty signal is an error.
     */
    method PadArray(x: Signal) returns (r: Result<Signal>)
      modifies this
      ensures |x| == 0 ==> r == Err(EmptySignal) && padAmount == old(padAmount)
      ensures |x| >= 1 && IsPow2(|x|) ==> r == Ok(x) && padAmount == old(padAmount)
      ensures |x| >= 1 && !IsPow2(|x|) ==>
                r.Ok? && |r.value| == NextPow2(|x|) && r.value[..|x|] == x &&
                (forall i :: |x| <= i < |r.value| ==> r.value[i] == 0.0) &&
                padAmount == |r.value| - |x|
    {
      var l := |x|;
      if l == 0 {
        return Err(EmptySignal);
      }
      if IsPow2(l) {
        return Ok(x);
      }
      var ad := NextPow2(l) - l;
      var z := Zeros(ad);
      var y := x + z;
      padAmount := |z|;
      r := Ok(y);
    }

    /** depad_array: drops the last padAmount samples, as the slice does. */
    function DepadArray(x: Signal): (y: Signal)
      reads this
      ensures |y| <= |x| && y == x[..|y|]
      ensures padAmount <= |x| ==> |y| == |x| - padAmount
    {
      Depad(x, padAmount)
    }
  }

  /**
   * pad_array followed by depad_array on a fresh state: every non-empty
   * signal comes back unchanged, and an empty one is an error.
   */
  method PadThenDepad(x: Signal) returns (r: Result<Signal>)
    ensures |x| == 0 ==> r == Err(EmptySignal)
    ensures |x| >= 1 ==> r == Ok(x)
  {
    var pad := new PadState();
    var padded := pad.PadArray(x);
    if padded.Err? {
      return padded;
    }
    assert padded.value == x + Zeros(pad.padAmount);
    DepadPadded(x, pad.padAmount);
    r := Ok(pad.DepadArray(padded.value));
  }
}
