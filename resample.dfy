/** Decimation by two (keep the even-indexed samples) and zero-stuffing by two. */
module Resample {
  import opened Samples

  /** downsample as a value: the samples at even indices. */
  function Down(x: Signal): (r: Signal)
  {
    seq((|x| + 1) / 2, i requires 0 <= i < (|x| + 1) / 2 => x[2 * i])
  }

  /** upsample as a value: each sample followed by a zero. */
  function Up(x: Signal): (r: Signal)
  {
    seq(2 * |x|, i requires 0 <= i < 2 * |x| => if i % 2 == 0 then x[i / 2] else 0.0)
  }

  /** downsample: writes every even-indexed input sample into a zeroed buffer of half size. */
  method Downsample(x: Signal) returns (y: Signal)
    ensures y == Down(x)
  {
    var l := (|x| + 1) / 2;
    var buf := new real[l](_ => 0.0);
    for ii := 0 to |x|
      invariant forall j :: 0 <= j < (ii + 1) / 2 ==> buf[j] == x[2 * j]
    {
      if ii % 2 == 0 {
        buf[ii / 2] := x[ii];
      }
    }
    y := buf[..];
  }

  /** upsample: copies the input into the even slots of a zeroed buffer of twice the size. */
  method Upsample(x: Signal) returns (y: Signal)
    ensures y == Up(x)
  {
    var l := 2 * |x|;
    var buf := new real[l](_ => 0.0);
    for ii := 0 to l
      invariant forall j :: 0 <= j < ii ==> buf[j] == if j % 2 == 0 then x[j / 2] else 0.0
      invariant forall j :: ii <= j < l ==> buf[j] == 0.0
    {
      if ii % 2 == 0 {
        buf[ii] := x[ii / 2];
      }
    }
    y := buf[..];
  }

  /** Zero-stuffing puts x[i] at 2i and a zero at 2i + 1. */
  lemma UpAt(x: Signal, i: nat)
    requires i < |x|
    ensures |Up(x)| == 2 * |x|
    ensures Up(x)[2 * i] == x[i] && Up(x)[2 * i + 1] == 0.0
  {
  }

  /** Decimation undoes zero-stuffing. */
  lemma DownUp(x: Signal)
    ensures Down(Up(x)) == x
  {
    forall i | 0 <= i < |x|
      ensures Down(Up(x))[i] == x[i]
    {
      UpAt(x, i);
    }
  }
}
