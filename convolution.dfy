/**
 * The two same-length FIR operators: `conv`, a causal convolution truncated
 * at the left boundary, and `convT`, its transpose, truncated at the right.
 */
module Convolution {
  import opened Samples

  function Min(a: int, b: int): (r: int)
  {
    if a <= b then a else b
  }

  /** The first t terms of output n of conv: the sum over j < t of c[j] * x[n - j]. */
  function ConvSum(x: Signal, c: Signal, n: nat, t: nat): (r: real)
    requires n < |x| && t <= n + 1 && t <= |c|
  {
    if t == 0 then 0.0 else ConvSum(x, c, n, t - 1) + c[t - 1] * x[n - (t - 1)]
  }

  /**
   * Output n of conv(x, c): the sum for j from 0 to min(n, |c| - 1) of c[j] * x[n - j].
   * Samples before index 0 contribute nothing.
   */
  function ConvAt(x: Signal, c: Signal, n: nat): (r: real)
    requires n < |x|
  {
    ConvSum(x, c, n, Min(n + 1, |c|))
  }

  /** The sum for k from n to e - 1 of x[k] * c[k - n]. */
  function ConvTSum(x: Signal, c: Signal, n: nat, e: nat): (r: real)
    requires n <= e <= |x| && e - n <= |c|
    decreases e
  {
    if e == n then 0.0 else ConvTSum(x, c, n, e - 1) + x[e - 1] * c[e - 1 - n]
  }

  /**
   * Output n of convT(x, c): the sum for k from n to min(n + |c|, |x|) - 1 of x[k] * c[k - n].
   * Samples at index |x| and beyond contribute nothing.
   */
  function ConvTAt(x: Signal, c: Signal, n: nat): (r: real)
    requires n < |x|
  {
    ConvTSum(x, c, n, Min(n + |c|, |x|))
  }

  /** The whole output of conv(x, c), as a value. */
  function ConvSeq(x: Signal, c: Signal): (r: Signal)
  {
    seq(|x|, n requires 0 <= n < |x| => ConvAt(x, c, n))
  }

  /** The whole output of convT(x, c), as a value. */
  function ConvTSeq(x: Signal, c: Signal): (r: Signal)
  {
    seq(|x|, n requires 0 <= n < |x| => ConvTAt(x, c, n))
  }

  /** conv: fills an output buffer of the input's length, tap by tap. */
  method Conv(x: Signal, c: Signal) returns (y: Signal)
    ensures y == ConvSeq(x, c)
  {
    var N := |x|;
    var buf := new real[N];
    var l := |c| - 1;
    for n := 0 to N
      invariant forall i :: 0 <= i < n ==> buf[i] == ConvAt(x, c, i)
    {
      var s := 0.0;
      var lo := if l - n > 0 then l - n else 0;
      for m := lo to l + 1
        invariant s + ConvSum(x, c, n, l - m + 1) == ConvAt(x, c, n)
      {
        s := s + x[n - l + m] * c[l - m];
      }
      buf[n] := s;
    }
    y := buf[..];
  }

  /** convT: fills an output buffer of the input's length, window by window. */
  method ConvT(x: Signal, c: Signal) returns (y: Signal)
    ensures y == ConvTSeq(x, c)
  {
    var N := |x|;
    var buf := new real[N];
    var l := |c|;
    for n := 0 to N
      invariant forall i :: 0 <= i < n ==> buf[i] == ConvTAt(x, c, i)
    {
      var s := 0.0;
      for k := n to Min(l + n, N)
        invariant s == ConvTSum(x, c, n, k)
      {
        s := s + x[k] * c[k - n];
      }
      buf[n] := s;
    }
    y := buf[..];
  }

  /** The last output of convT sees a single sample: x[N - 1] * c[0]. */
  lemma ConvTLast(x: Signal, c: Signal)
    requires |x| >= 1 && |c| >= 1
    ensures ConvTAt(x, c, |x| - 1) == x[|x| - 1] * c[0]
  {
    assert ConvTSum(x, c, |x| - 1, |x| - 1) == 0.0;
  }

  /** The first output of conv sees a single sample: c[0] * x[0]. */
  lemma ConvFirst(x: Signal, c: Signal)
    requires |x| >= 1 && |c| >= 1
    ensures ConvAt(x, c, 0) == c[0] * x[0]
  {
    assert ConvSum(x, c, 0, 0) == 0.0;
  }

  // ---------------------------------------------------------------------
  // The transpose relation: sum_n conv(x,c)[n] * z[n] == sum_n x[n] * convT(z,c)[n].

  /** Inner product of two signals of equal length. */
  function Dot(x: Signal, z: Signal): (r: real)
    requires |x| == |z|
    decreases |x|
  {
    if |x| == 0 then 0.0 else x[0] * z[0] + Dot(x[1..], z[1..])
  }

  function Scale(k: real, x: Signal): (r: Signal)
  {
    seq(|x|, i requires 0 <= i < |x| => k * x[i])
  }

  /** x delayed by d samples, zeros shifted in at the front, same length. */
  function ShiftRight(x: Signal, d: nat): (r: Signal)
  {
    seq(|x|, n requires 0 <= n < |x| => if n >= d then x[n - d] else 0.0)
  }

  /** x advanced by d samples, zeros shifted in at the back, same length. */
  function ShiftLeft(x: Signal, d: nat): (r: Signal)
  {
    seq(|x|, n requires 0 <= n < |x| => if n + d < |x| then x[n + d] else 0.0)
  }

  lemma {:induction false} DotSymmetric(x: Signal, z: Signal)
    requires |x| == |z|
    ensures Dot(x, z) == Dot(z, x)
  {
    if |x| > 0 {
      DotSymmetric(x[1..], z[1..]);
    }
  }

  lemma {:induction false} DotAppend(a: Signal, b: Signal, c: Signal, d: Signal)
    requires |a| == |c| && |b| == |d|
    ensures Dot(a + b, c + d) == Dot(a, c) + Dot(b, d)
  {
    if |a| == 0 {
      assert a + b == b && c + d == d;
    } else {
      assert (a + b)[1..] == a[1..] + b;
      assert (c + d)[1..] == c[1..] + d;
      DotAppend(a[1..], b, c[1..], d);
    }
  }

  lemma {:induction false} DotZeros(n: nat, z: Signal)
    requires |z| == n
    ensures Dot(Zeros(n), z) == 0.0
  {
    if n > 0 {
      assert Zeros(n)[1..] == Zeros(n - 1);
      DotZeros(n - 1, z[1..]);
    }
  }

  lemma {:induction false} DotAddLeft(a: Signal, b: Signal, z: Signal)
    requires |a| == |b| == |z|
    ensures Dot(Add(a, b), z) == Dot(a, z) + Dot(b, z)
  {
    if |a| > 0 {
      assert Add(a, b)[1..] == Add(a[1..], b[1..]);
      DotAddLeft(a[1..], b[1..], z[1..]);
    }
  }

  lemma {:induction false} DotScaleLeft(k: real, a: Signal, z: Signal)
    requires |a| == |z|
    ensures Dot(Scale(k, a), z) == k * Dot(a, z)
  {
    if |a| > 0 {
      forall i | 0 <= i < |a| - 1
        ensures Scale(k, a)[1..][i] == Scale(k, a[1..])[i]
      {
      }
      assert Scale(k, a)[1..] == Scale(k, a[1..]);
      DotScaleLeft(k, a[1..], z[1..]);
      assert k * a[0] * z[0] + k * Dot(a[1..], z[1..]) == k * (a[0] * z[0] + Dot(a[1..], z[1..]));
    }
  }

  /** Delaying by one sample drops the last sample and puts a zero in front. */
  lemma ShiftRightOne(x: Signal)
    requires |x| > 0
    ensures ShiftRight(x, 1) == [0.0] + x[..|x| - 1]
  {
    var r := [0.0] + x[..|x| - 1];
    forall n | 0 <= n < |x|
      ensures ShiftRight(x, 1)[n] == r[n]
    {
    }
  }

  /** Advancing by one sample drops the first sample and puts a zero at the back. */
  lemma ShiftLeftOne(z: Signal)
    requires |z| > 0
    ensures ShiftLeft(z, 1) == z[1..] + [0.0]
  {
    var r := z[1..] + [0.0];
    forall n | 0 <= n < |z|
      ensures ShiftLeft(z, 1)[n] == r[n]
    {
    }
  }

  /** Delaying by one sample is the adjoint of advancing by one sample. */
  lemma ShiftByOneAdjoint(x: Signal, z: Signal)
    requires |x| == |z|
    ensures Dot(ShiftRight(x, 1), z) == Dot(x, ShiftLeft(z, 1))
  {
    var N := |x|;
    if N > 0 {
      var xs := x[..N - 1];
      var zs := z[1..];
      ShiftRightOne(x);
      ShiftLeftOne(z);
      calc {
        Dot(ShiftRight(x, 1), z);
        Dot([0.0] + xs, z);
        { assert ([0.0] + xs)[1..] == xs; }
        0.0 * z[0] + Dot(xs, zs);
        Dot(xs, zs);
        { assert Dot([x[N - 1]], [0.0]) == x[N - 1] * 0.0 + Dot([], []); }
        Dot(xs, zs) + Dot([x[N - 1]], [0.0]);
        { DotAppend(xs, [x[N - 1]], zs, [0.0]); }
        Dot(xs + [x[N - 1]], zs + [0.0]);
        { assert xs + [x[N - 1]] == x; }
        Dot(x, ShiftLeft(z, 1));
      }
    }
  }

  /** Delaying by d samples is the adjoint of advancing by d samples. */
  lemma {:induction false} ShiftAdjoint(x: Signal, z: Signal, d: nat)
    requires |x| == |z|
    ensures Dot(ShiftRight(x, d), z) == Dot(x, ShiftLeft(z, d))
    decreases d
  {
    if d == 0 {
      assert ShiftRight(x, 0) == x;
      assert ShiftLeft(z, 0) == z;
    } else {
      assert ShiftRight(x, d) == ShiftRight(ShiftRight(x, d - 1), 1);
      ShiftByOneAdjoint(ShiftRight(x, d - 1), z);
      ShiftAdjoint(x, ShiftLeft(z, 1), d - 1);
      assert ShiftLeft(ShiftLeft(z, 1), d - 1) == ShiftLeft(z, d);
    }
  }

  /** A partial conv sum reads only the first t taps of the filter. */
  lemma {:induction false} ConvSumTaps(x: Signal, c: Signal, n: nat, t: nat, p: nat)
    requires n < |x| && t <= n + 1 && t <= p <= |c|
    ensures ConvSum(x, c, n, t) == ConvSum(x, c[..p], n, t)
  {
    if t > 0 {
      ConvSumTaps(x, c, n, t - 1, p);
    }
  }

  /** A partial convT sum reads only the first e - n taps of the filter. */
  lemma {:induction false} ConvTSumTaps(x: Signal, c: Signal, n: nat, e: nat, p: nat)
    requires n <= e <= |x| && e - n <= p <= |c|
    decreases e
    ensures ConvTSum(x, c, n, e) == ConvTSum(x, c[..p], n, e)
  {
    if e > n {
      ConvTSumTaps(x, c, n, e - 1, p);
    }
  }

  /** With no taps, conv is identically zero. */
  lemma ConvNoTaps(x: Signal)
    ensures ConvSeq(x, []) == Zeros(|x|)
  {
  }

  /** With no taps, convT is identically zero. */
  lemma ConvTNoTaps(x: Signal)
    ensures ConvTSeq(x, []) == Zeros(|x|)
  {
    forall n | 0 <= n < |x|
      ensures ConvTAt(x, [], n) == 0.0
    {
    }
  }

  /** conv with the last tap split off: that tap acts on x delayed by |c| - 1. */
  lemma ConvPeel(x: Signal, c: Signal)
    requires |c| >= 1
    ensures ConvSeq(x, c) ==
            Add(ConvSeq(x, c[..|c| - 1]), Scale(c[|c| - 1], ShiftRight(x, |c| - 1)))
  {
    var p := |c| - 1;
    var rhs := Add(ConvSeq(x, c[..p]), Scale(c[p], ShiftRight(x, p)));
    forall n | 0 <= n < |x|
      ensures ConvSeq(x, c)[n] == rhs[n]
    {
      assert rhs[n] == ConvAt(x, c[..p], n) + c[p] * ShiftRight(x, p)[n];
      if n + 1 >= |c| {
        ConvSumTaps(x, c, n, p, p);
      } else {
        ConvSumTaps(x, c, n, n + 1, p);
      }
    }
  }

  /** convT with the last tap split off: that tap acts on z advanced by |c| - 1. */
  lemma ConvTPeel(z: Signal, c: Signal)
    requires |c| >= 1
    ensures ConvTSeq(z, c) ==
            Add(ConvTSeq(z, c[..|c| - 1]), Scale(c[|c| - 1], ShiftLeft(z, |c| - 1)))
  {
    var p := |c| - 1;
    var rhs := Add(ConvTSeq(z, c[..p]), Scale(c[p], ShiftLeft(z, p)));
    forall n | 0 <= n < |z|
      ensures ConvTSeq(z, c)[n] == rhs[n]
    {
      assert rhs[n] == ConvTAt(z, c[..p], n) + c[p] * ShiftLeft(z, p)[n];
      if n + |c| <= |z| {
        ConvTSumTaps(z, c, n, n + p, p);
      } else {
        ConvTSumTaps(z, c, n, |z|, p);
      }
    }
  }

  /** convT multiplies by the transpose of the matrix that conv multiplies by. */
  lemma {:induction false} ConvTIsTranspose(x: Signal, z: Signal, c: Signal)
    requires |x| == |z|
    ensures Dot(ConvSeq(x, c), z) == Dot(x, ConvTSeq(z, c))
    decreases |c|
  {
    if |c| == 0 {
      ConvNoTaps(x);
      ConvTNoTaps(z);
      DotZeros(|x|, z);
      DotSymmetric(x, Zeros(|z|));
      DotZeros(|z|, x);
    } else {
      var p := |c| - 1;
      var cs := c[..p];
      var k := c[p];
      var dx := ShiftRight(x, p);
      var az := ShiftLeft(z, p);
      ConvPeel(x, c);
      ConvTPeel(z, c);
      calc {
        Dot(ConvSeq(x, c), z);
        Dot(Add(ConvSeq(x, cs), Scale(k, dx)), z);
        { DotAddLeft(ConvSeq(x, cs), Scale(k, dx), z); }
        Dot(ConvSeq(x, cs), z) + Dot(Scale(k, dx), z);
        { DotScaleLeft(k, dx, z); }
        Dot(ConvSeq(x, cs), z) + k * Dot(dx, z);
        { ConvTIsTranspose(x, z, cs); ShiftAdjoint(x, z, p); }
        Dot(x, ConvTSeq(z, cs)) + k * Dot(x, az);
        { DotSymmetric(x, ConvTSeq(z, cs)); DotSymmetric(x, az); }
        Dot(ConvTSeq(z, cs), x) + k * Dot(az, x);
        { DotScaleLeft(k, az, x); }
        Dot(ConvTSeq(z, cs), x) + Dot(Scale(k, az), x);
        { DotAddLeft(ConvTSeq(z, cs), Scale(k, az), x); }
        Dot(Add(ConvTSeq(z, cs), Scale(k, az)), x);
        Dot(ConvTSeq(z, c), x);
        { DotSymmetric(x, ConvTSeq(z, c)); }
        Dot(x, ConvTSeq(z, c));
      }
    }
  }
}
