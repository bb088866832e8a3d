/**
 * The recursive filter bank: analysis stores the low-pass band of every level
 * and recurses on the high-pass band; synthesis consumes the stored bands from
 * the last one back to the first.
 */
module Cascade {
  import opened Samples
  import opened Convolution
  import opened Resample

  // ---------------------------------------------------------------------
  // Specification functions

  /** The band that analysis stores at a level with working signal x. */
  function LowBand(x: Signal, lp: Signal): (r: Signal)
  {
    Down(ConvTSeq(x, lp))
  }

  /** The working signal of the next analysis level. */
  function HighBand(x: Signal, hp: Signal): (r: Signal)
  {
    Down(ConvTSeq(x, hp))
  }

  /**
   * The list wavelet_analysis returns: one low-pass band per level while the
   * working signal is longer than one sample, then the final working signal.
   */
  function Analysis(x: Signal, lp: Signal, hp: Signal): (bank: seq<Signal>)
    ensures |bank| >= 1
    decreases |x|
  {
    if |x| <= 1 then [x]
    else [LowBand(x, lp)] + Analysis(HighBand(x, hp), lp, hp)
  }

  /** The working signal after i analysis levels. */
  function Current(x: Signal, hp: Signal, i: nat): (r: Signal)
    decreases i
  {
    if i == 0 then x else Current(HighBand(x, hp), hp, i - 1)
  }

  /** One synthesis level: both signals zero-stuffed, filtered and summed. */
  function Step(cur: Signal, band: Signal, lp: Signal, hp: Signal): (r: Signal)
    requires |cur| == |band|
  {
    Add(ConvSeq(Up(cur), hp), ConvSeq(Up(band), lp))
  }

  /**
   * Synthesis with working signal cur while `rest` is still in the list:
   * bands are taken from the end of `rest`.
   */
  function SynthesisFrom(cur: Signal, rest: seq<Signal>, lp: Signal, hp: Signal): (r: Result<Signal>)
    decreases |rest|
  {
    if rest == [] then Ok(cur)
    else
      var band := rest[|rest| - 1];
      if |band| != |cur| then Err(LengthMismatch)
      else SynthesisFrom(Step(cur, band, lp, hp), rest[..|rest| - 1], lp, hp)
  }

  /** What wavelet_synthesis returns for a list of bands. */
  function Synthesis(bank: seq<Signal>, lp: Signal, hp: Signal): (r: Result<Signal>)
  {
    if bank == [] then Err(EmptyList)
    else SynthesisFrom(bank[|bank| - 1], bank[..|bank| - 1], lp, hp)
  }

  /**
   * The shape analysis gives a signal of length 2^k: k + 1 bands, band i
   * of length 2^(k - 1 - i) for i < k, and a last band of length 1.
   */
  ghost predicate CascadeShape(bank: seq<Signal>, k: nat)
  {
    |bank| == k + 1 && |bank[k]| == 1 &&
    forall i :: 0 <= i < k ==> |bank[i]| == Pow2(k - 1 - i)
  }

  /** A 2-tap orthonormal filter pair [a, b], [b, -a] with a^2 + b^2 = 1. */
  ghost predicate OrthonormalPair(lp: Signal, hp: Signal)
  {
    |lp| == 2 && hp == [lp[1], -lp[0]] && lp[0] * lp[0] + lp[1] * lp[1] == 1.0
  }

  // ---------------------------------------------------------------------
  // Properties of analysis

  /** One more level of the working signal is one more high-pass step, as in the loop. */
  lemma {:induction false} CurrentStep(x: Signal, hp: Signal, i: nat)
    ensures Current(x, hp, i + 1) == HighBand(Current(x, hp, i), hp)
    decreases i
  {
    if i > 0 {
      CurrentStep(HighBand(x, hp), hp, i - 1);
    }
  }

  /**
   * Band i is the low-pass band of the i-th working signal, and the last band
   * is the working signal left when it is one sample long or shorter.
   */
  lemma {:induction false} AnalysisBands(x: Signal, lp: Signal, hp: Signal, i: nat)
    requires i < |Analysis(x, lp, hp)|
    ensures i < |Analysis(x, lp, hp)| - 1 ==>
              |Current(x, hp, i)| > 1 && Analysis(x, lp, hp)[i] == LowBand(Current(x, hp, i), lp)
    ensures i == |Analysis(x, lp, hp)| - 1 ==>
              |Current(x, hp, i)| <= 1 && Analysis(x, lp, hp)[i] == Current(x, hp, i)
    decreases |x|
  {
    if |x| > 1 && i > 0 {
      AnalysisBands(HighBand(x, hp), lp, hp, i - 1);
    }
  }

  /** A non-empty signal ends in a band of exactly one sample; a signal of at most one sample is its own cascade. */
  lemma {:induction false} AnalysisLastBand(x: Signal, lp: Signal, hp: Signal)
    ensures |x| <= 1 ==> Analysis(x, lp, hp) == [x]
    ensures |x| >= 1 ==> |Analysis(x, lp, hp)[|Analysis(x, lp, hp)| - 1]| == 1
    decreases |x|
  {
    if |x| > 1 {
      var v := HighBand(x, hp);
      AnalysisLastBand(v, lp, hp);
      assert Analysis(x, lp, hp) == [LowBand(x, lp)] + Analysis(v, lp, hp);
    }
  }

  /** A signal of length 2^k is analysed into a cascade of shape k. */
  lemma {:induction false} AnalysisShape(x: Signal, lp: Signal, hp: Signal, k: nat)
    requires |x| == Pow2(k)
    ensures CascadeShape(Analysis(x, lp, hp), k)
    decreases k
  {
    if k > 0 {
      var v := HighBand(x, hp);
      assert |v| == Pow2(k - 1);
      AnalysisShape(v, lp, hp, k - 1);
      var bank := Analysis(x, lp, hp);
      assert bank == [LowBand(x, lp)] + Analysis(v, lp, hp);
      forall i | 0 <= i < k
        ensures |bank[i]| == Pow2(k - 1 - i)
      {
        if i > 0 {
          assert bank[i] == Analysis(v, lp, hp)[i - 1];
        }
      }
    }
  }

  /** A signal one sample short of 2^k, k >= 2, gets the same shape: the first halving rounds up. */
  lemma AnalysisShapeOneShort(x: Signal, lp: Signal, hp: Signal, k: nat)
    requires k >= 2 && |x| == Pow2(k) - 1
    ensures CascadeShape(Analysis(x, lp, hp), k)
  {
    var v := HighBand(x, hp);
    assert |v| == Pow2(k - 1);
    AnalysisShape(v, lp, hp, k - 1);
    var bank := Analysis(x, lp, hp);
    assert bank == [LowBand(x, lp)] + Analysis(v, lp, hp);
    forall i | 0 <= i < k
      ensures |bank[i]| == Pow2(k - 1 - i)
    {
      if i > 0 {
        assert bank[i] == Analysis(v, lp, hp)[i - 1];
      }
    }
  }

  // ---------------------------------------------------------------------
  // Properties of synthesis

  /** Consuming p + q from the end: first all of q, then all of p. */
  lemma {:induction false} SynthesisFromSplit(cur: Signal, p: seq<Signal>, q: seq<Signal>,
                                              lp: Signal, hp: Signal)
    ensures SynthesisFrom(cur, p + q, lp, hp) ==
            match SynthesisFrom(cur, q, lp, hp)
            case Err(e) => Err(e)
            case Ok(w) => SynthesisFrom(w, p, lp, hp)
    decreases |q|
  {
    if q == [] {
      assert p + q == p;
    } else {
      var band := q[|q| - 1];
      assert (p + q)[|p + q| - 1] == band;
      assert (p + q)[..|p + q| - 1] == p + q[..|q| - 1];
      if |band| == |cur| {
        SynthesisFromSplit(Step(cur, band, lp, hp), p, q[..|q| - 1], lp, hp);
      }
    }
  }

  /** Synthesis of [band] + bank: synthesise bank, then one more level with band. */
  lemma SynthesisCons(band: Signal, bank: seq<Signal>, lp: Signal, hp: Signal)
    requires |bank| >= 1
    ensures Synthesis([band] + bank, lp, hp) ==
            match Synthesis(bank, lp, hp)
            case Err(e) => Err(e)
            case Ok(w) => if |band| != |w| then Err(LengthMismatch) else Ok(Step(w, band, lp, hp))
  {
    var all := [band] + bank;
    assert all[|all| - 1] == bank[|bank| - 1];
    assert all[..|all| - 1] == [band] + bank[..|bank| - 1];
    SynthesisFromSplit(bank[|bank| - 1], [band], bank[..|bank| - 1], lp, hp);
  }

  /** A cascade of shape k synthesises, without a length mismatch, to 2^k samples. */
  lemma {:induction false} SynthesisShape(bank: seq<Signal>, lp: Signal, hp: Signal, k: nat)
    requires CascadeShape(bank, k)
    ensures Synthesis(bank, lp, hp).Ok?
    ensures |Synthesis(bank, lp, hp).value| == Pow2(k)
    decreases k
  {
    if k > 0 {
      var rest := bank[1..];
      assert CascadeShape(rest, k - 1) by {
        forall i | 0 <= i < k - 1
          ensures |rest[i]| == Pow2(k - 2 - i)
        {
          assert rest[i] == bank[i + 1];
        }
      }
      SynthesisShape(rest, lp, hp, k - 1);
      assert bank == [bank[0]] + rest;
      SynthesisCons(bank[0], rest, lp, hp);
    }
  }

  /** Whatever the two filter pairs, a 2^k-sample signal comes back with 2^k samples. */
  lemma AnalysisSynthesisLength(x: Signal, lp: Signal, hp: Signal, lp2: Signal, hp2: Signal, k: nat)
    requires |x| == Pow2(k)
    ensures Synthesis(Analysis(x, lp, hp), lp2, hp2).Ok?
    ensures |Synthesis(Analysis(x, lp, hp), lp2, hp2).value| == |x|
  {
    AnalysisShape(x, lp, hp, k);
    SynthesisShape(Analysis(x, lp, hp), lp2, hp2, k);
  }

  // ---------------------------------------------------------------------
  // Perfect reconstruction for an orthonormal 2-tap pair

  /** A 2-tap conv output: c[0] * x[n] + c[1] * x[n - 1], the second term absent at n = 0. */
  lemma TwoTapConv(x: Signal, c: Signal, n: nat)
    requires |c| == 2 && n < |x|
    ensures ConvAt(x, c, n) == c[0] * x[n] + (if n >= 1 then c[1] * x[n - 1] else 0.0)
  {
    assert ConvSum(x, c, n, 1) == c[0] * x[n];
  }

  /** A 2-tap convT output away from the right boundary: x[n] * c[0] + x[n + 1] * c[1]. */
  lemma TwoTapConvT(x: Signal, c: Signal, n: nat)
    requires |c| == 2 && n + 1 < |x|
    ensures ConvTAt(x, c, n) == x[n] * c[0] + x[n + 1] * c[1]
  {
    assert ConvTSum(x, c, n, n + 1) == x[n] * c[0];
  }

  /**
   * With a^2 + b^2 = 1 and [c0, c1] = [b, -a], the map (p, q) to (u, v) below
   * is undone by (u, v) to (c0 * v + a * u, c1 * v + b * u).
   */
  lemma Rotation(a: real, b: real, c0: real, c1: real, p: real, q: real, u: real, v: real)
    requires a * a + b * b == 1.0 && c0 == b && c1 == -a
    requires u == p * a + q * b && v == p * c0 + q * c1
    ensures c0 * v + a * u == p
    ensures c1 * v + b * u == q
  {
    assert c0 * v + a * u == (a * a + b * b) * p;
    assert c1 * v + b * u == (a * a + b * b) * q;
  }

  /** A 2-tap conv of a zero-stuffed signal: c[0] * v[i] at 2i and c[1] * v[i] at 2i + 1. */
  lemma TwoTapConvUp(v: Signal, c: Signal, i: nat)
    requires |c| == 2 && i < |v|
    ensures |Up(v)| == 2 * |v|
    ensures ConvAt(Up(v), c, 2 * i) == c[0] * v[i]
    ensures ConvAt(Up(v), c, 2 * i + 1) == c[1] * v[i]
  {
    TwoTapConv(Up(v), c, 2 * i);
    TwoTapConv(Up(v), c, 2 * i + 1);
    assert Up(v)[2 * i] == v[i] && Up(v)[2 * i + 1] == 0.0;
    assert i >= 1 ==> Up(v)[2 * i - 1] == 0.0;
  }

  /** The two samples of a level's bands at position i, for an orthonormal pair. */
  lemma BandsAt(x: Signal, lp: Signal, hp: Signal, i: nat)
    requires OrthonormalPair(lp, hp) && |x| % 2 == 0 && 2 * i + 1 < |x|
    ensures |LowBand(x, lp)| == |HighBand(x, hp)| == |x| / 2
    ensures LowBand(x, lp)[i] == x[2 * i] * lp[0] + x[2 * i + 1] * lp[1]
    ensures HighBand(x, hp)[i] == x[2 * i] * hp[0] + x[2 * i + 1] * hp[1]
  {
    TwoTapConvT(x, lp, 2 * i);
    TwoTapConvT(x, hp, 2 * i);
  }

  /** Samples 2i and 2i + 1 of a 2-tap synthesis level. */
  lemma TwoTapStep(v: Signal, u: Signal, lp: Signal, hp: Signal, i: nat)
    requires |lp| == 2 && |hp| == 2 && |u| == |v| && i < |v|
    ensures |Step(v, u, lp, hp)| == 2 * |v|
    ensures Step(v, u, lp, hp)[2 * i] == hp[0] * v[i] + lp[0] * u[i]
    ensures Step(v, u, lp, hp)[2 * i + 1] == hp[1] * v[i] + lp[1] * u[i]
  {
    TwoTapConvUp(v, hp, i);
    TwoTapConvUp(u, lp, i);
  }

  /**
   * A synthesis level with an orthonormal pair restores samples p, q at 2i, 2i + 1
   * from u[i] = p * a + q * b and v[i] = p * b - q * a.
   */
  lemma LevelSample(v: Signal, u: Signal, lp: Signal, hp: Signal, i: nat, p: real, q: real)
    requires OrthonormalPair(lp, hp) && |u| == |v| && i < |v|
    requires u[i] == p * lp[0] + q * lp[1] && v[i] == p * hp[0] + q * hp[1]
    ensures Step(v, u, lp, hp)[2 * i] == p
    ensures Step(v, u, lp, hp)[2 * i + 1] == q
  {
    TwoTapStep(v, u, lp, hp, i);
    Rotation(lp[0], lp[1], hp[0], hp[1], p, q, u[i], v[i]);
  }

  /** One synthesis level undoes one analysis level of an even-length signal. */
  lemma LevelReconstruction(x: Signal, lp: Signal, hp: Signal)
    requires OrthonormalPair(lp, hp) && |x| % 2 == 0
    ensures |LowBand(x, lp)| == |HighBand(x, hp)|
    ensures Step(HighBand(x, hp), LowBand(x, lp), lp, hp) == x
  {
    var u, v := LowBand(x, lp), HighBand(x, hp);
    forall i | 0 <= i < |x| / 2
      ensures Step(v, u, lp, hp)[2 * i] == x[2 * i]
      ensures Step(v, u, lp, hp)[2 * i + 1] == x[2 * i + 1]
    {
      BandsAt(x, lp, hp, i);
      LevelSample(v, u, lp, hp, i, x[2 * i], x[2 * i + 1]);
    }
    forall n | 0 <= n < |x|
      ensures Step(v, u, lp, hp)[n] == x[n]
    {
      assert n == 2 * (n / 2) || n == 2 * (n / 2) + 1;
    }
  }

  /** Synthesis after analysis, with the same orthonormal pair, is the identity on 2^k samples. */
  lemma {:induction false} PerfectReconstruction(x: Signal, lp: Signal, hp: Signal, k: nat)
    requires OrthonormalPair(lp, hp) && |x| == Pow2(k)
    ensures Synthesis(Analysis(x, lp, hp), lp, hp) == Ok(x)
    decreases k
  {
    if k > 0 {
      var u, v := LowBand(x, lp), HighBand(x, hp);
      assert |v| == Pow2(k - 1);
      PerfectReconstruction(v, lp, hp, k - 1);
      assert Analysis(x, lp, hp) == [u] + Analysis(v, lp, hp);
      SynthesisCons(u, Analysis(v, lp, hp), lp, hp);
      LevelReconstruction(x, lp, hp);
    }
  }

  // ---------------------------------------------------------------------
  // The list of bands and the two loops

  /** The Python list that holds the bands; analysis appends to it and synthesis pops from it. */
  class BandList {
    var items: seq<Signal>

    constructor ()
      ensures items == []
    {
      items := [];
    }

    method Append(band: Signal)
      modifies this
      ensures items == old(items) + [band]
    {
      items := items + [band];
    }

    /** Removes and returns the last band; None where Python raises IndexError. */
    method Pop() returns (band: Option<Signal>)
      modifies this
      ensures old(items) == [] ==> band == None && items == []
      ensures old(items) != [] ==>
                band == Some(old(items)[|old(items)| - 1]) && items == old(items)[..|old(items)| - 1]
    {
      if items == [] {
        band := None;
      } else {
        band := Some(items[|items| - 1]);
        items := items[..|items| - 1];
      }
    }
  }

  /** wavelet_analysis: halves the working signal until it has at most one sample. */
  method WaveletAnalysis(signal: Signal, lpfilter: Signal, hpfilter: Signal)
    returns (filterbank: BandList)
    ensures fresh(filterbank)
    ensures filterbank.items == Analysis(signal, lpfilter, hpfilter)
  {
    filterbank := new BandList();
    var current := signal;
    while |current| > 1
      invariant fresh(filterbank)
      invariant filterbank.items + Analysis(current, lpfilter, hpfilter) ==
                Analysis(signal, lpfilter, hpfilter)
      decreases |current|
    {
      ghost var done := filterbank.items;
      var y := ConvT(current, lpfilter);
      y := Downsample(y);
      filterbank.Append(y);
      var z := ConvT(current, hpfilter);
      z := Downsample(z);
      assert Analysis(current, lpfilter, hpfilter) == [y] + Analysis(z, lpfilter, hpfilter);
      assert done + ([y] + Analysis(z, lpfilter, hpfilter)) ==
             (done + [y]) + Analysis(z, lpfilter, hpfilter);
      current := z;
    }
    filterbank.Append(current);
  }

  /**
   * wavelet_synthesis: pops the last band as the working signal, then pops
   * each remaining band and merges it in. The caller's list is consumed.
   */
  method WaveletSynthesis(bank: BandList, lpfilter: Signal, hpfilter: Signal)
    returns (r: Result<Signal>)
    modifies bank
    ensures r == Synthesis(old(bank.items), lpfilter, hpfilter)
    ensures r.Ok? ==> bank.items == []
    ensures |bank.items| <= |old(bank.items)|
    ensures bank.items == old(bank.items)[..|bank.items|]
  {
    ghost var bands := bank.items;
    var first := bank.Pop();
    if first.None? {
      return Err(EmptyList);
    }
    var current := first.value;
    while |bank.items| > 0
      invariant |bank.items| < |bands| && bank.items == bands[..|bank.items|]
      invariant SynthesisFrom(current, bank.items, lpfilter, hpfilter) ==
                Synthesis(bands, lpfilter, hpfilter)
      decreases |bank.items|
    {
      ghost var rest := bank.items;
      ghost var cur := current;
      current := Upsample(current);
      assert current == Up(cur);
      current := Conv(current, hpfilter);
      var c := bank.Pop();
      var band := c.value;
      var cu := Upsample(band);
      assert cu == Up(band);
      var cc := Conv(cu, lpfilter);
      if |current| != |cc| {
        return Err(LengthMismatch);
      }
      assert current == ConvSeq(Up(cur), hpfilter);
      assert cc == ConvSeq(Up(band), lpfilter);
      current := Add(current, cc);
      assert current == Step(cur, band, lpfilter, hpfilter);
      assert bank.items == rest[..|rest| - 1];
    }
    r := Ok(current);
  }
}
