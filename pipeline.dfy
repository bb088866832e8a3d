/**
 * The transform between reading and writing the audio file: pad, analyse with
 * one filter pair, synthesise with another, depad.
 */
module Pipeline {
  import opened Samples
  import opened Cascade
  import opened Padding

  /**
   * The main block without its file I/O: the filter pairs (c, d) and (c0, d0)
   * are the analysis and synthesis filters. Every non-empty signal comes back
   * with its own length; with the same orthonormal pair on both sides it comes
   * back unchanged.
   */
  method TransformSignal(z: Signal, c: Signal, d: Signal, c0: Signal, d0: Signal)
    returns (r: Result<Signal>)
    ensures |z| == 0 ==> r == Err(EmptySignal)
    ensures |z| >= 1 ==> r.Ok? && |r.value| == |z|
    ensures |z| >= 1 && OrthonormalPair(c, d) && c0 == c && d0 == d ==> r == Ok(z)
  {
    var pad := new PadState();
    var z0 := pad.PadArray(z);
    if z0.Err? {
      return z0;
    }
    var padded := z0.value;
    ghost var k := FloorLog2(|padded|);
    assert |padded| == Pow2(k) by {
      if IsPow2(|z|) {
        IsPow2Exact(|z|);
      } else {
        NextPow2Least(|z|, 0);
        IsPow2Exact(|padded|);
      }
    }
    assert padded[..|z|] == z;
    var z1 := WaveletAnalysis(padded, c, d);
    var z2 := WaveletSynthesis(z1, c0, d0);
    AnalysisSynthesisLength(padded, c, d, c0, d0, k);
    if OrthonormalPair(c, d) && c0 == c && d0 == d {
      PerfectReconstruction(padded, c, d, k);
    }
    var z3 := pad.DepadArray(z2.value);
    r := Ok(z3);
  }
}
