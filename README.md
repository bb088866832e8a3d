# Two-channel wavelet filter bank

A Dafny model of the numeric core of `wavelet_basis.py`. The program reads a
mono WAV file into an array of samples. It pads the array with zeros to a
power-of-two length and analyses it into a cascade of wavelet bands with one
two-tap filter pair. It then synthesises the signal back with a second filter
pair, trims the padding and writes the result out.

The model covers everything between reading and writing the file:

- `Convolution` holds `conv` and `convT` as loops over an array. They are
  proved equal to value-level definitions, and the two are proved transposes
  of each other.
- `Resample` holds `downsample` and `upsample`. Decimation is proved to undo
  zero-stuffing.
- `Cascade` holds `wavelet_analysis` and `wavelet_synthesis`. Their loops work
  on a `BandList`, which models the Python list they append to and pop from.
  The lemmas prove these facts:
  - the shape of the cascade;
  - that synthesis always succeeds on that shape and gives back a signal of
    the original length;
  - that synthesis after analysis with the same orthonormal pair
    `[a, b], [b, -a]` (a² + b² = 1) is the identity. This is the filter pair
    the main block builds with `normalize` and `scipy.signal.qmf`.
- `Padding` holds `pad_array` and `depad_array`. The global `pad_amount` is a
  field of a `PadState` object with initial value 0.
- `Pipeline` chains the core the way the main block does.

Samples are exact reals. Each Python exception becomes an `Err` value of a
`Result`:

- `EmptySignal`: `pad_array` of an empty array takes `log2(0)`, and `int` of
  the resulting infinity raises.
- `EmptyList`: `pop` from an empty list raises.
- `LengthMismatch`: numpy raises when it adds arrays of different lengths.
  Both operands always have even length, so broadcasting never applies.

Two places where the docstrings and the code differ. The model follows the
code in both:

- `pad_array` on a power-of-two length returns the array and leaves
  `pad_amount` as it was. So after an earlier call that padded, `depad_array`
  removes samples this call never inserted, contrary to its docstring,
  which says it removes only the zeros `pad_array` inserted. `pad_array` of an
  empty array raises instead of extending it.
- The docstring of `wavelet_analysis` promises bands whose lengths are powers
  of two. That holds for inputs of length 2^k, and of length 2^k - 1 with
  k ≥ 2, since the first halving rounds up (`AnalysisShapeOneShort`). For
  other lengths, such as 5 or 6, some bands have rounded-up half lengths such
  as 3. Every non-empty input still ends in a single-sample band
  (`AnalysisLastBand`); an empty input is its own one-band cascade `[[]]`.

## Model

| member | source | states |
|---|---|---|
| Convolution.Conv | wavelet_basis.py:21-34 | the loop's output is the causal convolution: output n is the sum over taps j ≤ min(n, len(c)-1) of c[j]·x[n-j], and it has len(x) samples |
| Convolution.ConvT | wavelet_basis.py:36-50 | the loop's output is the transposed filter: output n is the sum over k from n to min(n+len(c), len(x))-1 of x[k]·c[k-n], and it has len(x) samples |
| Convolution.ConvFirst | wavelet_basis.py:29-33 | the first conv output sees only the first sample: c[0]·x[0] |
| Convolution.ConvTLast | wavelet_basis.py:45-49 | the last convT output sees only the last sample: x[N-1]·c[0] |
| Convolution.ConvTIsTranspose | wavelet_basis.py:36-50 | for every filter c, ⟨conv(x,c), z⟩ = ⟨x, convT(z,c)⟩: convT is the transpose of conv, as its docstring claims |
| Resample.Downsample | wavelet_basis.py:62-72 | the output has ⌈len(x)/2⌉ samples, and sample i is x[2i] |
| Resample.Upsample | wavelet_basis.py:74-84 | the output has 2·len(x) samples, x[i] at 2i and 0 at the odd positions |
| Resample.DownUp | wavelet_basis.py:62-84 | downsample(upsample(x)) = x for every x |
| Cascade.BandList.Append | wavelet_basis.py:97 | the list gains the band at its end and is otherwise unchanged |
| Cascade.BandList.Pop | wavelet_basis.py:110 | a non-empty list loses its last band and returns it; an empty one returns None, which stands for IndexError |
| Cascade.WaveletAnalysis | wavelet_basis.py:86-102 | returns a fresh list equal to the recursive cascade `Analysis`: one low-pass band per level while the working signal is longer than 1, then the final working signal |
| Cascade.CurrentStep | wavelet_basis.py:98-100 | the working signal after i + 1 levels is downsample(convT(·, hp)) of the working signal after i levels |
| Cascade.AnalysisBands | wavelet_basis.py:92-101 | band i is downsample(convT(·, lp)) of the working signal after i high-pass levels; the last band is the working signal once it has at most one sample |
| Cascade.AnalysisLastBand | wavelet_basis.py:94-101 | a non-empty signal's cascade ends in a band of exactly one sample; a signal of at most one sample is its own one-band cascade |
| Cascade.AnalysisShape | wavelet_basis.py:86-102 | a signal of 2^k samples gives k+1 bands; band i has 2^(k-1-i) samples for i < k, and the last band has 1 |
| Cascade.AnalysisShapeOneShort | wavelet_basis.py:67 | a signal of 2^k - 1 samples, k ≥ 2, gets the same shape as one of 2^k samples, because the first halving rounds (len+1)/2 up to 2^(k-1) |
| Cascade.WaveletSynthesis | wavelet_basis.py:104-118 | the result is `Synthesis` of the list as passed in. An empty list gives EmptyList, and a band whose length differs from the working signal gives LengthMismatch. On success the caller's list is left empty, and in every case it is left a prefix of what it was |
| Cascade.SynthesisCons | wavelet_basis.py:109-117 | synthesising [band] + bank synthesises bank first and then merges band in as one more level, or fails on a length mismatch |
| Cascade.SynthesisShape | wavelet_basis.py:104-118 | every list with the cascade shape for k synthesises without error to 2^k samples, whatever the filters |
| Cascade.AnalysisSynthesisLength | wavelet_basis.py:86-118 | with any two filter pairs, analysis followed by synthesis of 2^k samples succeeds and keeps the length |
| Cascade.LevelReconstruction | wavelet_basis.py:95-117 | for an orthonormal pair [a,b],[b,-a], one synthesis level undoes one analysis level of an even-length signal |
| Cascade.PerfectReconstruction | wavelet_basis.py:86-118 | for an orthonormal pair, synthesis after analysis returns exactly the 2^k-sample input |
| Padding.FloorLog2 | wavelet_basis.py:125-128 | int(log2(n)) is the e with 2^e ≤ n < 2^(e+1) |
| Padding.IsPow2Exact | wavelet_basis.py:125-127 | the test `e - int(e) == 0` holds exactly when n = 2^int(log2 n) |
| Padding.NextPow2Least | wavelet_basis.py:128 | 2^(int(log2 n)+1) is a power of two above n and is at most every power of two above n |
| Padding.PadState.constructor | wavelet_basis.py:19 | pad_amount starts at 0 |
| Padding.PadState.PadArray | wavelet_basis.py:120-133 | empty input gives EmptySignal. A power-of-two length is returned as it is and pad_amount is left alone. Otherwise the result has the next power of two as its length, begins with x and ends in zeros, and pad_amount is the number of zeros added |
| Padding.Depad | wavelet_basis.py:187-192 | x[0 : len(x) - amount] under Python's slice rules: always a prefix of x; len(x) - amount samples when amount ≤ len(x); 2·len(x) - amount when the negative bound wraps once; empty beyond that |
| Padding.PadState.DepadArray | wavelet_basis.py:187-192 | drops the last pad_amount samples as the slice does: the result is always a prefix of x, and it has len(x) - pad_amount samples when pad_amount ≤ len(x) |
| Padding.PadThenDepad | wavelet_basis.py:187-192 | starting from pad_amount = 0, depad_array(pad_array(x)) returns every non-empty x unchanged; an empty x is EmptySignal |
| Padding.DepadPadded | wavelet_basis.py:187-192 | depadding by the number of zeros that were appended gives the original signal back |
| Pipeline.TransformSignal | wavelet_basis.py:208-214 | an empty signal gives EmptySignal. Every other signal comes back with its own length after pad, analysis, synthesis and depad, whatever the filters. With the same orthonormal pair on both sides it comes back unchanged |

## Left out

- `wav_get_settings`, `wav_to_array` and `array_to_wav` (wavelet_basis.py:135-185): file I/O. The transform takes and returns the sample sequence, and the sample width and rate are not modelled. So the sample-format globals `samp_width` and `samp_rate`, which only the WAV functions read, and the unused `struct_symbol` are not modelled either.
- Command-line parsing in the main block (wavelet_basis.py:194-206) is I/O. The four filters are parameters of `Pipeline.TransformSignal`.
- `normalize` (wavelet_basis.py:52-60) needs a square root, and `scipy.signal.qmf` is a library call. The filters they produce are taken as given. `Cascade.OrthonormalPair` states the property the reconstruction needs: unit norm, with the high-pass filter [b, -a] that `qmf` gives for [a, b].
- Floating point: samples and filters are exact reals, so rounding errors are not modelled. `np.log2` with the `e - int(e) == 0.0` test is replaced by exact integer versions (`IsPow2`, `FloorLog2`). These compute what the floating-point test is meant to compute.
- Integer PCM samples: the array read from the file holds integers. Here it is a sequence of reals.
- `np.arange` placeholder contents: `conv` and `convT` start from a buffer that holds 0..N-1. In the model the buffer starts with arbitrary contents, and the loop invariants show that every slot is written before it is read.
- `conv` and `convT` create their buffers with `dtype = np.float`, an alias that NumPy 1.24 removed. The model assumes a NumPy that still has it; on a current NumPy both functions raise AttributeError before computing anything.
- Exceptions: each is a returned `Err` value rather than a raised exception, as listed above.
- Cascade.WaveletSynthesis: when it returns an error, it states only that the caller's list is left a prefix of what it was, not how many bands remain.
- `pad_amount` is a process-wide global. `Pipeline.TransformSignal` creates a fresh `PadState`, which matches the single run the main block makes.
