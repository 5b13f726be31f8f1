/**
 * The one-dimensional FFT demonstrations: each builds a signal of N = 1024
 * samples made of three tones, transforms it with one of vDSP_fft_zrip,
 * vDSP_fft_zrop, vDSP_fft_zip and vDSP_fft_zop, builds the spectrum the tones
 * should give (zero everywhere except at the three tones' bins) and measures
 * how far the transform's result is from it.
 *
 * The samples (sums of cosines and sines) and the transforms' results are
 * parameters; the peaks' values N·cos(2πφ) and N·sin(2πφ) are too.  The bins
 * of the peaks, the sizes, the loops and the memory they touch are modelled.
 */
module FftDemo {
  import opened Vdsp

  /** Log2N and N: the transforms work on 2^10 elements. */
  const Log2N: nat := 10
  const N: nat := 1024

  lemma {:induction false} NIsPowerOfTwo()
    ensures Pow2(Log2N) == N
  {
  }

  // ---------------------------------------------------------------------------
  // Expected spectra
  // ---------------------------------------------------------------------------

  /** A tone of a test signal as it shows in the expected spectrum: its bin and the value there. */
  datatype Peak = Peak(bin: nat, re: real, im: real)

  /** The bins of the three tones of each demonstration: `(int) Frequency0`, `(int) Frequency1`, `(int) Frequency2`. */
  const ZripBins: seq<nat> := [79, 296, 143]
  const ZropBins: seq<nat> := [48, 243, 300]
  const ZipBins: seq<nat> := [400, 623, 931]
  const ZopBins: seq<nat> := [300, 450, 775]

  /** The peaks of a demonstration: its bins with the values (N·cos 2πφ, N·sin 2πφ) of its tones. */
  function Peaks(bins: seq<nat>, values: seq<(real, real)>): (ps: seq<Peak>)
    requires |bins| == |values|
    ensures |ps| == |bins| && forall j :: 0 <= j < |bins| ==> ps[j].bin == bins[j]
  {
    seq(|bins|, j requires 0 <= j < |bins| => Peak(bins[j], values[j].0, values[j].1))
  }

  /**
   * The value written last at bin k by writing the peaks in order, or None if
   * no peak falls there.
   */
  function PeakValue(peaks: seq<Peak>, k: nat): Option<(real, real)>
  {
    if peaks == [] then None
    else
      var last := peaks[|peaks| - 1];
      if last.bin == k then Some((last.re, last.im)) else PeakValue(peaks[..|peaks| - 1], k)
  }

  /** Bins of distinct peaks differ. */
  predicate DistinctBins(peaks: seq<Peak>)
  {
    forall i, j :: 0 <= i < j < |peaks| ==> peaks[i].bin != peaks[j].bin
  }

  /**
   * With distinct bins the order of the writes does not matter: the value at a
   * peak's bin is that peak's, and a bin no peak falls in holds none.
   */
  lemma {:induction false} PeakValueOfDistinct(peaks: seq<Peak>, k: nat)
    requires DistinctBins(peaks)
    ensures forall j :: 0 <= j < |peaks| && peaks[j].bin == k ==> PeakValue(peaks, k) == Some((peaks[j].re, peaks[j].im))
    ensures (forall j :: 0 <= j < |peaks| ==> peaks[j].bin != k) ==> PeakValue(peaks, k) == None
  {
    if peaks != [] {
      var init := peaks[..|peaks| - 1];
      PeakValueOfDistinct(init, k);
      forall j | 0 <= j < |peaks| - 1
        ensures init[j] == peaks[j]
      {
      }
    }
  }

  /** The value at bin k of three peaks written in order: the last write to k wins. */
  lemma {:induction false} PeakValueOfThree(peaks: seq<Peak>, k: nat)
    requires |peaks| == 3
    ensures PeakValue(peaks, k) ==
      if peaks[2].bin == k then Some((peaks[2].re, peaks[2].im))
      else if peaks[1].bin == k then Some((peaks[1].re, peaks[1].im))
      else if peaks[0].bin == k then Some((peaks[0].re, peaks[0].im))
      else None
  {
    var first2 := peaks[..2];
    var first1 := first2[..1];
    assert first2[1] == peaks[1] && first1 == [peaks[0]];
    assert PeakValue(first1, k) == if peaks[0].bin == k then Some((peaks[0].re, peaks[0].im)) else PeakValue([], k);
    assert PeakValue(first2, k) == if peaks[1].bin == k then Some((peaks[1].re, peaks[1].im)) else PeakValue(first1, k);
  }

  /**
   * One part (real or imaginary) of an expected spectrum of len elements held
   * in memory that held `prior`: the peaks' values at their bins, zero at the
   * other indices below zeroTo, and whatever was there before above it.
   */
  function ExpectedPart(prior: seq<Cell>, zeroTo: nat, peaks: seq<Peak>, imaginary: bool): (part: seq<Cell>)
    ensures |part| == |prior|
  {
    seq(|prior|, i requires 0 <= i < |prior| =>
      match PeakValue(peaks, i)
      case Some(v) => Def(if imaginary then v.1 else v.0)
      case None => if i < zeroTo then Def(0.0) else prior[i])
  }

  /** The values of a fully zeroed part: zero except at the peaks' bins. */
  function ExpectedValues(peaks: seq<Peak>, len: nat, imaginary: bool): (v: seq<real>)
    ensures |v| == len
  {
    seq(len, i requires 0 <= i < len =>
      match PeakValue(peaks, i)
      case Some(p) => if imaginary then p.1 else p.0
      case None => 0.0)
  }

  /**
   * A part zeroed over its whole length is defined everywhere, whatever the
   * memory held before, and holds the expected values.
   */
  lemma {:induction false} FullyZeroedPartIsDefined(prior: seq<Cell>, peaks: seq<Peak>, imaginary: bool)
    ensures ExpectedPart(prior, |prior|, peaks, imaginary) == Defs(ExpectedValues(peaks, |prior|, imaginary))
    ensures DefinedOn(ExpectedPart(prior, |prior|, peaks, imaginary), 0, |prior|)
  {
  }

  /**
   * The complex expected results as written zero only their first N/2
   * elements.  In freshly allocated memory, element N/2 = 512 of the real part
   * is then still undefined for the zip and zop peaks (no peak falls at 512),
   * so the N elements that CompareComplexVectors reads are not all defined.
   */
  lemma {:induction false} HalfZeroedExpectedIsUndefined(values: seq<(real, real)>)
    requires |values| == 3
    ensures var prior := seq(N, i => Undef);
      && ExpectedPart(prior, N / 2, Peaks(ZipBins, values), false)[N / 2] == Undef
      && ExpectedPart(prior, N / 2, Peaks(ZopBins, values), false)[N / 2] == Undef
      && !DefinedOn(ExpectedPart(prior, N / 2, Peaks(ZipBins, values), false), 0, N)
      && !DefinedOn(ExpectedPart(prior, N / 2, Peaks(ZopBins, values), false), 0, N)
  {
    PeakValueOfThree(Peaks(ZipBins, values), N / 2);
    PeakValueOfThree(Peaks(ZopBins, values), N / 2);
  }

  /**
   * The bins of every demonstration are distinct; those of the real
   * transforms lie below N/2, the packed spectrum's extent, and those of the
   * complex transforms below N.
   */
  lemma {:induction false} DemonstrationBins()
    ensures forall i, j :: 0 <= i < j < 3 ==> ZripBins[i] != ZripBins[j] && ZropBins[i] != ZropBins[j]
    ensures forall i, j :: 0 <= i < j < 3 ==> ZipBins[i] != ZipBins[j] && ZopBins[i] != ZopBins[j]
    ensures forall j :: 0 <= j < 3 ==> ZripBins[j] < N / 2 && ZropBins[j] < N / 2
    ensures forall j :: 0 <= j < 3 ==> ZipBins[j] < N && ZopBins[j] < N
  {
  }

  /**
   * Prepares the expected result of a real transform in one allocation of N
   * floats split as { M, M + N/2 }: zero both halves, then write each peak's
   * real part at realp[bin] and imaginary part at imagp[bin].
   */
  method InitPackedExpected(mem: array<Cell>, peaks: seq<Peak>)
    requires mem.Length == N && |peaks| == 3
    requires forall j :: 0 <= j < 3 ==> peaks[j].bin < N / 2
    modifies mem
    ensures mem[..N / 2] == Defs(ExpectedValues(peaks, N / 2, false))
    ensures mem[N / 2..] == Defs(ExpectedValues(peaks, N / 2, true))
  {
    ZeroSplit(mem);
    ghost var zeros := mem[..];
    mem[peaks[0].bin] := Def(peaks[0].re);
    mem[N / 2 + peaks[0].bin] := Def(peaks[0].im);
    mem[peaks[1].bin] := Def(peaks[1].re);
    mem[N / 2 + peaks[1].bin] := Def(peaks[1].im);
    mem[peaks[2].bin] := Def(peaks[2].re);
    mem[N / 2 + peaks[2].bin] := Def(peaks[2].im);
    assert mem[..] == PackedStores(zeros, peaks);
    PackedStoresAreExpected(zeros, peaks);
  }

  /** The memory after the six stores of the peaks into { M, M + N/2 }, in program order. */
  function PackedStores(m: seq<Cell>, peaks: seq<Peak>): (r: seq<Cell>)
    requires |m| == N && |peaks| == 3
    requires forall j :: 0 <= j < 3 ==> peaks[j].bin < N / 2
    ensures |r| == N
  {
    m[peaks[0].bin := Def(peaks[0].re)][N / 2 + peaks[0].bin := Def(peaks[0].im)]
     [peaks[1].bin := Def(peaks[1].re)][N / 2 + peaks[1].bin := Def(peaks[1].im)]
     [peaks[2].bin := Def(peaks[2].re)][N / 2 + peaks[2].bin := Def(peaks[2].im)]
  }

  /** Storing the peaks over zeroed memory leaves the expected values in both halves. */
  lemma {:induction false} PackedStoresAreExpected(zeros: seq<Cell>, peaks: seq<Peak>)
    requires |zeros| == N && AllZero(zeros) && |peaks| == 3
    requires forall j :: 0 <= j < 3 ==> peaks[j].bin < N / 2
    ensures PackedStores(zeros, peaks)[..N / 2] == Defs(ExpectedValues(peaks, N / 2, false))
    ensures PackedStores(zeros, peaks)[N / 2..] == Defs(ExpectedValues(peaks, N / 2, true))
  {
    var r := PackedStores(zeros, peaks);
    forall k | 0 <= k < N / 2
      ensures r[k] == Def(ExpectedValues(peaks, N / 2, false)[k])
      ensures r[N / 2 + k] == Def(ExpectedValues(peaks, N / 2, true)[k])
    {
      PeakValueOfThree(peaks, k);
    }
    assert forall k :: 0 <= k < N / 2 ==> r[N / 2..][k] == r[N / 2 + k];
  }

  /**
   * `for (i = 0; i < N/2; ++i) Expected.realp[i] = Expected.imagp[i] = 0;` on
   * { M, M + N/2 }: the two halves together are the whole allocation, so every
   * float becomes zero.
   */
  method ZeroSplit(mem: array<Cell>)
    requires mem.Length == N
    modifies mem
    ensures AllZero(mem[..])
  {
    var half := N / 2;
    for i := 0 to half
      invariant forall k :: 0 <= k < i ==> mem[k] == Def(0.0)
      invariant forall k :: half <= k < half + i ==> mem[k] == Def(0.0)
    {
      mem[i] := Def(0.0);
      mem[half + i] := Def(0.0);
    }
  }

  /**
   * Prepares the expected result of a complex transform in separate real and
   * imaginary arrays: zero the first zeroTo elements of both, then write the
   * peaks.  The program as written passes zeroTo = N/2; this model's
   * demonstrations pass N.
   */
  method InitComplexExpected(re: array<Cell>, im: array<Cell>, zeroTo: nat, peaks: seq<Peak>)
    requires re != im && re.Length == N && im.Length == N && zeroTo <= N && |peaks| == 3
    requires forall j :: 0 <= j < 3 ==> peaks[j].bin < N
    modifies re, im
    ensures re[..] == ExpectedPart(old(re[..]), zeroTo, peaks, false)
    ensures im[..] == ExpectedPart(old(im[..]), zeroTo, peaks, true)
  {
    ghost var priorRe, priorIm := re[..], im[..];
    for i := 0 to zeroTo
      invariant forall k :: 0 <= k < N ==> re[k] == (if k < i then Def(0.0) else priorRe[k])
      invariant forall k :: 0 <= k < N ==> im[k] == (if k < i then Def(0.0) else priorIm[k])
    {
      re[i] := Def(0.0);
      im[i] := Def(0.0);
    }
    re[peaks[0].bin] := Def(peaks[0].re);
    im[peaks[0].bin] := Def(peaks[0].im);
    re[peaks[1].bin] := Def(peaks[1].re);
    im[peaks[1].bin] := Def(peaks[1].im);
    re[peaks[2].bin] := Def(peaks[2].re);
    im[peaks[2].bin] := Def(peaks[2].im);

    forall k | 0 <= k < N
      ensures re[k] == ExpectedPart(priorRe, zeroTo, peaks, false)[k]
      ensures im[k] == ExpectedPart(priorIm, zeroTo, peaks, true)[k]
    {
      PeakValueOfThree(peaks, k);
    }
  }

  // ---------------------------------------------------------------------------
  // Comparing results
  // ---------------------------------------------------------------------------

  /** x², the term the comparison accumulates for each part. */
  function Square(x: real): real
  {
    x * x
  }

  /** The sum over i of re[i]² + im[i]². */
  function SquaredNorm(re: seq<real>, im: seq<real>): real
    requires |re| == |im|
  {
    if re == [] then 0.0
    else
      var n := |re| - 1;
      SquaredNorm(re[..n], im[..n]) + Square(re[n]) + Square(im[n])
  }

  /** Element-wise difference. */
  function Sub(a: seq<real>, b: seq<real>): (d: seq<real>)
    requires |a| == |b|
    ensures |d| == |a| && forall i :: 0 <= i < |a| ==> d[i] == a[i] - b[i]
  {
    seq(|a|, i requires 0 <= i < |a| => a[i] - b[i])
  }

  lemma {:induction false} SquaredNormNonNegative(re: seq<real>, im: seq<real>)
    requires |re| == |im|
    ensures SquaredNorm(re, im) >= 0.0
  {
    if re != [] {
      var n := |re| - 1;
      SquaredNormNonNegative(re[..n], im[..n]);
      SquarePositive(re[n]);
      SquarePositive(im[n]);
    }
  }

  /** The square of a positive number is positive. */
  lemma {:induction false} PositiveSquare(x: real)
    requires x > 0.0
    ensures Square(x) > 0.0
  {
    calc {
      Square(x);
    ==
      x * x;
    >
      0.0 * x;
    ==
      0.0;
    }
  }

  /** A square is non-negative, and zero only at zero. */
  lemma {:induction false} SquarePositive(x: real)
    ensures Square(x) >= 0.0
    ensures x != 0.0 ==> Square(x) > 0.0
  {
    if x > 0.0 {
      PositiveSquare(x);
    } else if x < 0.0 {
      PositiveSquare(-x);
      assert Square(x) == Square(-x);
    }
  }

  /** The squared norm vanishes exactly when every element is zero. */
  lemma {:induction false} SquaredNormZeroIff(re: seq<real>, im: seq<real>)
    requires |re| == |im|
    ensures SquaredNorm(re, im) == 0.0 <==> forall i :: 0 <= i < |re| ==> re[i] == 0.0 && im[i] == 0.0
  {
    if re != [] {
      var n := |re| - 1;
      SquaredNormZeroIff(re[..n], im[..n]);
      SquaredNormNonNegative(re[..n], im[..n]);
      SquarePositive(re[n]);
      SquarePositive(im[n]);
      if SquaredNorm(re, im) == 0.0 {
        assert Square(re[n]) == 0.0 && Square(im[n]) == 0.0;
        assert SquaredNorm(re[..n], im[..n]) == 0.0;
        forall i | 0 <= i < |re|
          ensures re[i] == 0.0 && im[i] == 0.0
        {
          if i < n {
            assert re[..n][i] == re[i] && im[..n][i] == im[i];
          }
        }
      }
      if forall i :: 0 <= i < |re| ==> re[i] == 0.0 && im[i] == 0.0 {
        assert forall i :: 0 <= i < n ==> re[..n][i] == 0.0 && im[..n][i] == 0.0;
        assert re[n] == 0.0 && im[n] == 0.0;
      }
    }
  }

  /**
   * The measure printed as the relative error, sqrt(Error / Magnitude), has
   * Error zero exactly when the observed result equals the expected one on
   * the compared elements.
   */
  lemma {:induction false} ErrorZeroIffEqual(eRe: seq<real>, eIm: seq<real>, oRe: seq<real>, oIm: seq<real>)
    requires |eRe| == |eIm| == |oRe| == |oIm|
    ensures SquaredNorm(Sub(eRe, oRe), Sub(eIm, oIm)) >= 0.0 && SquaredNorm(eRe, eIm) >= 0.0
    ensures SquaredNorm(Sub(eRe, oRe), Sub(eIm, oIm)) == 0.0 <==> eRe == oRe && eIm == oIm
  {
    SquaredNormNonNegative(Sub(eRe, oRe), Sub(eIm, oIm));
    SquaredNormNonNegative(eRe, eIm);
    SquaredNormZeroIff(Sub(eRe, oRe), Sub(eIm, oIm));
    if SquaredNorm(Sub(eRe, oRe), Sub(eIm, oIm)) == 0.0 {
      assert forall i :: 0 <= i < |eRe| ==> eRe[i] == oRe[i] && eIm[i] == oIm[i];
    }
  }

  /**
   * CompareComplexVectors: accumulate, over the first `length` elements, the
   * squared magnitude of the expected vector and the squared magnitude of the
   * difference.  (The program prints sqrt(Error / Magnitude).)
   */
  method CompareComplexVectors(expected: SplitComplex, observed: SplitComplex, length: nat)
    returns (error: real, magnitude: real)
    requires Readable(expected, length) && Readable(observed, length)
    ensures magnitude == SquaredNorm(RealParts(expected, length), ImagParts(expected, length))
    ensures error == SquaredNorm(
      Sub(RealParts(expected, length), RealParts(observed, length)),
      Sub(ImagParts(expected, length), ImagParts(observed, length)))
  {
    ghost var eRe, eIm := RealParts(expected, length), ImagParts(expected, length);
    ghost var dRe := Sub(eRe, RealParts(observed, length));
    ghost var dIm := Sub(eIm, ImagParts(observed, length));
    error, magnitude := 0.0, 0.0;
    for i := 0 to length
      invariant magnitude == SquaredNorm(eRe[..i], eIm[..i])
      invariant error == SquaredNorm(dRe[..i], dIm[..i])
    {
      var m, e := ElementTerms(expected, observed, length, i);
      magnitude := magnitude + m;
      error := error + e;
      SquaredNormSnoc(eRe, eIm, i);
      SquaredNormSnoc(dRe, dIm, i);
    }
    assert eRe[..length] == eRe && eIm[..length] == eIm;
    assert dRe[..length] == dRe && dIm[..length] == dIm;
  }

  /**
   * The body of the comparison loop at element i: the square of the expected
   * element's magnitude and the square of the error's magnitude.
   */
  method ElementTerms(expected: SplitComplex, observed: SplitComplex, length: nat, i: nat)
    returns (magnitude: real, error: real)
    requires Readable(expected, length) && Readable(observed, length) && i < length
    ensures magnitude == Square(RealParts(expected, length)[i]) + Square(ImagParts(expected, length)[i])
    ensures error == Square(Sub(RealParts(expected, length), RealParts(observed, length))[i])
                   + Square(Sub(ImagParts(expected, length), ImagParts(observed, length))[i])
  {
    PartsAt(expected, length, i);
    PartsAt(observed, length, i);
    // Accumulate square of magnitude of elements.
    var re := expected.realp[expected.realOffset + i].value;
    var im := expected.imagp[expected.imagOffset + i].value;
    magnitude := re * re + im * im;

    // Accumulate square of error.
    re := expected.realp[expected.realOffset + i].value - observed.realp[observed.realOffset + i].value;
    im := expected.imagp[expected.imagOffset + i].value - observed.imagp[observed.imagOffset + i].value;
    error := re * re + im * im;
  }

  /** Extending the prefix by one element adds that element's square. */
  lemma {:induction false} SquaredNormSnoc(re: seq<real>, im: seq<real>, i: nat)
    requires |re| == |im| && i < |re|
    ensures SquaredNorm(re[..i + 1], im[..i + 1]) == SquaredNorm(re[..i], im[..i]) + Square(re[i]) + Square(im[i])
  {
    assert re[..i + 1][..i] == re[..i] && im[..i + 1][..i] == im[..i];
  }

  // ---------------------------------------------------------------------------
  // Filling arrays
  // ---------------------------------------------------------------------------

  /** The signal-generating loop: element i gets sample i. */
  method Fill(a: array<Cell>, samples: seq<real>)
    requires a.Length == |samples|
    modifies a
    ensures a[..] == Defs(samples)
  {
    for i := 0 to a.Length
      invariant forall k :: 0 <= k < i ==> a[k] == Def(samples[k])
    {
      a[i] := Def(samples[i]);
    }
  }

  /** `for (i = 0; i < N; ++i) Signal[i] = 0;`: every element becomes zero. */
  method ZeroFill(a: array<Cell>)
    modifies a
    ensures forall k :: 0 <= k < a.Length ==> a[k] == Def(0.0)
  {
    for i := 0 to a.Length
      invariant forall k :: 0 <= k < i ==> a[k] == Def(0.0)
    {
      a[i] := Def(0.0);
    }
  }

  /** The complex signal-generating loop: element i of each part gets its sample i. */
  method FillParts(re: array<Cell>, im: array<Cell>, samplesRe: seq<real>, samplesIm: seq<real>)
    requires re != im && re.Length == |samplesRe| && im.Length == |samplesIm| && |samplesRe| == |samplesIm|
    modifies re, im
    ensures re[..] == Defs(samplesRe) && im[..] == Defs(samplesIm)
  {
    for i := 0 to re.Length
      invariant forall k :: 0 <= k < i ==> re[k] == Def(samplesRe[k]) && im[k] == Def(samplesIm[k])
    {
      re[i] := Def(samplesRe[i]);
      im[i] := Def(samplesIm[i]);
    }
  }

  /** `for (i = 0; i < N; ++i) Signal.realp[i] = Signal.imagp[i] = 0;` */
  method ZeroParts(re: array<Cell>, im: array<Cell>)
    requires re != im && re.Length == im.Length
    modifies re, im
    ensures AllZero(re[..]) && AllZero(im[..])
  {
    for i := 0 to re.Length
      invariant forall k :: 0 <= k < i ==> re[k] == Def(0.0) && im[k] == Def(0.0)
    {
      re[i] := Def(0.0);
      im[i] := Def(0.0);
    }
  }

  /** Every cell holds zero. */
  predicate AllZero(m: seq<Cell>)
  {
    forall k :: 0 <= k < |m| ==> m[k] == Def(0.0)
  }

  /**
   * The zeroing before the vDSP_fft_zrip timing loop as written clears Signal
   * only, while the loop transforms Observed in place, which still holds the
   * spectrum just computed.  Whenever that spectrum has a nonzero element the
   * timed transforms run on nonzero data, which the zeroing was meant to
   * prevent.
   */
  lemma {:induction false} ZripTimingInputNotZeroed(spectrum: seq<real>, k: nat)
    requires k < |spectrum| && spectrum[k] != 0.0
    ensures !AllZero(Defs(spectrum))
  {
    assert Defs(spectrum)[k] == Def(spectrum[k]);
  }

  /**
   * The zeroing before the vDSP_fft_zrip timing loop, clearing what the timed
   * transforms work on (Observed) as well as Signal.
   */
  method ZeroBeforeTiming(signal: array<Cell>, observed: array<Cell>)
    modifies signal, observed
    ensures AllZero(signal[..]) && AllZero(observed[..])
  {
    ZeroFill(signal);
    ZeroFill(observed);
  }

  // ---------------------------------------------------------------------------
  // The demonstrations
  // ---------------------------------------------------------------------------

  /** The result of comparing an observed spectrum with the expected one. */
  datatype Comparison = Comparison(error: real, magnitude: real)

  /** The comparison of a spectrum given by its real and imaginary parts with the expected values of the peaks. */
  function ComparisonOf(peaks: seq<Peak>, len: nat, obsRe: seq<real>, obsIm: seq<real>): Comparison
    requires |obsRe| == len && |obsIm| == len
  {
    var eRe, eIm := ExpectedValues(peaks, len, false), ExpectedValues(peaks, len, true);
    Comparison(SquaredNorm(Sub(eRe, obsRe), Sub(eIm, obsIm)), SquaredNorm(eRe, eIm))
  }

  /**
   * The observed parts agree with the peaks: each peak's value at its bin,
   * and zero at every bin no peak falls in.
   */
  predicate MatchesPeaks(peaks: seq<Peak>, len: nat, obsRe: seq<real>, obsIm: seq<real>)
    requires |obsRe| == len && |obsIm| == len
  {
    && (forall j :: 0 <= j < |peaks| && peaks[j].bin < len ==> obsRe[peaks[j].bin] == peaks[j].re && obsIm[peaks[j].bin] == peaks[j].im)
    && (forall k :: 0 <= k < len && PeakValue(peaks, k).None? ==> obsRe[k] == 0.0 && obsIm[k] == 0.0)
  }

  /**
   * The comparison is exact (error zero) precisely when the observed spectrum
   * is zero away from the peaks and holds each peak's value at its bin.
   */
  lemma {:induction false} ComparisonExactIff(peaks: seq<Peak>, len: nat, obsRe: seq<real>, obsIm: seq<real>)
    requires |obsRe| == len && |obsIm| == len && DistinctBins(peaks)
    ensures ComparisonOf(peaks, len, obsRe, obsIm).error >= 0.0
    ensures ComparisonOf(peaks, len, obsRe, obsIm).error == 0.0 <==> MatchesPeaks(peaks, len, obsRe, obsIm)
  {
    var eRe, eIm := ExpectedValues(peaks, len, false), ExpectedValues(peaks, len, true);
    ErrorZeroIffEqual(eRe, eIm, obsRe, obsIm);
    ExpectedMatchesIff(peaks, len, obsRe, obsIm);
  }

  /** The expected spectrum is the only one that matches the peaks. */
  lemma {:induction false} ExpectedMatchesIff(peaks: seq<Peak>, len: nat, obsRe: seq<real>, obsIm: seq<real>)
    requires |obsRe| == len && |obsIm| == len && DistinctBins(peaks)
    ensures MatchesPeaks(peaks, len, obsRe, obsIm) <==>
      obsRe == ExpectedValues(peaks, len, false) && obsIm == ExpectedValues(peaks, len, true)
  {
    var eRe, eIm := ExpectedValues(peaks, len, false), ExpectedValues(peaks, len, true);
    forall j | 0 <= j < |peaks| && peaks[j].bin < len
      ensures eRe[peaks[j].bin] == peaks[j].re && eIm[peaks[j].bin] == peaks[j].im
    {
      PeakValueOfDistinct(peaks, peaks[j].bin);
    }
    if MatchesPeaks(peaks, len, obsRe, obsIm) {
      forall k | 0 <= k < len
        ensures eRe[k] == obsRe[k] && eIm[k] == obsIm[k]
      {
        if PeakValue(peaks, k).Some? {
          PeakValueBin(peaks, k);
          var j :| 0 <= j < |peaks| && peaks[j].bin == k;
          PeakValueOfDistinct(peaks, k);
        }
      }
      assert eRe == obsRe && eIm == obsIm;
    }
  }

  /** A bin holds a value only if some peak falls in it. */
  lemma {:induction false} PeakValueBin(peaks: seq<Peak>, k: nat)
    requires PeakValue(peaks, k).Some?
    ensures exists j :: 0 <= j < |peaks| && peaks[j].bin == k
  {
    var n := |peaks| - 1;
    if peaks[n].bin != k {
      PeakValueBin(peaks[..n], k);
      var j :| 0 <= j < n && peaks[..n][j].bin == k;
      assert peaks[j].bin == k;
    }
  }

  /**
   * DemonstratevDSP_fft_zrip: the signal's samples are rearranged into
   * { M, M + N/2 } by vDSP_ctoz and transformed in place (result `spectrum`,
   * packed: real parts then imaginary parts of bins 0 … N/2 - 1, the Nyquist
   * bin's real part in imagp[0]); the first N/2 packed elements are compared
   * with the expected result.  Signal is then zeroed for timing, as written:
   * `zeroed` is Signal afterwards and `timed` is Observed, the buffer the
   * timing loop transforms, which still holds the spectrum.
   */
  method DemonstrateZrip(setup: FftSetup, samples: seq<real>, spectrum: seq<real>, values: seq<(real, real)>)
    returns (c: Comparison, zeroed: seq<Cell>, timed: seq<Cell>)
    requires Log2N <= setup.log2n && |samples| == N && |spectrum| == N && |values| == 3
    ensures c == ComparisonOf(Peaks(ZripBins, values), N / 2, spectrum[..N / 2], spectrum[N / 2..])
    ensures |zeroed| == N && AllZero(zeroed)
    ensures timed == Defs(spectrum)
  {
    var signal := Malloc(N);
    var observedMemory := Malloc(N);
    Fill(signal, samples);
    Ctoz(signal, observedMemory, N / 2);
    NIsPowerOfTwo();
    FftZrip(setup, observedMemory, Log2N, spectrum);

    var peaks := Peaks(ZripBins, values);
    DemonstrationBins();
    c := CompareWithPacked(observedMemory, peaks, spectrum);
    timed := observedMemory[..];

    ZeroFill(signal);
    zeroed := signal[..];
  }

  /**
   * The comparison step shared by the two real demonstrations: allocate the
   * expected result as { E, E + N/2 }, fill it from the peaks and compare the
   * first N/2 elements with the transform's packed output.
   */
  method CompareWithPacked(observedMemory: array<Cell>, peaks: seq<Peak>, spectrum: seq<real>) returns (c: Comparison)
    requires observedMemory.Length == N && |spectrum| == N && observedMemory[..] == Defs(spectrum)
    requires |peaks| == 3 && forall j :: 0 <= j < 3 ==> peaks[j].bin < N / 2
    ensures c == ComparisonOf(peaks, N / 2, spectrum[..N / 2], spectrum[N / 2..])
  {
    var expectedMemory := Malloc(N);
    InitPackedExpected(expectedMemory, peaks);
    var expected := SplitOf(expectedMemory);
    var observed := SplitOf(observedMemory);
    ghost var eRe, eIm := ExpectedValues(peaks, N / 2, false), ExpectedValues(peaks, N / 2, true);
    PackedParts(expectedMemory, eRe, eIm);
    assert observedMemory[..N / 2] == Defs(spectrum[..N / 2]) && observedMemory[N / 2..] == Defs(spectrum[N / 2..]);
    PackedParts(observedMemory, spectrum[..N / 2], spectrum[N / 2..]);
    var error, magnitude := CompareComplexVectors(expected, observed, N / 2);
    c := Comparison(error, magnitude);
  }

  /**
   * DemonstratevDSP_fft_zrop: the signal is rearranged into a buffer
   * { B, B + N/2 } by vDSP_ctoz and transformed out of place into Observed;
   * the first N/2 packed elements are compared with the expected result, and
   * Signal is zeroed for timing.
   */
  method DemonstrateZrop(setup: FftSetup, samples: seq<real>, spectrum: seq<real>, values: seq<(real, real)>)
    returns (c: Comparison)
    requires Log2N <= setup.log2n && |samples| == N && |spectrum| == N && |values| == 3
    ensures c == ComparisonOf(Peaks(ZropBins, values), N / 2, spectrum[..N / 2], spectrum[N / 2..])
  {
    var signal := Malloc(N);
    var bufferMemory := Malloc(N);
    var observedMemory := Malloc(N);
    Fill(signal, samples);
    Ctoz(signal, bufferMemory, N / 2);
    NIsPowerOfTwo();
    FftZrop(setup, bufferMemory, observedMemory, Log2N, spectrum);

    var peaks := Peaks(ZropBins, values);
    DemonstrationBins();
    c := CompareWithPacked(observedMemory, peaks, spectrum);

    ZeroFill(signal);
  }

  /**
   * The comparison step of the two complex demonstrations: allocate separate
   * real and imaginary expected arrays of N floats, zero them over all N
   * elements, write the peaks and compare all N elements with the observed
   * arrays.
   */
  method CompareWithSeparate(observedRe: array<Cell>, observedIm: array<Cell>, peaks: seq<Peak>,
                             outRe: seq<real>, outIm: seq<real>) returns (c: Comparison)
    requires observedRe[..] == Defs(outRe) && observedIm[..] == Defs(outIm) && |outRe| == N && |outIm| == N
    requires |peaks| == 3 && forall j :: 0 <= j < 3 ==> peaks[j].bin < N
    ensures c == ComparisonOf(peaks, N, outRe, outIm)
  {
    var expectedRe := Malloc(N);
    var expectedIm := Malloc(N);
    ghost var priorRe, priorIm := expectedRe[..], expectedIm[..];
    InitComplexExpected(expectedRe, expectedIm, N, peaks);
    FullyZeroedPartIsDefined(priorRe, peaks, false);
    FullyZeroedPartIsDefined(priorIm, peaks, true);
    SeparateParts(expectedRe, expectedIm, ExpectedValues(peaks, N, false), ExpectedValues(peaks, N, true));
    SeparateParts(observedRe, observedIm, outRe, outIm);
    var expected := SplitComplex(expectedRe, 0, expectedIm, 0);
    var observed := SplitComplex(observedRe, 0, observedIm, 0);
    var error, magnitude := CompareComplexVectors(expected, observed, N);
    c := Comparison(error, magnitude);
  }

  /**
   * DemonstratevDSP_fft_zip: a complex signal in separate real and imaginary
   * arrays is transformed in place (result outRe, outIm), all N elements are
   * compared with the expected result, and the signal is zeroed for timing.
   */
  method DemonstrateZip(setup: FftSetup, samplesRe: seq<real>, samplesIm: seq<real>,
                        outRe: seq<real>, outIm: seq<real>, values: seq<(real, real)>)
    returns (c: Comparison)
    requires Log2N <= setup.log2n && |samplesRe| == N && |samplesIm| == N
    requires |outRe| == N && |outIm| == N && |values| == 3
    ensures c == ComparisonOf(Peaks(ZipBins, values), N, outRe, outIm)
  {
    var signalRe := Malloc(N);
    var signalIm := Malloc(N);
    FillParts(signalRe, signalIm, samplesRe, samplesIm);
    NIsPowerOfTwo();
    FftZip(setup, signalRe, signalIm, Log2N, outRe, outIm);

    var peaks := Peaks(ZipBins, values);
    DemonstrationBins();
    c := CompareWithSeparate(signalRe, signalIm, peaks, outRe, outIm);

    ZeroParts(signalRe, signalIm);
  }

  /**
   * DemonstratevDSP_fft_zop: a complex signal is transformed out of place
   * into separate Observed arrays and all N elements are compared with the
   * expected result.
   */
  method DemonstrateZop(setup: FftSetup, samplesRe: seq<real>, samplesIm: seq<real>,
                        outRe: seq<real>, outIm: seq<real>, values: seq<(real, real)>)
    returns (c: Comparison)
    requires Log2N <= setup.log2n && |samplesRe| == N && |samplesIm| == N
    requires |outRe| == N && |outIm| == N && |values| == 3
    ensures c == ComparisonOf(Peaks(ZopBins, values), N, outRe, outIm)
  {
    var signalRe := Malloc(N);
    var signalIm := Malloc(N);
    var observedRe := Malloc(N);
    var observedIm := Malloc(N);
    FillParts(signalRe, signalIm, samplesRe, samplesIm);
    NIsPowerOfTwo();
    FftZop(setup, signalRe, signalIm, observedRe, observedIm, Log2N, outRe, outIm);

    var peaks := Peaks(ZopBins, values);
    DemonstrationBins();
    c := CompareWithSeparate(observedRe, observedIm, peaks, outRe, outIm);
  }

  /** What a real demonstration is given: its samples, the transform's output and its tones' values. */
  datatype RealRun = RealRun(samples: seq<real>, spectrum: seq<real>, values: seq<(real, real)>)

  /** What a complex demonstration is given. */
  datatype ComplexRun = ComplexRun(samplesRe: seq<real>, samplesIm: seq<real>,
                                   outRe: seq<real>, outIm: seq<real>, values: seq<(real, real)>)

  predicate RealRunSized(r: RealRun)
  {
    |r.samples| == N && |r.spectrum| == N && |r.values| == 3
  }

  predicate ComplexRunSized(r: ComplexRun)
  {
    |r.samplesRe| == N && |r.samplesIm| == N && |r.outRe| == N && |r.outIm| == N && |r.values| == 3
  }

  /**
   * DemonstrateFFT: create a setup for 2^10-element transforms and run the
   * four demonstrations in order, each measured against its own peaks.
   */
  method DemonstrateFFT(zrip: RealRun, zrop: RealRun, zip: ComplexRun, zop: ComplexRun)
    returns (results: seq<Comparison>)
    requires RealRunSized(zrip) && RealRunSized(zrop) && ComplexRunSized(zip) && ComplexRunSized(zop)
    ensures |results| == 4
    ensures results[0] == ComparisonOf(Peaks(ZripBins, zrip.values), N / 2, zrip.spectrum[..N / 2], zrip.spectrum[N / 2..])
    ensures results[1] == ComparisonOf(Peaks(ZropBins, zrop.values), N / 2, zrop.spectrum[..N / 2], zrop.spectrum[N / 2..])
    ensures results[2] == ComparisonOf(Peaks(ZipBins, zip.values), N, zip.outRe, zip.outIm)
    ensures results[3] == ComparisonOf(Peaks(ZopBins, zop.values), N, zop.outRe, zop.outIm)
  {
    var setup := FftSetup(Log2N);
    var c0, _, _ := DemonstrateZrip(setup, zrip.samples, zrip.spectrum, zrip.values);
    var c1 := DemonstrateZrop(setup, zrop.samples, zrop.spectrum, zrop.values);
    var c2 := DemonstrateZip(setup, zip.samplesRe, zip.samplesIm, zip.outRe, zip.outIm, zip.values);
    var c3 := DemonstrateZop(setup, zop.samplesRe, zop.samplesIm, zop.outRe, zop.outIm, zop.values);
    results := [c0, c1, c2, c3];
  }

  /**
   * Every demonstration's comparison is exact precisely when its transform
   * put each tone's value at the tone's bin and zero everywhere else.
   */
  lemma {:induction false} DemonstrationsExactIff(values: seq<(real, real)>, spectrum: seq<real>, outRe: seq<real>, outIm: seq<real>)
    requires |values| == 3 && |spectrum| == N && |outRe| == N && |outIm| == N
    ensures ComparisonOf(Peaks(ZripBins, values), N / 2, spectrum[..N / 2], spectrum[N / 2..]).error == 0.0
      <==> MatchesPeaks(Peaks(ZripBins, values), N / 2, spectrum[..N / 2], spectrum[N / 2..])
    ensures ComparisonOf(Peaks(ZropBins, values), N / 2, spectrum[..N / 2], spectrum[N / 2..]).error == 0.0
      <==> MatchesPeaks(Peaks(ZropBins, values), N / 2, spectrum[..N / 2], spectrum[N / 2..])
    ensures ComparisonOf(Peaks(ZipBins, values), N, outRe, outIm).error == 0.0
      <==> MatchesPeaks(Peaks(ZipBins, values), N, outRe, outIm)
    ensures ComparisonOf(Peaks(ZopBins, values), N, outRe, outIm).error == 0.0
      <==> MatchesPeaks(Peaks(ZopBins, values), N, outRe, outIm)
  {
    DemonstrationBins();
    ComparisonExactIff(Peaks(ZripBins, values), N / 2, spectrum[..N / 2], spectrum[N / 2..]);
    ComparisonExactIff(Peaks(ZropBins, values), N / 2, spectrum[..N / 2], spectrum[N / 2..]);
    ComparisonExactIff(Peaks(ZipBins, values), N, outRe, outIm);
    ComparisonExactIff(Peaks(ZopBins, values), N, outRe, outIm);
  }
}
