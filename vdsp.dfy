/**
 * Heap memory, split-complex views and the vDSP library routines that the
 * demonstrations call.
 *
 * The vDSP library itself is not part of this model.  Each routine is a method
 * whose contract gives the lengths it needs, what it reads (every value it reads
 * must have been stored before), and what it may overwrite.  The numbers a
 * transform or a convolution produces are a parameter of the method: the model
 * records where they go, not how they are computed.
 */
module Vdsp {

  /** One float of heap memory.  `malloc` leaves it `Undef`; a store makes it `Def`. */
  datatype Cell = Undef | Def(value: real)

  /** A value that may be absent. */
  datatype Option<T> = None | Some(value: T)

  /** 2^k, the element count that a base-two logarithm stands for. */
  function Pow2(k: nat): (r: nat)
    ensures r >= 1
  {
    if k == 0 then 1 else 2 * Pow2(k - 1)
  }

  /** Every cell of m in [lo, hi) holds a stored value. */
  predicate DefinedOn(m: seq<Cell>, lo: int, hi: int)
  {
    0 <= lo <= hi <= |m| && forall i :: lo <= i < hi ==> m[i].Def?
  }

  /** The cells that hold the values v. */
  function Defs(v: seq<real>): (m: seq<Cell>)
    ensures |m| == |v| && forall i :: 0 <= i < |v| ==> m[i] == Def(v[i])
  {
    seq(|v|, i requires 0 <= i < |v| => Def(v[i]))
  }

  /** `n` cells of uninitialised storage, as `malloc` returns them. */
  method Malloc(n: nat) returns (m: array<Cell>)
    ensures fresh(m) && m.Length == n
    ensures forall i :: 0 <= i < n ==> m[i] == Undef
  {
    m := new Cell[n](_ => Undef);
  }

  // ---------------------------------------------------------------------------
  // Split-complex views (DSPSplitComplex)
  // ---------------------------------------------------------------------------

  /**
   * A DSPSplitComplex: element i has its real part at realp[realOffset + i]
   * and its imaginary part at imagp[imagOffset + i].  The two pointers may
   * point into the same allocation.
   */
  datatype SplitComplex = SplitComplex(realp: array<Cell>, realOffset: nat, imagp: array<Cell>, imagOffset: nat)

  /** `{ M, M + Length/2 }`: both halves of one allocation. */
  function SplitOf(m: array<Cell>): SplitComplex
  {
    SplitComplex(m, 0, m, m.Length / 2)
  }

  /** The allocation offset of realp[i]. */
  function RealSlot(s: SplitComplex, i: int): int
  {
    s.realOffset + i
  }

  /** The allocation offset of imagp[i]. */
  function ImagSlot(s: SplitComplex, i: int): int
  {
    s.imagOffset + i
  }

  /** k is the offset of one of the floats of allocation m. */
  predicate InAllocation(m: array<Cell>, k: int)
  {
    0 <= k < m.Length
  }

  /**
   * Splitting an allocation of an even number n of floats as `{ M, M + n/2 }`
   * gives two halves of n/2 slots that stay inside the allocation, do not
   * overlap, and together cover every one of its n floats.
   */
  lemma {:induction false} SingleAllocationPartition(m: array<Cell>)
    requires m.Length % 2 == 0
    ensures forall i :: 0 <= i < m.Length / 2 ==>
              0 <= RealSlot(SplitOf(m), i) < m.Length && 0 <= ImagSlot(SplitOf(m), i) < m.Length
    ensures forall i, j :: 0 <= i < m.Length / 2 && 0 <= j < m.Length / 2 ==>
              RealSlot(SplitOf(m), i) != ImagSlot(SplitOf(m), j)
    ensures forall k :: InAllocation(m, k) ==>
              exists i :: 0 <= i < m.Length / 2 && (RealSlot(SplitOf(m), i) == k || ImagSlot(SplitOf(m), i) == k)
  {
    var half := m.Length / 2;
    var s := SplitOf(m);
    forall k | InAllocation(m, k)
      ensures exists i :: 0 <= i < half && (RealSlot(s, i) == k || ImagSlot(s, i) == k)
    {
      if k < half {
        assert RealSlot(s, k) == k;
      } else {
        assert ImagSlot(s, k - half) == k;
      }
    }
  }

  /** Elements [0, len) of both parts of s are inside their allocations and stored. */
  predicate Readable(s: SplitComplex, len: nat)
    reads s.realp, s.imagp
  {
    && DefinedOn(s.realp[..], s.realOffset, s.realOffset + len)
    && DefinedOn(s.imagp[..], s.imagOffset, s.imagOffset + len)
  }

  /** The values stored in cells that all hold one. */
  function Values(m: seq<Cell>): (v: seq<real>)
    requires DefinedOn(m, 0, |m|)
    ensures |v| == |m| && forall i :: 0 <= i < |m| ==> v[i] == m[i].value
  {
    seq(|m|, i requires 0 <= i < |m| && DefinedOn(m, 0, |m|) => m[i].value)
  }

  /** realp[0..len) of s as values. */
  function RealParts(s: SplitComplex, len: nat): (v: seq<real>)
    requires Readable(s, len)
    reads s.realp, s.imagp
    ensures |v| == len
  {
    Values(s.realp[s.realOffset..s.realOffset + len])
  }

  /** imagp[0..len) of s as values. */
  function ImagParts(s: SplitComplex, len: nat): (v: seq<real>)
    requires Readable(s, len)
    reads s.realp, s.imagp
    ensures |v| == len
  {
    Values(s.imagp[s.imagOffset..s.imagOffset + len])
  }

  /** Element i of the parts is the value stored in slot i. */
  lemma {:induction false} PartsAt(s: SplitComplex, len: nat, i: nat)
    requires Readable(s, len) && i < len
    ensures RealParts(s, len)[i] == s.realp[s.realOffset + i].value
    ensures ImagParts(s, len)[i] == s.imagp[s.imagOffset + i].value
  {
    assert s.realp[s.realOffset..s.realOffset + len][i] == s.realp[s.realOffset + i];
    assert s.imagp[s.imagOffset..s.imagOffset + len][i] == s.imagp[s.imagOffset + i];
  }

  /**
   * One allocation split as { M, M + n/2 } whose halves store re and im reads
   * back as re (real parts) and im (imaginary parts).
   */
  lemma {:induction false} PackedParts(m: array<Cell>, re: seq<real>, im: seq<real>)
    requires |re| == |im| && m.Length == |re| + |im|
    requires m[..|re|] == Defs(re) && m[|re|..] == Defs(im)
    ensures Readable(SplitOf(m), |re|)
    ensures RealParts(SplitOf(m), |re|) == re && ImagParts(SplitOf(m), |re|) == im
  {
    var h := |re|;
    assert forall i :: 0 <= i < h ==> m[..h][i] == m[i] && m[h..][i] == m[h + i];
  }

  /** Separate real and imaginary arrays storing re and im read back as re and im. */
  lemma {:induction false} SeparateParts(realp: array<Cell>, imagp: array<Cell>, re: seq<real>, im: seq<real>)
    requires realp[..] == Defs(re) && imagp[..] == Defs(im) && |re| == |im|
    ensures Readable(SplitComplex(realp, 0, imagp, 0), |re|)
    ensures RealParts(SplitComplex(realp, 0, imagp, 0), |re|) == re
    ensures ImagParts(SplitComplex(realp, 0, imagp, 0), |re|) == im
  {
    assert forall i :: 0 <= i < |re| ==> realp[..][i] == realp[i] && imagp[..][i] == imagp[i];
  }

  // ---------------------------------------------------------------------------
  // Even/odd packing (vDSP_ctoz and vDSP_ztoc with a source stride of two floats)
  // ---------------------------------------------------------------------------

  /**
   * The split layout of an interleaved vector s of 2h floats in one
   * allocation of 2h floats: the even-indexed floats go to the real half
   * [0, h), the odd-indexed ones to the imaginary half [h, 2h).
   */
  function Deinterleave<T>(s: seq<T>): (m: seq<T>)
    requires |s| % 2 == 0
    ensures |m| == |s|
    ensures forall i :: 0 <= i < |s| / 2 ==> m[i] == s[2 * i] && m[|s| / 2 + i] == s[2 * i + 1]
  {
    var h := |s| / 2;
    seq(|s|, k requires 0 <= k < |s| => if k < h then s[2 * k] else s[2 * (k - h) + 1])
  }

  /** The interleaved vector whose float 2i is realp[i] and float 2i+1 is imagp[i]. */
  function Interleave<T>(m: seq<T>): (s: seq<T>)
    requires |m| % 2 == 0
    ensures |s| == |m|
  {
    var h := |m| / 2;
    seq(|m|, k requires 0 <= k < |m| => if k % 2 == 0 then m[k / 2] else m[h + k / 2])
  }

  /** Unpacking a packed vector gives the original interleaved vector back. */
  lemma {:induction false} InterleaveDeinterleave<T>(s: seq<T>)
    requires |s| % 2 == 0
    ensures Interleave(Deinterleave(s)) == s
  {
    var h := |s| / 2;
    var d := Deinterleave(s);
    forall k | 0 <= k < |s|
      ensures Interleave(d)[k] == s[k]
    {
      if k % 2 == 0 {
        assert d[k / 2] == s[2 * (k / 2)];
      } else {
        assert d[h + k / 2] == s[2 * (k / 2) + 1];
      }
    }
  }

  /** Packing an unpacked vector gives the original split vector back. */
  lemma {:induction false} DeinterleaveInterleave<T>(m: seq<T>)
    requires |m| % 2 == 0
    ensures Deinterleave(Interleave(m)) == m
  {
    var h := |m| / 2;
    var s := Interleave(m);
    forall k | 0 <= k < |m|
      ensures Deinterleave(s)[k] == m[k]
    {
      if k < h {
        assert s[2 * k] == m[(2 * k) / 2];
      } else {
        assert s[2 * (k - h) + 1] == m[h + (2 * (k - h) + 1) / 2];
      }
    }
  }

  /**
   * vDSP_ctoz((DSPComplex *) src, 2, &{dst, dst + count}, 1, count): copies the
   * first 2·count floats of src into the split view of dst, even-indexed floats
   * to the real half and odd-indexed floats to the imaginary half.
   */
  method Ctoz(src: array<Cell>, dst: array<Cell>, count: nat)
    requires src != dst
    requires 2 * count <= src.Length && dst.Length == 2 * count
    requires DefinedOn(src[..], 0, 2 * count)
    modifies dst
    ensures dst[..] == Deinterleave(src[..2 * count])
    ensures DefinedOn(dst[..], 0, dst.Length)
  {
    forall k | 0 <= k < dst.Length {
      dst[k] := Deinterleave(src[..2 * count])[k];
    }
  }

  /**
   * vDSP_ztoc(&{src, src + count}, 1, (DSPComplex *) dst, 2, count): the inverse
   * of Ctoz; writes the first 2·count floats of dst and nothing else.
   */
  method Ztoc(src: array<Cell>, dst: array<Cell>, count: nat)
    requires src != dst
    requires src.Length == 2 * count && 2 * count <= dst.Length
    requires DefinedOn(src[..], 0, src.Length)
    modifies dst
    ensures dst[..2 * count] == Interleave(src[..])
    ensures dst[2 * count..] == old(dst[2 * count..])
  {
    forall k | 0 <= k < 2 * count {
      dst[k] := Interleave(src[..])[k];
    }
  }

  // ---------------------------------------------------------------------------
  // FFT setup and transforms
  // ---------------------------------------------------------------------------

  /** An FFTSetup made by vDSP_create_fftsetup(log2n, FFT_RADIX2): good for transforms of up to 2^log2n elements. */
  datatype FftSetup = FftSetup(log2n: nat)

  /**
   * vDSP_fft_zrip(setup, &{m, m + n/2}, 1, log2n, FFT_FORWARD) with n = 2^log2n:
   * the in-place real-to-complex FFT of the n real samples packed in m.  It
   * leaves the packed spectrum (n/2 slots per half) in m; `spectrum` is that
   * result, which this model does not compute.
   */
  method FftZrip(setup: FftSetup, m: array<Cell>, log2n: nat, spectrum: seq<real>)
    requires 1 <= log2n <= setup.log2n
    requires m.Length == Pow2(log2n) && DefinedOn(m[..], 0, m.Length)
    requires |spectrum| == m.Length
    modifies m
    ensures m[..] == Defs(spectrum)
  {
    forall i | 0 <= i < m.Length {
      m[i] := Def(spectrum[i]);
    }
  }

  /**
   * vDSP_fft_zrop(setup, &{input...}, 1, &{output...}, 1, log2n, FFT_FORWARD):
   * the out-of-place real-to-complex FFT.  It writes output only.
   */
  method FftZrop(setup: FftSetup, input: array<Cell>, output: array<Cell>, log2n: nat, spectrum: seq<real>)
    requires input != output
    requires 1 <= log2n <= setup.log2n
    requires input.Length == Pow2(log2n) && DefinedOn(input[..], 0, input.Length)
    requires output.Length == Pow2(log2n) && |spectrum| == output.Length
    modifies output
    ensures output[..] == Defs(spectrum)
    ensures input[..] == old(input[..])
  {
    forall i | 0 <= i < output.Length {
      output[i] := Def(spectrum[i]);
    }
  }

  /**
   * vDSP_fft_zip(setup, &{re, im}, 1, log2n, FFT_FORWARD): the in-place complex
   * FFT of 2^log2n elements held in two separate allocations.
   */
  method FftZip(setup: FftSetup, re: array<Cell>, im: array<Cell>, log2n: nat, outRe: seq<real>, outIm: seq<real>)
    requires re != im
    requires log2n <= setup.log2n
    requires re.Length == Pow2(log2n) && im.Length == Pow2(log2n)
    requires DefinedOn(re[..], 0, re.Length) && DefinedOn(im[..], 0, im.Length)
    requires |outRe| == re.Length && |outIm| == im.Length
    modifies re, im
    ensures re[..] == Defs(outRe) && im[..] == Defs(outIm)
  {
    forall i | 0 <= i < re.Length {
      re[i] := Def(outRe[i]);
    }
    forall i | 0 <= i < im.Length {
      im[i] := Def(outIm[i]);
    }
  }

  /**
   * vDSP_fft_zop(setup, &{inRe, inIm}, 1, &{outRe, outIm}, 1, log2n, FFT_FORWARD):
   * the out-of-place complex FFT.  It writes the output pair only.
   */
  method FftZop(setup: FftSetup, inRe: array<Cell>, inIm: array<Cell>, outRe: array<Cell>, outIm: array<Cell>,
                log2n: nat, resultRe: seq<real>, resultIm: seq<real>)
    requires outRe != outIm && outRe != inRe && outRe != inIm && outIm != inRe && outIm != inIm
    requires log2n <= setup.log2n
    requires inRe.Length == Pow2(log2n) && inIm.Length == Pow2(log2n)
    requires DefinedOn(inRe[..], 0, inRe.Length) && DefinedOn(inIm[..], 0, inIm.Length)
    requires outRe.Length == Pow2(log2n) && outIm.Length == Pow2(log2n)
    requires |resultRe| == outRe.Length && |resultIm| == outIm.Length
    modifies outRe, outIm
    ensures outRe[..] == Defs(resultRe) && outIm[..] == Defs(resultIm)
    ensures inRe[..] == old(inRe[..]) && inIm[..] == old(inIm[..])
  {
    forall i | 0 <= i < outRe.Length {
      outRe[i] := Def(resultRe[i]);
    }
    forall i | 0 <= i < outIm.Length {
      outIm[i] := Def(resultIm[i]);
    }
  }

  // ---------------------------------------------------------------------------
  // Packed real spectrum
  // ---------------------------------------------------------------------------

  /**
   * Bin k (0 <= k <= n/2) of the spectrum of n real samples, read from the
   * packed layout that vDSP_fft_zrip leaves in {m, m + n/2}: bins 0 and n/2
   * are real, and the real part of bin n/2 sits in the slot of the imaginary
   * part of bin 0.
   */
  function PackedBin(m: seq<Cell>, k: nat): (bin: (real, real))
    requires |m| % 2 == 0 && |m| >= 2 && DefinedOn(m, 0, |m|) && k <= |m| / 2
  {
    var h := |m| / 2;
    if k == 0 then (m[0].value, 0.0)
    else if k == h then (m[h].value, 0.0)
    else (m[k].value, m[h + k].value)
  }

  /**
   * Bin k (0 <= k < n) of the full n-point spectrum that the packed layout
   * stands for: bins above n/2 are read as the complex conjugates of bins
   * below it.
   */
  function FullBin(m: seq<Cell>, k: nat): (bin: (real, real))
    requires |m| % 2 == 0 && |m| >= 2 && DefinedOn(m, 0, |m|) && k < |m|
  {
    if k <= |m| / 2 then PackedBin(m, k)
    else var b := PackedBin(m, |m| - k); (b.0, -b.1)
  }

  /** The full spectrum that the packed layout in m stands for, bins 0 … n-1. */
  function Unpack(m: seq<Cell>): (s: seq<(real, real)>)
    requires |m| % 2 == 0 && |m| >= 2 && DefinedOn(m, 0, |m|)
    ensures |s| == |m|
  {
    seq(|m|, k requires 0 <= k < |m| && |m| % 2 == 0 && |m| >= 2 && DefinedOn(m, 0, |m|) => FullBin(m, k))
  }

  /**
   * The spectrum of n real samples: bins 0 and n/2 are real, and bin n-k is
   * the complex conjugate of bin k.
   */
  predicate Hermitian(s: seq<(real, real)>)
  {
    && |s| % 2 == 0 && |s| >= 2
    && s[0].1 == 0.0 && s[|s| / 2].1 == 0.0
    && forall k :: 0 < k < |s| ==> s[|s| - k] == (s[k].0, -s[k].1)
  }

  /**
   * The packed layout of a spectrum of n bins in n floats: slot i <= n/2 holds
   * the real part of bin i, slot n/2 + k (0 < k < n/2) the imaginary part of
   * bin k.  Slot n/2 is imagp[0]: it carries the real part of bin n/2.
   */
  function Pack(s: seq<(real, real)>): (m: seq<real>)
    requires |s| % 2 == 0 && |s| >= 2
    ensures |m| == |s|
  {
    var h := |s| / 2;
    seq(|s|, i requires 0 <= i < |s| => if i <= h then s[i].0 else s[i - h].1)
  }

  /**
   * Every packed layout holds a Hermitian spectrum, and packing that spectrum
   * gives back every float of the layout: each slot is used by exactly one
   * part of one of bins 0 … n/2.
   */
  lemma {:induction false} PackUnpack(m: seq<Cell>)
    requires |m| % 2 == 0 && |m| >= 2 && DefinedOn(m, 0, |m|)
    ensures Hermitian(Unpack(m))
    ensures Pack(Unpack(m)) == Values(m)
  {
    UnpackIsHermitian(m);
    var s, h := Unpack(m), |m| / 2;
    forall i | 0 <= i < |m|
      ensures Pack(s)[i] == m[i].value
    {
      if i <= h {
        assert s[i] == PackedBin(m, i);
      } else {
        assert s[i - h] == PackedBin(m, i - h);
      }
    }
  }

  /** Bins 0 and n/2 of a packed layout are real, and bin n-k is the conjugate of bin k. */
  lemma {:induction false} UnpackIsHermitian(m: seq<Cell>)
    requires |m| % 2 == 0 && |m| >= 2 && DefinedOn(m, 0, |m|)
    ensures Hermitian(Unpack(m))
  {
    var s, h := Unpack(m), |m| / 2;
    assert s[0] == PackedBin(m, 0) && s[h] == PackedBin(m, h);
    forall k | 0 < k < |s|
      ensures s[|s| - k] == (s[k].0, -s[k].1)
    {
      UnpackConjugate(m, k);
    }
  }

  /** Bin n-k of the spectrum a packed layout stands for is the conjugate of bin k. */
  lemma {:induction false} UnpackConjugate(m: seq<Cell>, k: nat)
    requires |m| % 2 == 0 && |m| >= 2 && DefinedOn(m, 0, |m|) && 0 < k < |m|
    ensures Unpack(m)[|m| - k] == (Unpack(m)[k].0, -Unpack(m)[k].1)
  {
    var h, j := |m| / 2, |m| - k;
    if k > h {
      assert Unpack(m)[k] == FullBin(m, k);
      assert Unpack(m)[j] == PackedBin(m, j);
    } else if k < h {
      assert Unpack(m)[k] == PackedBin(m, k);
      assert Unpack(m)[j] == FullBin(m, j);
    }
  }

  /**
   * A Hermitian spectrum survives the packed layout: unpacking its packing
   * gives back every bin, the conjugate half included.
   */
  lemma {:induction false} UnpackPack(s: seq<(real, real)>)
    requires Hermitian(s)
    ensures Unpack(Defs(Pack(s))) == s
  {
    var m, h := Defs(Pack(s)), |s| / 2;
    forall k | 0 <= k < |s|
      ensures Unpack(m)[k] == s[k]
    {
      if k > h {
        assert s[k] == (s[|s| - k].0, -s[|s| - k].1) by {
          assert s[|s| - (|s| - k)] == (s[|s| - k].0, -s[|s| - k].1);
        }
      }
    }
  }

  // ---------------------------------------------------------------------------
  // Convolution (vDSP_conv)
  // ---------------------------------------------------------------------------

  /** The least multiple of four that is at least n. */
  function RoundUpToFour(n: nat): (r: nat)
    ensures r % 4 == 0 && n <= r < n + 4
  {
    (n + 3) / 4 * 4
  }

  /** Offset of filter tap k when the filter is passed as `filter + base` with stride `stride`. */
  function TapOffset(base: int, stride: int, k: int): int
  {
    base + k * stride
  }

  /** Every tap 0..len-1 of a filter passed as (base, stride) lies in f and is stored. */
  predicate TapsReadable(f: seq<Cell>, base: int, stride: int, len: nat)
  {
    forall k :: 0 <= k < len ==> 0 <= TapOffset(base, stride, k) < |f| && f[TapOffset(base, stride, k)].Def?
  }

  /** The filter coefficients in the order vDSP_conv visits them. */
  function Taps(f: seq<Cell>, base: int, stride: int, len: nat): (t: seq<real>)
    requires TapsReadable(f, base, stride, len)
    ensures |t| == len
  {
    seq(len, k requires 0 <= k < len && TapsReadable(f, base, stride, len) => f[TapOffset(base, stride, k)].value)
  }

  /**
   * vDSP_conv(signal, 1, filter + filterBase, filterStride, result, 1,
   * resultLength, filterLength).  Output i is the sliding window of signal
   * [i, i + filterLength) against the taps; those values are `out`.  The
   * windows read signal[0 .. resultLength + filterLength - 1), and the routine
   * may load past them up to a filter length rounded up to four (vector loads),
   * so that much of the signal array must exist.
   */
  method Conv(signal: array<Cell>, filter: array<Cell>, filterBase: int, filterStride: int,
              result: array<Cell>, resultLength: nat, filterLength: nat, out: seq<real>)
    requires result != signal && result != filter
    requires resultLength + RoundUpToFour(filterLength) <= signal.Length
    requires 1 <= filterLength && DefinedOn(signal[..], 0, resultLength + filterLength - 1)
    requires TapsReadable(filter[..], filterBase, filterStride, filterLength)
    requires resultLength <= result.Length && |out| == resultLength
    modifies result
    ensures result[..resultLength] == Defs(out)
    ensures result[resultLength..] == old(result[resultLength..])
  {
    forall i | 0 <= i < resultLength {
      result[i] := Def(out[i]);
    }
  }
}
