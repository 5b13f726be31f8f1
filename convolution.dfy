/**
 * The convolution demonstration: a signal padded for vDSP_conv's vector
 * loads, a filter of ones, one correlation with the filter forward and one
 * convolution with the filter passed backward (its last element and a stride
 * of -1), and the operation count used to report gigaflops.
 *
 * vDSP_Length is a 64-bit unsigned integer; the padding mask `-4u` is a
 * 32-bit unsigned constant, so it is zero-extended before the AND.  Both
 * are modelled as bv64.
 */
module Convolution {
  import opened Vdsp

  /** FilterLength and ResultLength, of type vDSP_Length. */
  const FilterLength: bv64 := 256
  const ResultLength: bv64 := 2048

  /** `-4u`: 4294967292 as a 32-bit unsigned value, zero-extended to 64 bits. */
  const MinusFourU: bv64 := 0xFFFF_FFFC

  // ---------------------------------------------------------------------------
  // Padding
  // ---------------------------------------------------------------------------

  /** `FilterLength+3 & -4u` on 64-bit unsigned values: the addition wraps, the AND clears bits 0, 1 and 32 … 63. */
  function PaddedLength(filterLength: bv64): bv64
  {
    (filterLength + 3) & MinusFourU
  }

  /**
   * The AND with the zero-extended mask keeps bits 2 … 31: it is the 32-bit
   * truncation rounded down to a multiple of four.
   */
  lemma {:induction false} MaskKeepsLowWord(x: bv64)
    ensures x & MinusFourU == (x % 0x1_0000_0000) / 4 * 4
  {
  }

  /**
   * While FilterLength + 3 fits in 32 bits the padding is the least multiple
   * of four that is at least FilterLength: it adds 0 … 3 elements.
   */
  lemma {:induction false} PaddingRoundsUp(f: bv64)
    requires f < 0xFFFF_FFFD
    ensures PaddedLength(f) % 4 == 0
    ensures f <= PaddedLength(f) <= f + 3
  {
    MaskKeepsLowWord(f + 3);
  }

  /**
   * From FilterLength = 2^32 - 3 on, the zero-extended mask drops the high
   * word: the padded length never exceeds 2^32 - 4, so it is smaller than the
   * filter (zero at 2^32 - 3), and the signal would be too short for the
   * windows.
   */
  lemma {:induction false} PaddingDropsHighWord()
    ensures PaddedLength(0xFFFF_FFFD) == 0
    ensures PaddedLength(0x1_0000_0000) == 0
    ensures forall f: bv64 :: PaddedLength(f) <= 0xFFFF_FFFC
    ensures forall f: bv64 :: 0xFFFF_FFFD <= f ==> PaddedLength(f) < f
  {
    forall f: bv64
      ensures PaddedLength(f) <= 0xFFFF_FFFC
    {
      MaskKeepsLowWord(f + 3);
    }
  }

  /** `SignalLength = (FilterLength+3 & -4u) + ResultLength`. */
  function SignalLength(): bv64
  {
    PaddedLength(FilterLength) + ResultLength
  }

  /**
   * The demonstration's signal holds 2304 elements: the result length plus
   * the filter length rounded up to four, which covers the
   * ResultLength + FilterLength - 1 samples the sliding windows read.
   */
  lemma {:induction false} SignalLengthCoversWindows()
    ensures SignalLength() == 2304
    ensures SignalLength() as nat == ResultLength as nat + RoundUpToFour(FilterLength as nat)
    ensures SignalLength() as nat >= ResultLength as nat + FilterLength as nat - 1
  {
    assert PaddedLength(256) == 256;
  }

  // ---------------------------------------------------------------------------
  // Fill loops
  // ---------------------------------------------------------------------------

  /** The offset `i*Stride` of element i. */
  function Slot(i: nat, stride: nat): nat
  {
    i * stride
  }

  lemma {:induction false} SlotInAllocation(i: nat, length: nat, stride: nat)
    requires i < length && 1 <= stride
    ensures Slot(i, stride) < length * stride
    decreases length
  {
    assert length * stride == (length - 1) * stride + stride;
    if i + 1 < length {
      SlotInAllocation(i, length - 1, stride);
    }
  }

  /** Offset k is visited by a fill loop of `length` steps of `stride`. */
  predicate IsSlot(k: nat, length: nat, stride: nat)
  {
    exists j :: 0 <= j < length && Slot(j, stride) == k
  }

  /**
   * `for (i = 0; i < length; i++) a[i*stride] = 1.0;` over an allocation of
   * length·stride floats: every visited slot is in bounds and holds one, and
   * the others keep their contents.
   */
  method FillOnes(a: array<Cell>, length: nat, stride: nat)
    requires 1 <= stride && a.Length == length * stride
    modifies a
    ensures forall i :: 0 <= i < length ==> a[Slot(i, stride)] == Def(1.0)
    ensures forall k :: 0 <= k < a.Length && !IsSlot(k, length, stride) ==> a[k] == old(a[k])
  {
    for i := 0 to length
      invariant forall j :: 0 <= j < i ==> Slot(j, stride) < a.Length && a[Slot(j, stride)] == Def(1.0)
      invariant forall k :: 0 <= k < a.Length && !IsSlot(k, length, stride) ==> a[k] == old(a[k])
    {
      SlotInAllocation(i, length, stride);
      a[Slot(i, stride)] := Def(1.0);
    }
  }

  /** With unit stride the fill loop sets every element of the array to one. */
  lemma {:induction false} UnitStrideFillsAll(a: seq<Cell>, length: nat)
    requires |a| == length * 1
    requires forall i :: 0 <= i < length ==> a[Slot(i, 1)] == Def(1.0)
    ensures forall k :: 0 <= k < |a| ==> a[k] == Def(1.0)
  {
    forall k | 0 <= k < |a|
      ensures a[k] == Def(1.0)
    {
      assert Slot(k, 1) == k;
    }
  }

  // ---------------------------------------------------------------------------
  // The backward filter
  // ---------------------------------------------------------------------------

  function Reverse(s: seq<real>): (r: seq<real>)
    ensures |r| == |s| && forall k :: 0 <= k < |s| ==> r[k] == s[|s| - 1 - k]
  {
    seq(|s|, k requires 0 <= k < |s| => s[|s| - 1 - k])
  }

  /**
   * `Filter + FilterLength - 1` with stride -1 visits offsets
   * FilterLength - 1 - k for k in [0, FilterLength): exactly the filter's
   * elements, in reverse order, all in bounds.
   */
  lemma {:induction false} BackwardTapsAreReversed(filter: seq<Cell>)
    requires 1 <= |filter| && DefinedOn(filter, 0, |filter|)
    ensures TapsReadable(filter, 0, 1, |filter|) && TapsReadable(filter, |filter| - 1, -1, |filter|)
    ensures Taps(filter, |filter| - 1, -1, |filter|) == Reverse(Taps(filter, 0, 1, |filter|))
  {
    var n := |filter|;
    forall k | 0 <= k < n
      ensures TapOffset(0, 1, k) == k && TapOffset(n - 1, -1, k) == n - 1 - k
    {
    }
  }

  // ---------------------------------------------------------------------------
  // Operation count
  // ---------------------------------------------------------------------------

  /**
   * `ResultLength * (2 * FilterLength - 1)` in 64-bit unsigned arithmetic:
   * the subtraction and the product wrap modulo 2^64.
   */
  function OperationCount(resultLength: bv64, filterLength: bv64): bv64
  {
    resultLength * (2 * filterLength - 1)
  }

  /**
   * The operations of a convolution counted one result element at a time:
   * filterLength multiplies, and an addition for each filter element after
   * the first.
   */
  function CountedOperations(resultLength: nat, filterLength: nat): nat
    requires 1 <= filterLength
  {
    if resultLength == 0 then 0
    else CountedOperations(resultLength - 1, filterLength) + filterLength + (filterLength - 1)
  }

  /** The element-by-element count is ResultLength · (2·FilterLength - 1). */
  lemma {:induction false} CountedOperationsClosedForm(r: nat, f: nat)
    requires 1 <= f
    ensures CountedOperations(r, f) == r * (2 * f - 1)
  {
    if r > 0 {
      CountedOperationsClosedForm(r - 1, f);
      assert (r - 1) * (2 * f - 1) + (2 * f - 1) == r * (2 * f - 1);
    }
  }

  /** The demonstration's count, 2048 · 511 = 1046528, does not wrap and counts every operation. */
  lemma {:induction false} DemonstrationOperationCount()
    ensures OperationCount(ResultLength, FilterLength) == 1046528
    ensures CountedOperations(ResultLength as nat, FilterLength as nat) == 1046528
  {
    CountedOperationsClosedForm(2048, 256);
  }

  /**
   * With FilterLength = 0 the unsigned `2 * FilterLength - 1` wraps to
   * 2^64 - 1, so a convolution with no operations counts 2^64 - ResultLength
   * of them.
   */
  lemma {:induction false} EmptyFilterCountWraps(r: bv64)
    requires r != 0
    ensures OperationCount(r, 0) == 0 - r
    ensures OperationCount(r, 0) != 0
  {
  }

  // ---------------------------------------------------------------------------
  // The demonstration
  // ---------------------------------------------------------------------------

  /**
   * DemonstrateConvolution: allocate and fill the signal (SignalLength ones)
   * and the filter (FilterLength ones), correlate (filter forward) and then
   * convolve (filter backward) into Result.  The routine's outputs are
   * `correlation` and `convolution`; Result ends holding the second.
   */
  method DemonstrateConvolution(correlation: seq<real>, convolution: seq<real>)
    returns (result: array<Cell>, operations: bv64)
    requires |correlation| == ResultLength as nat && |convolution| == ResultLength as nat
    ensures result.Length == ResultLength as nat && result[..] == Defs(convolution)
    ensures operations as nat == CountedOperations(ResultLength as nat, FilterLength as nat)
  {
    SignalLengthCoversWindows();
    var signalLength, filterLength, resultLength := SignalLength() as nat, FilterLength as nat, ResultLength as nat;
    var signal := Malloc(signalLength);
    var filter := Malloc(filterLength);
    result := Malloc(resultLength);

    FillOnes(signal, signalLength, 1);
    FillOnes(filter, filterLength, 1);
    UnitStrideFillsAll(signal[..], signalLength);
    UnitStrideFillsAll(filter[..], filterLength);
    BackwardTapsAreReversed(filter[..]);

    // Correlation: the filter forward from its first element.
    Conv(signal, filter, 0, 1, result, resultLength, filterLength, correlation);

    // Convolution: the filter backward from its last element.
    Conv(signal, filter, filterLength - 1, -1, result, resultLength, filterLength, convolution);
    assert result[..] == result[..resultLength];

    operations := OperationCount(ResultLength, FilterLength);
    DemonstrationOperationCount();
  }
}
