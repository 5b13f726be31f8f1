# vDSP examples: a Dafny model of the demonstration programs

This project models three of Apple's vDSP sample programs and proves
properties about them. The samples are written in C.

- **`DTMF.c`: the touch-tone decoder.** It covers:
  - the keypad table and its `strchr` lookup;
  - the 32-bit linear congruential generator;
  - the tone picker and its frequency-to-bin arithmetic;
  - the buffer use of one key's demonstration;
  - the two ways `main` reads keys (interactively, or from one argument).
- **`DemonstrateFFT.c`: the four one-dimensional FFT demonstrations.** It covers:
  - split-complex views of one allocation;
  - the even/odd packing done by `vDSP_ctoz`;
  - the packed real-spectrum layout;
  - the expected spectra and the stores that build them;
  - `CompareComplexVectors`;
  - the zeroing before the timing loops.
- **`DemonstrateConvolution.c`: the convolution demonstration.** It covers:
  - the `(FilterLength+3 & -4u)` padding in 64-bit unsigned arithmetic;
  - the fill loops;
  - the backward-filter call;
  - the operation count.

The project has four modules:

- **`Vdsp`** (`vdsp.dfy`) models heap memory and the vDSP routines.
  - Memory is `array<Cell>`. A `Cell` is `Undef` until something is stored in it.
  - Every read requires the cell to be defined. This is how the model tracks which elements a demonstration writes and which it reads.
  - `DSPSplitComplex` is a pair of (array, offset) views.
  - The vDSP routines are opaque methods. Their contracts state the lengths the routine needs, what it reads and what it may overwrite.
  - The numbers a transform or a convolution produces are a parameter of the method.
- **`Dtmf`** (`dtmf.dfy`) is the touch-tone decoder. It is mixed:
  - pure functions for the table, `strchr` and the bin arithmetic;
  - a `Generator` class for the global `Seed`;
  - loop methods for `FindTone`, the signal loops and the key-reading loops, each proved against a specification function.
- **`FftDemo`** (`fft_demo.dfy`) covers the FFT demonstrations. These are imperative:
  - loops that fill and zero arrays in place;
  - the expected-spectrum stores;
  - the comparison loop, proved against `SquaredNorm`.
- **`Convolution`** (`convolution.dfy`) covers the padding mask, the fill loop, the reversed filter and the operation count.

## Model

| member | source | states |
|---|---|---|
| Vdsp.Malloc | vDSPExamples/DemonstrateFFT.c:114-115 | a fresh allocation of n floats, none of which holds a stored value |
| Vdsp.SingleAllocationPartition | vDSPExamples/DemonstrateFFT.c:124 | `{ M, M + N/2 }`: both halves lie inside the allocation, they do not overlap, and together they cover every float of it |
| Vdsp.PackedParts | vDSPExamples/DemonstrateFFT.c:168-170 | the split view of one allocation reads realp as the first half and imagp as the second half |
| Vdsp.SeparateParts | vDSPExamples/DemonstrateFFT.c:453-456 | separate real and imaginary allocations read back as the values stored in them |
| Vdsp.PartsAt | vDSPExamples/DemonstrateFFT.c:40-47 | element i of a split view is the value at `realp[i]` and `imagp[i]` |
| Vdsp.Deinterleave | vDSPExamples/DemonstrateFFT.c:137-154 | the packing for vDSP_ctoz with source stride 2: float 2i goes to `realp[i]` and float 2i+1 to `imagp[i]` |
| Vdsp.InterleaveDeinterleave | vDSPExamples/DemonstrateFFT.c:221-225 | unpacking a packed vector (vDSP_ztoc after vDSP_ctoz) gives back the interleaved signal |
| Vdsp.DeinterleaveInterleave | vDSPExamples/DemonstrateFFT.c:221-225 | packing an unpacked vector gives back the split vector |
| Vdsp.Ctoz | vDSPExamples/DemonstrateFFT.c:154 | reads the first 2·count stored floats of the signal; the split destination becomes their even/odd packing and is fully defined |
| Vdsp.Ztoc | vDSPExamples/DemonstrateFFT.c:225 | the destination's first 2·count floats become the interleaving of the split source; the rest are unchanged |
| Vdsp.FftZrip | vDSPExamples/DemonstrateFFT.c:157 | needs log2n within the setup, 2^log2n floats in the split buffer, all of them stored; overwrites that buffer only |
| Vdsp.FftZrop | vDSPExamples/DemonstrateFFT.c:319 | the out-of-place real FFT writes the output only; its input is unchanged |
| Vdsp.FftZip | vDSPExamples/DemonstrateFFT.c:449 | needs two distinct stored arrays of 2^log2n floats; overwrites both with the transform |
| Vdsp.FftZop | vDSPExamples/DemonstrateFFT.c:571 | the out-of-place complex FFT writes the two output arrays only; its input arrays are unchanged |
| Vdsp.UnpackIsHermitian | vDSPExamples/DemonstrateFFT.c:83-91 | the well-formedness half of the PackUnpack round trip, which holds by how bins above N/2 are read: the spectrum a packed layout stands for is Hermitian: bins 0 and N/2 are real (read from `realp[0]` and `imagp[0]`) and bin N-k is the conjugate of bin k |
| Vdsp.UnpackConjugate | vDSPExamples/DemonstrateFFT.c:85-87 | the step of UnpackIsHermitian for one bin, which holds by how bins above N/2 are read: bin N-k of the unpacked spectrum is the complex conjugate of bin k |
| Vdsp.PackUnpack | vDSPExamples/DemonstrateFFT.c:83-91 | every packed layout unpacks to a Hermitian spectrum, and packing that spectrum gives back every float: each slot carries exactly one part of one of bins 0 … N/2, slot N/2 (`imagp[0]`) the real part of bin N/2 |
| Vdsp.UnpackPack | vDSPExamples/DemonstrateFFT.c:83-91 | a Hermitian spectrum of N bins is recovered in full, conjugate half included, from its N-float packed layout |
| Vdsp.RoundUpToFour | vDSPExamples/DemonstrateConvolution.c:39-48 | the least multiple of four that is at least n |
| Vdsp.Conv | vDSPExamples/DemonstrateConvolution.c:92-93 | needs a signal of at least ResultLength plus FilterLength rounded up to four, the first ResultLength + FilterLength - 1 samples stored, and every tap in bounds; writes `result[0, ResultLength)` only |
| Dtmf.StrChr | vDSPExamples/DTMF.c:101 | strchr: the first index of c in the string followed by its NUL, or none; the NUL itself can match |
| Dtmf.KeysAreDistinct | vDSPExamples/DTMF.c:92 | the sixteen keys are distinct and none is NUL |
| Dtmf.StrChrOnCString | vDSPExamples/DTMF.c:101-102 | in a NUL-free string: a character of the string is found before the end, NUL is found at index \|s\|, anything else is not found |
| Dtmf.StrChrOnKeys | vDSPExamples/DTMF.c:101-111 | the three cases of strchr on the keypad table |
| Dtmf.StrChrFindsIndex | vDSPExamples/DTMF.c:101-111 | strchr finds the key at index n at index n |
| Dtmf.ConvertKeyToFrequenciesAsWritten | vDSPExamples/DTMF.c:98-115 | the lookup as written: undefined exactly for NUL; a table key gives a DTMF0 tone and a DTMF1 tone; any other character gives (0, 0) |
| Dtmf.ConvertKeyToFrequencies | vDSPExamples/DTMF.c:98-115 | the lookup confined to the table: a key gives a table pair, anything else gives (0, 0); `high != 0` holds exactly for table keys, which is the test at lines 272 and 299 |
| Dtmf.LookupAgreesAwayFromNul | vDSPExamples/DTMF.c:98-115 | for every character but NUL the two lookups agree |
| Dtmf.KeyRoundTrip | vDSPExamples/DTMF.c:92-112 | the key at index n has tones (DTMF0[n % 4], DTMF1[n / 4]), and `Keys[(n/4)*4 + n%4]` is that key again |
| Dtmf.ToneIndicesNameAKey | vDSPExamples/DTMF.c:221-225 | any Tone1, Tone0 in [0, 4) index one of the 16 keys, whose tones are DTMF0[Tone0] and DTMF1[Tone1] |
| Dtmf.HighBits | vDSPExamples/DTMF.c:83 | `Seed >> 8` is below 2^24 and is the seed with its low 8 bits dropped |
| Dtmf.UnitFraction | vDSPExamples/DTMF.c:82-83 | the returned number lies in [0, 1), and multiplied by 2^24 it is exactly `Seed >> 8` |
| Dtmf.Generator.constructor | vDSPExamples/DTMF.c:60-68 | InitializeRandom: the seed is the time modulo 2^32 |
| Dtmf.Generator.Random | vDSPExamples/DTMF.c:72-84 | the seed becomes (1664525·Seed + 1013904223) mod 2^32, and the result is its high 24 bits over 2^24, in [0, 1) |
| Dtmf.BinIndex | vDSPExamples/DTMF.c:142-143 | the bin is f/3266·256 + 0.5 truncated: k ≤ f/3266·256 + 0.5 < k + 1 |
| Dtmf.BinsOfTones | vDSPExamples/DTMF.c:93-94 | the eight tones fall in bins 95, 105, 116, 128 and 55, 60, 67, 74 |
| Dtmf.TonesInSpectrum | vDSPExamples/DTMF.c:221-222 | every DTMF tone's bin is at most the Nyquist bin 128 |
| Dtmf.BinBound | vDSPExamples/DTMF.c:142-147 | a bin is below 128 exactly when f ≤ 1626 Hz, and at most 128 exactly when f ≤ 1639 Hz |
| Dtmf.AsWrittenBinRead | vDSPExamples/DTMF.c:142-147 | the source's read `(realp[k], imagp[k])` is the packed bin k for 0 < k < 128, but for bin 0 it takes the Nyquist real part in `imagp[0]` as the imaginary part; no DTMF tone falls in bin 0 |
| Dtmf.HighGroupReadsPastBuffer | vDSPExamples/DTMF.c:142-147 | the reads `realp[index]`, `imagp[index]` stay in the 256-float buffer exactly when every candidate is ≤ 1626 Hz; DTMF1 passes; DTMF0 fails, with 1633 Hz reading `imagp[128]` = element 256 |
| Dtmf.LoudestIsUnique | vDSPExamples/DTMF.c:153-157 | with the strict `<` test, at most one candidate is the loudest-with-ties-to-the-earliest |
| Dtmf.FindTone | vDSPExamples/DTMF.c:130-162 | with the corrected bin read (see Findings: the Nyquist bin from `imagp[0]`, bin 0 with no imaginary part): returns 0 for no candidates; otherwise an index whose squared amplitude is ≥ every candidate's and > every earlier candidate's |
| Dtmf.FillNoise | vDSPExamples/DTMF.c:183-184 | sample i is 4 times the generator's (i+1)-th draw; the seed advances 256 steps |
| Dtmf.AddTone | vDSPExamples/DTMF.c:188-196 | each sample gains the tone's sample at the same index; nothing else changes |
| Dtmf.Demonstrate | vDSPExamples/DTMF.c:171-230 | with the corrected FindTone (see Findings): consumes 258 draws; the column and row are the loudest DTMF0 and DTMF1 tones of the spectrum; the key printed is `Keys[row*4 + col]` |
| Dtmf.Analyze | vDSPExamples/DTMF.c:198-225 | with the corrected FindTone (see Findings): ctoz into `{ M, M + 128 }`, zrip, then the loudest tone of each group and the key they name |
| Dtmf.ToUpper | vDSPExamples/DTMF.c:269 | toupper in the C locale: maps 'a'…'z' to 'A'…'Z' and leaves everything else unchanged |
| Dtmf.SessionStep | vDSPExamples/DTMF.c:253-283 | one pass: a blank first line ends the session; otherwise its first non-blank character, upper-cased, is the key and the session continues after the newline |
| Dtmf.SessionOfLastLine | vDSPExamples/DTMF.c:276-282 | input without a newline yields at most its one key |
| Dtmf.SessionOfFirstLine | vDSPExamples/DTMF.c:276-282 | input with a newline yields the first line's key, then the keys after the newline |
| Dtmf.KeysOfLinesStep | vDSPExamples/DTMF.c:264-266 | a blank line stops the key list; otherwise its key is followed by the later lines' keys |
| Dtmf.RecognizedPairsAppend | vDSPExamples/DTMF.c:269-273 | appending a key appends its pair exactly when it is a table key |
| Dtmf.SkipBlanks | vDSPExamples/DTMF.c:260-262 | the first do-while stops at '\n', at a non-space character or at EOF; everything consumed before that is non-newline white space |
| Dtmf.SkipLine | vDSPExamples/DTMF.c:276-278 | the second do-while stops at '\n' or EOF; nothing consumed before that is a newline |
| Dtmf.BlankPass | vDSPExamples/DTMF.c:264-266 | a pass that meets '\n' or EOF before any key ends the session |
| Dtmf.KeyPass | vDSPExamples/DTMF.c:268-282 | a pass that meets a key looks it up and continues after the line's newline |
| Dtmf.ReadKeyLine | vDSPExamples/DTMF.c:255-282 | one pass of the loop: no key exactly when the session ends here; otherwise the key, and the session continues from the returned position unless EOF was met |
| Dtmf.ReadKeysInteractively | vDSPExamples/DTMF.c:249-288 | with the corrected lookup (see Findings: a NUL key gives (0, 0) and is not demonstrated): the keys looked up are the session's keys, and the pairs demonstrated are exactly those of the table keys among them; ends on any finite input |
| Dtmf.UpperAll | vDSPExamples/DTMF.c:296 | each argument character is upper-cased independently |
| Dtmf.ArgumentCharacterStep | vDSPExamples/DTMF.c:293-307 | one more argument character extends exactly one list by one element: the demonstrated pairs by its table pair when its upper case is a key, the reported characters by itself otherwise |
| Dtmf.ArgumentCharactersAccounted | vDSPExamples/DTMF.c:293-307 | for each index i, character i extends exactly one of the two lists, the one decided by whether `toupper` of it is a key, so it is demonstrated or reported, never both and never neither; the two lengths add up to the argument's |
| Dtmf.ArgumentLengthsAddUp | vDSPExamples/DTMF.c:293-307 | the number of pairs demonstrated plus the number of characters reported is the argument's length |
| Dtmf.RecognizedPairsAreTablePairs | vDSPExamples/DTMF.c:299-302 | every demonstrated pair is a DTMF0 tone and a DTMF1 tone |
| Dtmf.ReadKeysFromArgument | vDSPExamples/DTMF.c:291-308 | the pairs demonstrated are those of the upper-cased table keys, in order; the rejected characters are the rest, and the loop goes on past them |
| Dtmf.RunProgram | vDSPExamples/DTMF.c:249-317 | no argument: interactive session; one argument: its keys; more: usage |
| Dtmf.NulInputOverrunsTable | vDSPExamples/DTMF.c:261-269 | a NUL byte read by getchar is looked up as a key; strchr finds it at 16, and the lookup as written reads DTMF1[4] |
| FftDemo.NIsPowerOfTwo | vDSPExamples/DemonstrateFFT.c:20-21 | N = 1 << Log2N = 1024 |
| FftDemo.Peaks | vDSPExamples/DemonstrateFFT.c:176-183 | one peak per tone, each at its tone's bin |
| FftDemo.PeakValueOfDistinct | vDSPExamples/DemonstrateFFT.c:176-183 | with distinct bins the order of the stores does not matter: a peak's bin holds that peak's value, and other bins hold none |
| FftDemo.PeakValueOfThree | vDSPExamples/DemonstrateFFT.c:176-183 | after the three stores in order, a bin holds the last peak stored there |
| FftDemo.FullyZeroedPartIsDefined | vDSPExamples/DemonstrateFFT.c:172-173 | a part zeroed over its whole length is defined everywhere and holds exactly the peaks and zeros |
| FftDemo.HalfZeroedExpectedIsUndefined | vDSPExamples/DemonstrateFFT.c:464-478 | with only N/2 elements zeroed, element 512 of the zip and zop expected real parts is never stored, so the N elements compared are not all defined |
| FftDemo.DemonstrationBins | vDSPExamples/DemonstrateFFT.c:129 | each demonstration's three bins are distinct; the real transforms' bins are below N/2, the complex transforms' below N |
| FftDemo.InitPackedExpected | vDSPExamples/DemonstrateFFT.c:172-183 | both halves of `{ E, E + N/2 }` end up holding the expected values: each peak's part at its bin, zero at every other bin |
| FftDemo.ZeroSplit | vDSPExamples/DemonstrateFFT.c:172-173 | zeroing realp[i] and imagp[i] for i < N/2 of `{ E, E + N/2 }` zeroes every float of the allocation |
| FftDemo.PackedStoresAreExpected | vDSPExamples/DemonstrateFFT.c:176-183 | the six stores of the peaks over zeroed memory, in program order, leave the expected values in both halves |
| FftDemo.InitComplexExpected | vDSPExamples/DemonstrateFFT.c:464-475 | the first zeroTo elements of both arrays become zero; the peaks' bins hold the peaks' values; the rest keep what they held |
| FftDemo.SquaredNormNonNegative | vDSPExamples/DemonstrateFFT.c:40-48 | a sum of squares is non-negative |
| FftDemo.SquaredNormZeroIff | vDSPExamples/DemonstrateFFT.c:40-48 | a sum of squares is zero exactly when every element is zero |
| FftDemo.ErrorZeroIffEqual | vDSPExamples/DemonstrateFFT.c:44-48 | the accumulated error is non-negative, and zero exactly when observed equals expected |
| FftDemo.CompareComplexVectors | vDSPExamples/DemonstrateFFT.c:27-53 | needs elements [0, Length) of both vectors stored; Magnitude is Σ(re² + im²) of Expected over them, and Error is Σ of the squared differences |
| FftDemo.ElementTerms | vDSPExamples/DemonstrateFFT.c:40-48 | one iteration's magnitude and error terms for element i |
| FftDemo.Fill | vDSPExamples/DemonstrateFFT.c:131-135 | element i of the signal holds sample i |
| FftDemo.ZeroFill | vDSPExamples/DemonstrateFFT.c:199-200 | every element becomes zero |
| FftDemo.FillParts | vDSPExamples/DemonstrateFFT.c:436-446 | element i of both parts holds its sample i |
| FftDemo.ZeroParts | vDSPExamples/DemonstrateFFT.c:492-493 | every element of both parts becomes zero |
| FftDemo.ZripTimingInputNotZeroed | vDSPExamples/DemonstrateFFT.c:195-207 | a spectrum with a nonzero element is not all zero, so the buffer that DemonstrateZrip's timing loop starts from (`timed`, the spectrum) is not zeroed |
| FftDemo.ZeroBeforeTiming | vDSPExamples/DemonstrateFFT.c:195-207 | the corrected zeroing clears the buffer that the timed transforms work on |
| FftDemo.ComparisonExactIff | vDSPExamples/DemonstrateFFT.c:27-53 | the comparison's error is ≥ 0, and 0 exactly when the observed spectrum holds each peak at its bin and zero elsewhere |
| FftDemo.ExpectedMatchesIff | vDSPExamples/DemonstrateFFT.c:170-183 | the expected spectrum is the only one that holds the peaks at their bins and zero elsewhere |
| FftDemo.CompareWithPacked | vDSPExamples/DemonstrateFFT.c:159-186 | the real demonstrations' comparison is the squared error and magnitude of the first N/2 packed elements against the expected peaks |
| FftDemo.CompareWithSeparate | vDSPExamples/DemonstrateFFT.c:451-478 | the complex demonstrations' comparison, over all N elements against fully zeroed expected arrays |
| FftDemo.DemonstrateZrip | vDSPExamples/DemonstrateFFT.c:96-240 | the comparison is that of the packed spectrum's N/2 elements with peaks at bins 79, 296, 143; the zeroing as written leaves Signal all zero and Observed, which the timing loop transforms, holding the spectrum |
| FftDemo.DemonstrateZrop | vDSPExamples/DemonstrateFFT.c:253-392 | the comparison is that of the packed spectrum's N/2 elements with peaks at bins 48, 243, 300 |
| FftDemo.DemonstrateZip | vDSPExamples/DemonstrateFFT.c:402-513 | with the corrected zeroing of all N expected elements (see Findings): the comparison is that of all N transformed elements with peaks at bins 400, 623, 931 |
| FftDemo.DemonstrateZop | vDSPExamples/DemonstrateFFT.c:521-632 | with the corrected zeroing of all N expected elements (see Findings): the comparison is that of all N transformed elements with peaks at bins 300, 450, 775 |
| FftDemo.DemonstrateFFT | vDSPExamples/DemonstrateFFT.c:636-656 | the four demonstrations' comparisons in order, each against its own tones' bins: zrip and zrop over the N/2 packed elements, zip and zop over all N |
| FftDemo.DemonstrationsExactIff | vDSPExamples/DemonstrateFFT.c:186 | each demonstration's error is zero exactly when its transform put every tone at its bin and zero elsewhere |
| Convolution.MaskKeepsLowWord | vDSPExamples/DemonstrateConvolution.c:53 | ANDing with `-4u` zero-extended to 64 bits gives the low 32 bits rounded down to a multiple of four |
| Convolution.PaddingRoundsUp | vDSPExamples/DemonstrateConvolution.c:50-53 | while FilterLength + 3 < 2^32, the padding is a multiple of four in [FilterLength, FilterLength + 3] |
| Convolution.PaddingDropsHighWord | vDSPExamples/DemonstrateConvolution.c:53 | the padded length never exceeds 2^32 - 4, so for every FilterLength from 2^32 - 3 up to 2^64 - 1 it falls below FilterLength (to 0 at 2^32 - 3 and at 2^32) |
| Convolution.SignalLengthCoversWindows | vDSPExamples/DemonstrateConvolution.c:39-53 | SignalLength = 2304 = ResultLength + FilterLength rounded up to four, which is ≥ ResultLength + FilterLength - 1 |
| Convolution.SlotInAllocation | vDSPExamples/DemonstrateConvolution.c:68-70 | offset i·stride lies within the length·stride allocation for i < length |
| Convolution.FillOnes | vDSPExamples/DemonstrateConvolution.c:82-89 | every visited slot is in bounds and holds 1.0; the others are unchanged |
| Convolution.UnitStrideFillsAll | vDSPExamples/DemonstrateConvolution.c:82-89 | with stride 1 every element is 1.0 |
| Convolution.BackwardTapsAreReversed | vDSPExamples/DemonstrateConvolution.c:95-101 | base FilterLength - 1 with stride -1 reads every tap in bounds, and the taps are the forward taps reversed |
| Convolution.CountedOperationsClosedForm | vDSPExamples/DemonstrateConvolution.c:118-126 | FilterLength multiplies and FilterLength - 1 additions per result sum to ResultLength·(2·FilterLength - 1) |
| Convolution.DemonstrationOperationCount | vDSPExamples/DemonstrateConvolution.c:126 | the 64-bit count 2048·511 = 1046528 does not wrap and equals the counted operations |
| Convolution.EmptyFilterCountWraps | vDSPExamples/DemonstrateConvolution.c:126 | with FilterLength = 0, `2*FilterLength - 1` wraps, and the count is 2^64 - ResultLength instead of 0 |
| Convolution.DemonstrateConvolution | vDSPExamples/DemonstrateConvolution.c:19-138 | fills, correlates, then convolves with the filter backward; after the two calls Result holds the convolution, and the 64-bit count equals the operations counted element by element |

## Left out

- Floating point is not modelled. This covers:
  - the sinusoids `sin`/`cos` and the noise scaling;
  - the peaks' values N·cos(2πφ) and N·sin(2πφ);
  - `sqrt(Error / Magnitude)`;
  - the gigaflops and microsecond figures.

  Samples and peak values are parameters and are modelled as exact reals. Float rounding, NaN and infinities are not modelled.
- The vDSP routines' numerical results are not modelled. They are parameters, and the vDSP library is not part of this model.
- I/O is left out: `printf`, `fprintf`, and `exit` on allocation failure. `malloc` never fails in the model.
- `getchar` and the command line are inputs. `getchar` is a finite string that ends in EOF; the command line is a sequence of strings.
- `time(NULL)` is a parameter of the generator's constructor.
- The timing loops, `Iterations`, and `Clock`/`ClockToSeconds` are left out. The exception is the buffer state the zrip timing loop starts from, which is under Findings.
- The convolution's timing loop correlates again, so Result finally holds the correlation; the model stops before that loop.
- Dtmf.RunProgram: returns the frequency pairs that `Demonstrate` is called with rather than calling it for each of them, so the one generator seeded once and carried from one demonstration to the next (258 draws each) is not composed across calls; Dtmf.Demonstrate states the draws of a single call.
- `vDSPExamples/Demonstrate.c` is not part of this model. It holds the clock, the floating-point environment, `main`, and the call to the two-dimensional FFT demonstration.
- `DemonstrateFFT2D` is not part of this model.
- Several allocations size by a pointer rather than by a float and so over-allocate: `sizeof Signal` in the real demonstrations, `sizeof Signal.realp` / `sizeof Signal.imagp` and `sizeof Expected.realp` / `sizeof Expected.imagp` in the complex ones, and `sizeof Observed.realp` / `sizeof Observed.imagp` in the out-of-place complex one. The model allocates the N floats that each buffer is used for.
- The demonstrations check only for allocation failure; vDSP's own argument checks (strides, lengths, log2 sizes against the setup) are preconditions of the Vdsp methods rather than error results.
- Expected peaks are stored at `(int) f`, which is exact for the integral frequencies the demonstrations use; the model takes each peak's bin as that integer.
- The FFT demonstrations' strides are the constant 1 and are not modelled as parameters.
- `vDSP_destroy_fftsetup` and `free` are left out: the model has no deallocation.
- Vdsp.FftZrip, Vdsp.FftZrop, Vdsp.FftZip, Vdsp.FftZop, Vdsp.Conv, Vdsp.Ctoz and Vdsp.Ztoc: the contracts state only lengths, definedness and frames, not the values the library computes. The exception is the documented even/odd packing of ctoz and ztoc.
- Dtmf.ToneAmplitude and Dtmf.FindTone: the squared amplitude is exact real arithmetic, so a NaN from the transform, which compares false with everything, is not modelled.

## Findings

| source | as written | input that shows it | evidently intended | confidence | as-written member | corrected member |
|---|---|---|---|---|---|---|
| vDSPExamples/DTMF.c:101-112 | `strchr(Keys, Key)` also matches the terminating NUL, so Key == '\0' gives n = 16 and reads `DTMF1[4]`, past the four-entry table | the interactive input "\0" (a NUL byte on a line); getchar returns 0 and it is looked up | only the sixteen keys are looked up; anything else gives (0, 0) | not executed | Dtmf.NulInputOverrunsTable | Dtmf.ConvertKeyToFrequencies |
| vDSPExamples/DTMF.c:142-147 | `Buffer.imagp[index]` with index = 128 for 1633 Hz reads `BufferMemory[256]`, one past the 256 floats | any key: every `FindTone(Buffer, DTMF0, 4)` call computes index 128 for 1633 Hz | bin 128 is the Nyquist bin, whose real part the packed layout keeps in `imagp[0]` and whose imaginary part is zero; likewise bin 0 (f ≤ 6 Hz) is real, and `imagp[0]` is not its imaginary part, though no DTMF tone falls there (Dtmf.AsWrittenBinRead) | not executed | Dtmf.HighGroupReadsPastBuffer | Dtmf.FindTone |
| vDSPExamples/DemonstrateFFT.c:464-478 | the complex demonstrations zero `Expected.realp/imagp[0, N/2)` but compare all N elements, so elements in [N/2, N) that no peak falls in are read without ever being stored | DemonstratevDSP_fft_zip or _zop: element 512 of `Expected.realp` | zero all N elements of both expected arrays | not executed | FftDemo.HalfZeroedExpectedIsUndefined | FftDemo.CompareWithSeparate |
| vDSPExamples/DemonstrateFFT.c:195-207 | before timing vDSP_fft_zrip the loop zeroes `Signal`, but the timed in-place transforms run on `Observed`, which still holds the spectrum (DemonstrateZrip's `timed`) | the zrip demonstration, whose spectrum has nonzero bins 79, 296, 143 | zero the buffer that the timed transforms work on | not executed | FftDemo.ZripTimingInputNotZeroed | FftDemo.ZeroBeforeTiming |
