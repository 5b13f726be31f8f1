/**
 * The touch-tone (DTMF) demonstration: a key is turned into its two tones, a
 * noisy signal carrying them goes through a real FFT, and the loudest tone of
 * each group picks the key back out of the keypad table.
 *
 * Modelled here: the keypad table and its lookup, the linear congruential
 * generator, the tone picker with its frequency-to-bin arithmetic, the
 * per-key demonstration's buffer use, and the two ways the program reads keys
 * (interactively from standard input, or from its one argument).
 */
module Dtmf {
  import opened Vdsp

  /** Log2SampleLength and SampleLength: the FFT works on 2^8 samples. */
  const Log2SampleLength: nat := 8
  const SampleLength: nat := 256

  /** Hz at which the signal is sampled (twice the highest DTMF tone). */
  const SamplingFrequency: nat := 3266

  /** The keypad, row by row: the key at index n is in column n % 4 and row n / 4. */
  const Keys: string := "123A456B789C*0#D"

  /** DTMF0: the high-group tones in Hz, one per keypad column. */
  const Dtmf0: seq<nat> := [1209, 1336, 1477, 1633]

  /** DTMF1: the low-group tones in Hz, one per keypad row. */
  const Dtmf1: seq<nat> := [697, 770, 852, 941]

  /** FrequencyPair: Frequency[0] (`high`, from DTMF0) and Frequency[1] (`low`, from DTMF1). */
  datatype FrequencyPair = FrequencyPair(high: nat, low: nat)

  // ---------------------------------------------------------------------------
  // Key lookup
  // ---------------------------------------------------------------------------

  /** The characters of a C string followed by its terminating NUL. */
  function CString(s: string): string
  {
    s + ['\0']
  }

  /**
   * strchr(s, c): the index of the first occurrence of c in the C string s.
   * The terminating NUL counts as part of the string (section 7.24.5.2 of
   * ISO/IEC 9899:2011), so searching for '\0' finds index |s|.
   */
  function StrChr(s: string, c: char): (r: Option<nat>)
    ensures r.Some? ==> r.value <= |s| && CString(s)[r.value] == c
    ensures r.Some? ==> forall j :: 0 <= j < r.value ==> CString(s)[j] != c
    ensures r.None? ==> forall j :: 0 <= j <= |s| ==> CString(s)[j] != c
  {
    if s == [] then
      (if c == '\0' then Some(0) else None)
    else if s[0] == c then
      Some(0)
    else
      assert CString(s)[1..] == CString(s[1..]);
      match StrChr(s[1..], c)
      case None => None
      case Some(n) => Some(n + 1)
  }

  /** No two keys of the table are the same, and none is the NUL character. */
  lemma {:induction false} KeysAreDistinct()
    ensures forall i, j :: 0 <= i < j < |Keys| ==> Keys[i] != Keys[j]
    ensures '\0' !in Keys
  {
  }

  /**
   * Where strchr finds a character in a C string with no NUL before its end:
   * a character of the string at an index before the terminator, the NUL
   * character at the terminator's index |s|, and any other character nowhere.
   */
  lemma {:induction false} StrChrOnCString(s: string, c: char)
    requires '\0' !in s
    ensures c in s ==> StrChr(s, c).Some? && StrChr(s, c).value < |s| && s[StrChr(s, c).value] == c
    ensures c == '\0' ==> StrChr(s, c) == Some(|s|)
    ensures c !in s && c != '\0' ==> StrChr(s, c) == None
  {
    assert CString(s)[|s|] == '\0';
    assert forall j :: 0 <= j < |s| ==> CString(s)[j] == s[j];
  }

  /** strchr on the keypad table: StrChrOnCString for Keys. */
  lemma {:induction false} StrChrOnKeys(key: char)
    ensures key in Keys ==> StrChr(Keys, key).Some? && StrChr(Keys, key).value < |Keys| && Keys[StrChr(Keys, key).value] == key
    ensures key == '\0' ==> StrChr(Keys, key) == Some(|Keys|)
    ensures key !in Keys && key != '\0' ==> StrChr(Keys, key) == None
  {
    KeysAreDistinct();
    StrChrOnCString(Keys, key);
  }

  /** strchr finds the key at index n of the table at index n, the keys being distinct. */
  lemma {:induction false} StrChrFindsIndex(n: nat)
    requires n < |Keys|
    ensures StrChr(Keys, Keys[n]) == Some(n)
  {
    KeysAreDistinct();
    StrChrOnKeys(Keys[n]);
    var m := StrChr(Keys, Keys[n]).value;
    assert Keys[m] == Keys[n];
    assert CString(Keys)[n] == Keys[n];
  }

  /**
   * ConvertKeyToFrequencies as written.  strchr also matches the string's
   * terminator, so for Key == '\0' the index is 16 and DTMF1[16 / 4] lies past
   * the four-entry table: that read has no defined result, which is `None`
   * here.  Every other key gives its table pair, or (0, 0) if it is not in the
   * table.
   */
  function ConvertKeyToFrequenciesAsWritten(key: char): (r: Option<FrequencyPair>)
    ensures r.None? <==> key == '\0'
    ensures key in Keys ==> r.Some? && r.value.high in Dtmf0 && r.value.low in Dtmf1
    ensures key !in Keys && key != '\0' ==> r == Some(FrequencyPair(0, 0))
  {
    StrChrOnKeys(key);
    match StrChr(Keys, key)
    case None => Some(FrequencyPair(0, 0))
    case Some(n) =>
      if n / 4 < |Dtmf1| then Some(FrequencyPair(Dtmf0[n % 4], Dtmf1[n / 4])) else None
  }

  /**
   * ConvertKeyToFrequencies with the lookup confined to the sixteen keys: a key
   * of the table gets the tones of a column and a row, anything else (0, 0).
   * Every DTMF0 tone is nonzero, so `high != 0` tells the two cases apart.
   */
  function ConvertKeyToFrequencies(key: char): (r: FrequencyPair)
    ensures key in Keys ==> r.high in Dtmf0 && r.low in Dtmf1
    ensures key !in Keys ==> r == FrequencyPair(0, 0)
    ensures r.high != 0 <==> key in Keys
  {
    StrChrOnKeys(key);
    match StrChr(Keys, key)
    case None => FrequencyPair(0, 0)
    case Some(n) =>
      if n < |Keys| then FrequencyPair(Dtmf0[n % 4], Dtmf1[n / 4]) else FrequencyPair(0, 0)
  }

  /** Away from the NUL character the lookup as written is defined and agrees with the confined one. */
  lemma {:induction false} LookupAgreesAwayFromNul(key: char)
    requires key != '\0'
    ensures ConvertKeyToFrequenciesAsWritten(key) == Some(ConvertKeyToFrequencies(key))
  {
    StrChrOnKeys(key);
  }

  /** The key printed for row `row` and column `col`: Keys[Tone1*4 + Tone0]. */
  function KeyAt(row: nat, col: nat): char
    requires row < 4 && col < 4
  {
    Keys[row * 4 + col]
  }

  /**
   * Round trip: the key at index n has column tone DTMF0[n % 4] and row tone
   * DTMF1[n / 4], and the key printed for that row and column is the key
   * itself, because (n / 4) * 4 + n % 4 == n.
   */
  lemma {:induction false} KeyRoundTrip(n: nat)
    requires n < |Keys|
    ensures n / 4 < 4 && n % 4 < 4
    ensures ConvertKeyToFrequencies(Keys[n]) == FrequencyPair(Dtmf0[n % 4], Dtmf1[n / 4])
    ensures KeyAt(n / 4, n % 4) == Keys[n]
  {
    StrChrFindsIndex(n);
    assert (n / 4) * 4 + n % 4 == n;
  }

  /** Any row and column in [0, 4) name one of the sixteen keys, whose tones are that column's and that row's. */
  lemma {:induction false} ToneIndicesNameAKey(row: nat, col: nat)
    requires row < 4 && col < 4
    ensures row * 4 + col < |Keys|
    ensures ConvertKeyToFrequencies(KeyAt(row, col)) == FrequencyPair(Dtmf0[col], Dtmf1[row])
  {
    var n := row * 4 + col;
    assert n / 4 == row && n % 4 == col;
    KeyRoundTrip(n);
    assert KeyAt(row, col) == Keys[n];
  }

  // ---------------------------------------------------------------------------
  // The pseudo-random number generator
  // ---------------------------------------------------------------------------

  newtype uint32 = x: int | 0 <= x < 0x1_0000_0000

  /** Seed = 1664525 * Seed + 1013904223, in 32-bit unsigned arithmetic. */
  function NextSeed(s: uint32): uint32
  {
    ((1664525 * s as int + 1013904223) % 0x1_0000_0000) as uint32
  }

  /** The seed after k draws. */
  function Advance(s: uint32, k: nat): uint32
  {
    if k == 0 then s else NextSeed(Advance(s, k - 1))
  }

  /** Seed >> 8: the high 24 bits of the seed. */
  function HighBits(s: uint32): (h: nat)
    ensures h < 0x100_0000
    ensures h * 256 <= s as int < h * 256 + 256
  {
    s as int / 256
  }

  /**
   * (Seed >> 8) * (1.f/16777216): the high 24 bits as a fraction of 2^24.  The
   * numerator is below 2^24, so it is exact in a float, and the factor is a
   * power of two, so the product is exact too and lies in [0, 1).
   */
  function UnitFraction(s: uint32): (r: real)
    ensures 0.0 <= r < 1.0
    ensures r * 16777216.0 == HighBits(s) as real
  {
    HighBits(s) as real / 16777216.0
  }

  /** The generator's state: the global `Seed`. */
  class Generator {
    var seed: uint32

    /** InitializeRandom: Seed = time(NULL), converted to a uint32_t. */
    constructor (time: int)
      ensures seed == (time % 0x1_0000_0000) as uint32
    {
      seed := (time % 0x1_0000_0000) as uint32;
    }

    /** Random: advance the seed once and return its high 24 bits as a number in [0, 1). */
    method Random() returns (r: real)
      modifies this
      ensures seed == NextSeed(old(seed))
      ensures r == UnitFraction(seed) && 0.0 <= r < 1.0
    {
      seed := NextSeed(seed);
      r := UnitFraction(seed);
    }
  }

  // ---------------------------------------------------------------------------
  // Finding a tone in the spectrum
  // ---------------------------------------------------------------------------

  /**
   * `(int)(f / SamplingFrequency * SampleLength + .5)` for a frequency f >= 0,
   * in exact arithmetic: the conversion truncates, which for a non-negative
   * value is the floor, so the result is f·256/3266 rounded half up.
   */
  function BinIndex(f: nat): (k: nat)
    ensures (k as real) <= (f as real) / (SamplingFrequency as real) * (SampleLength as real) + 0.5 < (k as real) + 1.0
  {
    var num := 256 * f + 1633;
    var k := num / 3266;
    assert num == 3266 * k + num % 3266;
    assert (f as real) / 3266.0 * 256.0 + 0.5 == (num as real) / 3266.0;
    k
  }

  /** The bins of the eight tones: 95, 105, 116, 128 for DTMF0 and 55, 60, 67, 74 for DTMF1. */
  lemma {:induction false} BinsOfTones()
    ensures BinIndex(Dtmf0[0]) == 95 && BinIndex(Dtmf0[1]) == 105 && BinIndex(Dtmf0[2]) == 116 && BinIndex(Dtmf0[3]) == 128
    ensures BinIndex(Dtmf1[0]) == 55 && BinIndex(Dtmf1[1]) == 60 && BinIndex(Dtmf1[2]) == 67 && BinIndex(Dtmf1[3]) == 74
  {
  }

  /** Every DTMF tone falls in a bin of the packed spectrum. */
  lemma {:induction false} TonesInSpectrum()
    ensures BinsInSpectrum(Dtmf0) && BinsInSpectrum(Dtmf1)
  {
    BinsOfTones();
  }

  /**
   * A frequency lands below the Nyquist bin SampleLength/2 = 128 exactly when
   * it is at most 1626 Hz, and at or below it exactly when it is at most 1639 Hz.
   */
  lemma {:induction false} BinBound(f: nat)
    ensures BinIndex(f) < SampleLength / 2 <==> f <= 1626
    ensures BinIndex(f) <= SampleLength / 2 <==> f <= 1639
  {
    var num := 256 * f + 1633;
    assert num == 3266 * BinIndex(f) + num % 3266;
  }

  /**
   * FindTone as written reads Buffer.realp[index] and Buffer.imagp[index] of the
   * buffer { M, M + 128 } of SampleLength floats, that is M[index] and
   * M[128 + index].  Both lie in the buffer for every candidate exactly when
   * this holds.
   */
  predicate ReadsInBuffer(freqs: seq<nat>)
  {
    forall i :: 0 <= i < |freqs| ==> SampleLength / 2 + BinIndex(freqs[i]) < SampleLength
  }

  /**
   * The reads of FindTone as written stay in the buffer exactly when every
   * candidate is at most 1626 Hz.  DTMF1 passes; DTMF0 does not: 1633 Hz is
   * bin 128, and Buffer.imagp[128] is M[256], one past the 256 floats.
   */
  lemma {:induction false} HighGroupReadsPastBuffer(freqs: seq<nat>)
    ensures ReadsInBuffer(freqs) <==> forall i :: 0 <= i < |freqs| ==> freqs[i] <= 1626
    ensures ReadsInBuffer(Dtmf1)
    ensures !ReadsInBuffer(Dtmf0) && SampleLength / 2 + BinIndex(Dtmf0[3]) == SampleLength
  {
    forall i | 0 <= i < |freqs| {
      BinBound(freqs[i]);
    }
    forall i | 0 <= i < |Dtmf1| {
      BinBound(Dtmf1[i]);
    }
    BinsOfTones();
  }

  /**
   * The read FindTone as written makes for bin k below 128:
   * (Buffer.realp[k], Buffer.imagp[k]), that is (M[k], M[128 + k]).
   */
  function AsWrittenBin(m: seq<Cell>, k: nat): (real, real)
    requires |m| == SampleLength && DefinedOn(m, 0, |m|) && k < SampleLength / 2
  {
    (m[k].value, m[SampleLength / 2 + k].value)
  }

  /**
   * Inside the buffer the read as written is the packed layout's bin, except
   * at bin 0: there imagp[0] holds the Nyquist bin's real part, which the read
   * as written takes for bin 0's imaginary part.  No DTMF tone falls in bin 0.
   */
  lemma {:induction false} AsWrittenBinRead(m: seq<Cell>, k: nat)
    requires |m| == SampleLength && DefinedOn(m, 0, |m|) && k < SampleLength / 2
    ensures 0 < k ==> AsWrittenBin(m, k) == PackedBin(m, k)
    ensures k == 0 ==> AsWrittenBin(m, 0) == (PackedBin(m, 0).0, PackedBin(m, SampleLength / 2).0)
    ensures forall i :: 0 <= i < 4 ==> BinIndex(Dtmf0[i]) != 0 && BinIndex(Dtmf1[i]) != 0
  {
    BinsOfTones();
  }

  /** Squared amplitude of the bin that tone f falls in, read from the packed spectrum in m. */
  function ToneAmplitude(m: seq<Cell>, f: nat): real
    requires |m| == SampleLength && DefinedOn(m, 0, |m|) && BinIndex(f) <= SampleLength / 2
  {
    var bin := PackedBin(m, BinIndex(f));
    bin.0 * bin.0 + bin.1 * bin.1
  }

  /** Every candidate's bin is a bin of the packed spectrum (at most the Nyquist bin). */
  predicate BinsInSpectrum(freqs: seq<nat>)
  {
    forall i :: 0 <= i < |freqs| ==> BinIndex(freqs[i]) <= SampleLength / 2
  }

  /**
   * Candidate `best` is the loudest of freqs in m: no candidate is louder, and
   * every earlier candidate is strictly quieter (ties go to the earliest).
   */
  predicate IsLoudest(m: seq<Cell>, freqs: seq<nat>, best: nat)
    requires |m| == SampleLength && DefinedOn(m, 0, |m|) && BinsInSpectrum(freqs)
  {
    && best < |freqs|
    && (forall i :: 0 <= i < |freqs| ==> ToneAmplitude(m, freqs[i]) <= ToneAmplitude(m, freqs[best]))
    && (forall i :: 0 <= i < best ==> ToneAmplitude(m, freqs[i]) < ToneAmplitude(m, freqs[best]))
  }

  /** At most one candidate is the loudest. */
  lemma {:induction false} LoudestIsUnique(m: seq<Cell>, freqs: seq<nat>, a: nat, b: nat)
    requires |m| == SampleLength && DefinedOn(m, 0, |m|) && BinsInSpectrum(freqs)
    requires IsLoudest(m, freqs, a) && IsLoudest(m, freqs, b)
    ensures a == b
  {
    assert ToneAmplitude(m, freqs[a]) <= ToneAmplitude(m, freqs[b]);
    assert ToneAmplitude(m, freqs[b]) <= ToneAmplitude(m, freqs[a]);
  }

  /**
   * FindTone, reading each candidate's bin through the packed layout (the
   * Nyquist bin's real part from imagp[0], bin 0 and the Nyquist bin with no
   * imaginary part).  It returns the index of the loudest candidate, and 0
   * when there are none.
   */
  method FindTone(buffer: array<Cell>, freqs: seq<nat>) returns (best: nat)
    requires buffer.Length == SampleLength && DefinedOn(buffer[..], 0, SampleLength)
    requires BinsInSpectrum(freqs)
    ensures |freqs| == 0 ==> best == 0
    ensures |freqs| > 0 ==> IsLoudest(buffer[..], freqs, best)
  {
    var m := buffer[..];
    var maximumValue: real := -1.0;
    best := 0;
    for i := 0 to |freqs|
      invariant i == 0 ==> best == 0 && maximumValue == -1.0
      invariant i > 0 ==> best < i && maximumValue == ToneAmplitude(m, freqs[best])
      invariant forall j :: 0 <= j < i ==> ToneAmplitude(m, freqs[j]) <= maximumValue
      invariant forall j :: 0 <= j < best ==> ToneAmplitude(m, freqs[j]) < maximumValue
    {
      var index := BinIndex(freqs[i]);
      var bin := PackedBin(m, index);
      var value := bin.0 * bin.0 + bin.1 * bin.1;
      assert value == ToneAmplitude(m, freqs[i]);
      if maximumValue < value {
        maximumValue := value;
        best := i;
      }
    }
  }

  // ---------------------------------------------------------------------------
  // One key's demonstration
  // ---------------------------------------------------------------------------

  /** Signal[i] = 4 * Random() for each sample in turn: the samples are the generator's next draws, scaled by 4. */
  method FillNoise(signal: array<Cell>, g: Generator)
    requires signal.Length == SampleLength
    modifies signal, g
    ensures g.seed == Advance(old(g.seed), SampleLength)
    ensures forall i :: 0 <= i < SampleLength ==> signal[i] == Def(4.0 * UnitFraction(Advance(old(g.seed), i + 1)))
  {
    for i := 0 to SampleLength
      invariant g.seed == Advance(old(g.seed), i)
      invariant forall j :: 0 <= j < i ==> signal[j] == Def(4.0 * UnitFraction(Advance(old(g.seed), j + 1)))
    {
      var r := g.Random();
      signal[i] := Def(4.0 * r);
    }
  }

  /** Signal[i] += the tone's sample i, for every sample. */
  method AddTone(signal: array<Cell>, tone: seq<real>)
    requires signal.Length == SampleLength && |tone| == SampleLength
    requires DefinedOn(signal[..], 0, SampleLength)
    modifies signal
    ensures forall i :: 0 <= i < SampleLength ==> signal[i] == Def(old(signal[i]).value + tone[i])
  {
    for i := 0 to SampleLength
      invariant forall j :: 0 <= j < i ==> signal[j] == Def(old(signal[j]).value + tone[j])
      invariant forall j :: i <= j < SampleLength ==> signal[j] == old(signal[j])
    {
      signal[i] := Def(signal[i].value + tone[i]);
    }
  }

  /**
   * Demonstrate: fill SampleLength samples with noise 4·Random(), draw two
   * phases, add the two tones, pack the samples into { M, M + 128 } with
   * vDSP_ctoz, transform them in place with vDSP_fft_zrip, and pick the
   * loudest column tone and row tone.  `tone0` and `tone1` are the sampled
   * sinusoids of the key's two frequencies and `spectrum` is the transform's
   * result; neither is computed here.  Returns the column, the row and the key
   * printed for them.
   */
  method Demonstrate(setup: FftSetup, g: Generator, tone0: seq<real>, tone1: seq<real>, spectrum: seq<real>)
    returns (col: nat, row: nat, key: char)
    requires Log2SampleLength <= setup.log2n
    requires |tone0| == SampleLength && |tone1| == SampleLength && |spectrum| == SampleLength
    modifies g
    ensures g.seed == Advance(old(g.seed), SampleLength + 2)
    ensures BinsInSpectrum(Dtmf0) && BinsInSpectrum(Dtmf1)
    ensures IsLoudest(Defs(spectrum), Dtmf0, col) && IsLoudest(Defs(spectrum), Dtmf1, row)
    ensures col < 4 && row < 4 && key == KeyAt(row, col)
  {
    var signal := Malloc(SampleLength);
    // Initialize the signal with noise.
    FillNoise(signal, g);
    // Add the tones, each started at a pseudo-random phase.
    var phase0 := g.Random();
    AddTone(signal, tone0);
    var phase1 := g.Random();
    AddTone(signal, tone1);

    col, row, key := Analyze(setup, signal, spectrum);
  }

  /**
   * The analysing half of Demonstrate: rearrange the signal into
   * { BufferMemory, BufferMemory + SampleLength/2 } with vDSP_ctoz, transform
   * it in place with vDSP_fft_zrip (whose result is `spectrum`), and pick the
   * loudest tone of each group.
   */
  method Analyze(setup: FftSetup, signal: array<Cell>, spectrum: seq<real>) returns (col: nat, row: nat, key: char)
    requires Log2SampleLength <= setup.log2n
    requires signal.Length == SampleLength && DefinedOn(signal[..], 0, SampleLength) && |spectrum| == SampleLength
    ensures BinsInSpectrum(Dtmf0) && BinsInSpectrum(Dtmf1)
    ensures IsLoudest(Defs(spectrum), Dtmf0, col) && IsLoudest(Defs(spectrum), Dtmf1, row)
    ensures col < 4 && row < 4 && key == KeyAt(row, col)
  {
    var bufferMemory := Malloc(SampleLength);
    Ctoz(signal, bufferMemory, SampleLength / 2);
    assert Pow2(Log2SampleLength) == SampleLength;
    FftZrip(setup, bufferMemory, Log2SampleLength, spectrum);

    TonesInSpectrum();
    col := FindTone(bufferMemory, Dtmf0);
    row := FindTone(bufferMemory, Dtmf1);
    key := Keys[row * 4 + col];
  }

  // ---------------------------------------------------------------------------
  // Reading keys
  // ---------------------------------------------------------------------------

  /** The value getchar returns at the end of the input. */
  const EOF: int := -1

  /** isspace in the "C" locale: space, and '\t', '\n', '\v', '\f', '\r'. */
  predicate IsSpace(c: int)
  {
    c == 32 || 9 <= c <= 13
  }

  /** toupper in the "C" locale. */
  function ToUpper(c: char): (u: char)
    ensures 'a' <= c <= 'z' ==> 'A' <= u <= 'Z' && u as int == c as int - 32
    ensures !('a' <= c <= 'z') ==> u == c
  {
    if 'a' <= c <= 'z' then (c as int - 32) as char else c
  }

  /** getchar on an input text read up to position pos: the next character and the new position, or EOF. */
  function GetChar(input: string, pos: nat): (r: (int, nat))
    requires pos <= |input|
  {
    if pos < |input| then (input[pos] as int, pos + 1) else (EOF, pos)
  }

  /** The index of the first newline of t, or |t| when there is none. */
  function LineEnd(t: string): (i: nat)
    ensures i <= |t|
  {
    if t == [] || t[0] == '\n' then 0 else 1 + LineEnd(t[1..])
  }

  /** The input split at its newlines; the last piece is whatever follows the last newline, possibly empty. */
  function Lines(t: string): (ls: seq<string>)
    ensures |ls| >= 1
    decreases |t|
  {
    var i := LineEnd(t);
    if i == |t| then [t] else [t[..i]] + Lines(t[i + 1..])
  }

  /** The first character of a line that is not white space, if there is one. */
  function FirstNonSpace(line: string): Option<char>
  {
    if line == [] then None
    else if !IsSpace(line[0] as int) then Some(line[0])
    else FirstNonSpace(line[1..])
  }

  /** The keys that the interactive loop looks up in these lines: the first non-blank character of each, upper-cased, up to the first blank line. */
  function KeysOfLines(ls: seq<string>): seq<char>
  {
    if ls == [] then []
    else match FirstNonSpace(ls[0])
      case None => []
      case Some(c) => [ToUpper(c)] + KeysOfLines(ls[1..])
  }

  /** The keys looked up in an interactive session on this input. */
  function SessionKeys(input: string): seq<char>
  {
    KeysOfLines(Lines(input))
  }

  /** The frequency pairs demonstrated for these keys: those of the keys in the table, in order. */
  function RecognizedPairs(keys: seq<char>): (ps: seq<FrequencyPair>)
    ensures |ps| <= |keys|
  {
    if keys == [] then []
    else
      var last := keys[|keys| - 1];
      RecognizedPairs(keys[..|keys| - 1]) + (if last in Keys then [ConvertKeyToFrequencies(last)] else [])
  }

  /** The first character of a line is its first non-space one when everything before it is space. */
  lemma {:induction false} FirstNonSpaceAt(line: string, j: nat)
    requires j < |line| && !IsSpace(line[j] as int)
    requires forall i :: 0 <= i < j ==> IsSpace(line[i] as int)
    ensures FirstNonSpace(line) == Some(line[j])
    decreases j
  {
    if j > 0 {
      FirstNonSpaceAt(line[1..], j - 1);
    }
  }

  /** A line of white space only has no first non-blank character. */
  lemma {:induction false} BlankLine(line: string)
    requires forall i :: 0 <= i < |line| ==> IsSpace(line[i] as int)
    ensures FirstNonSpace(line) == None
  {
    if line != [] {
      BlankLine(line[1..]);
    }
  }

  /**
   * One pass of the interactive loop on the rest t of the input: a blank first
   * line (or an empty rest) ends the session, otherwise its first non-blank
   * character is looked up and the session goes on after the line's newline,
   * if it has one.
   */
  lemma {:induction false} SessionStep(t: string, e: nat)
    requires e == LineEnd(t)
    ensures FirstNonSpace(t[..e]).None? ==> SessionKeys(t) == []
    ensures FirstNonSpace(t[..e]).Some? && e == |t| ==> SessionKeys(t) == [ToUpper(FirstNonSpace(t[..e]).value)]
    ensures FirstNonSpace(t[..e]).Some? && e < |t| ==>
      SessionKeys(t) == [ToUpper(FirstNonSpace(t[..e]).value)] + SessionKeys(t[e + 1..])
  {
    if e == |t| {
      assert t[..e] == t;
      SessionOfLastLine(t);
    } else {
      SessionOfFirstLine(t, e);
    }
  }

  /** The session on text without a newline: its one line's key, if it has one. */
  lemma {:induction false} SessionOfLastLine(t: string)
    requires LineEnd(t) == |t|
    ensures SessionKeys(t) == KeysOfLines([t])
    ensures FirstNonSpace(t).None? ==> SessionKeys(t) == []
    ensures FirstNonSpace(t).Some? ==> SessionKeys(t) == [ToUpper(FirstNonSpace(t).value)]
  {
    LinesOfLastLine(t);
    KeysOfLinesStep(t, []);
    assert [t] + [] == [t];
  }

  /** The session on text with a newline at e: the first line's key, if it has one, then the session after the newline. */
  lemma {:induction false} SessionOfFirstLine(t: string, e: nat)
    requires e == LineEnd(t) && e < |t|
    ensures FirstNonSpace(t[..e]).None? ==> SessionKeys(t) == []
    ensures FirstNonSpace(t[..e]).Some? ==> SessionKeys(t) == [ToUpper(FirstNonSpace(t[..e]).value)] + SessionKeys(t[e + 1..])
  {
    LinesOfFirstLine(t, e);
    KeysOfLinesStep(t[..e], Lines(t[e + 1..]));
  }

  /** Text without a newline is one line. */
  lemma {:induction false} LinesOfLastLine(t: string)
    requires LineEnd(t) == |t|
    ensures Lines(t) == [t]
  {
    var i := LineEnd(t);
    assert i == |t|;
  }

  /** Text with a newline at e, and none before, is its first e characters followed by the lines after the newline. */
  lemma {:induction false} LinesOfFirstLine(t: string, e: nat)
    requires e == LineEnd(t) && e < |t|
    ensures Lines(t) == [t[..e]] + Lines(t[e + 1..])
  {
    var i := LineEnd(t);
    assert i != |t|;
  }

  /** The keys of a list of lines: the first line's key, then the keys of the others, unless the first line is blank. */
  lemma {:induction false} KeysOfLinesStep(line: string, rest: seq<string>)
    ensures FirstNonSpace(line).None? ==> KeysOfLines([line] + rest) == []
    ensures FirstNonSpace(line).Some? ==> KeysOfLines([line] + rest) == [ToUpper(FirstNonSpace(line).value)] + KeysOfLines(rest)
  {
    assert ([line] + rest)[1..] == rest;
  }

  /** The first newline of t is at e (e == |t|: there is none). */
  lemma {:induction false} LineEndAt(t: string, e: nat)
    requires e <= |t| && (e < |t| ==> t[e] == '\n')
    requires forall j :: 0 <= j < e ==> t[j] != '\n'
    ensures LineEnd(t) == e
  {
    if e > 0 {
      LineEndAt(t[1..], e - 1);
    }
  }

  /** Appending a key appends its pair when it is in the table. */
  lemma {:induction false} RecognizedPairsAppend(keys: seq<char>, key: char)
    ensures RecognizedPairs(keys + [key]) == RecognizedPairs(keys) + (if key in Keys then [ConvertKeyToFrequencies(key)] else [])
  {
    assert (keys + [key])[..|keys|] == keys;
  }

  /**
   * The first loop of a pass: getchar until a character that is '\n' or not
   * white space, or EOF.  Everything consumed before that is white space
   * other than '\n'.
   */
  method SkipBlanks(input: string, from: nat) returns (c: int, pos: nat)
    requires from <= |input|
    ensures from <= pos <= |input|
    ensures c == EOF ==> pos == |input| && forall j :: from <= j < pos ==> input[j] != '\n' && IsSpace(input[j] as int)
    ensures c != EOF ==> from < pos && c == input[pos - 1] as int && (c == '\n' as int || !IsSpace(c))
    ensures c != EOF ==> forall j :: from <= j < pos - 1 ==> input[j] != '\n' && IsSpace(input[j] as int)
  {
    c, pos := GetChar(input, from).0, GetChar(input, from).1;
    while c != '\n' as int && IsSpace(c)
      invariant from <= pos <= |input|
      invariant c == EOF ==> pos == |input|
      invariant c != EOF ==> from < pos && c == input[pos - 1] as int
      invariant forall j :: from <= j < (if c == EOF then pos else pos - 1) ==> input[j] != '\n' && IsSpace(input[j] as int)
      decreases |input| - pos + (if c == EOF then 0 else 1)
    {
      c, pos := GetChar(input, pos).0, GetChar(input, pos).1;
    }
  }

  /**
   * The second loop of a pass: getchar until '\n' or EOF.  Nothing consumed
   * before that is a newline.
   */
  method SkipLine(input: string, from: nat) returns (c: int, pos: nat)
    requires from <= |input|
    ensures from <= pos <= |input|
    ensures c == EOF ==> pos == |input| && forall j :: from <= j < pos ==> input[j] != '\n'
    ensures c != EOF ==> from < pos && c == '\n' as int && input[pos - 1] == '\n'
    ensures c != EOF ==> forall j :: from <= j < pos - 1 ==> input[j] != '\n'
  {
    c, pos := GetChar(input, from).0, GetChar(input, from).1;
    while c != EOF && c != '\n' as int
      invariant from <= pos <= |input|
      invariant c == EOF ==> pos == |input|
      invariant c != EOF ==> from < pos && c == input[pos - 1] as int
      invariant forall j :: from <= j < (if c == EOF then pos else pos - 1) ==> input[j] != '\n'
      decreases |input| - pos + (if c == EOF then 0 else 1)
    {
      c, pos := GetChar(input, pos).0, GetChar(input, pos).1;
    }
  }

  /** A pass over a rest of the input whose first line is blank ends the session. */
  lemma {:induction false} BlankPass(input: string, start: nat, stop: nat)
    requires start <= stop <= |input| && (stop < |input| ==> input[stop] == '\n')
    requires forall j :: start <= j < stop ==> input[j] != '\n' && IsSpace(input[j] as int)
    ensures SessionKeys(input[start..]) == []
  {
    var t := input[start..];
    var e := stop - start;
    LineEndAt(t, e);
    assert forall j :: 0 <= j < e ==> t[..e][j] == input[start + j];
    BlankLine(t[..e]);
    SessionStep(t, e);
  }

  /**
   * A pass over a rest of the input whose first line has its first non-blank
   * character at keyAt looks up that character, upper-cased, and the session
   * goes on after the line's newline, if there is one.
   */
  lemma {:induction false} KeyPass(input: string, start: nat, keyAt: nat, stop: nat)
    requires start <= keyAt < stop <= |input| && (stop < |input| ==> input[stop] == '\n')
    requires forall j :: start <= j < keyAt ==> input[j] != '\n' && IsSpace(input[j] as int)
    requires !IsSpace(input[keyAt] as int)
    requires forall j :: keyAt <= j < stop ==> input[j] != '\n'
    ensures stop == |input| ==> SessionKeys(input[start..]) == [ToUpper(input[keyAt])]
    ensures stop < |input| ==> SessionKeys(input[start..]) == [ToUpper(input[keyAt])] + SessionKeys(input[stop + 1..])
  {
    var t := input[start..];
    var e := stop - start;
    LineEndAt(t, e);
    FirstNonSpaceAt(t[..e], keyAt - start);
    SessionStep(t, e);
    if stop < |input| {
      assert t[e + 1..] == input[stop + 1..];
    }
  }

  /**
   * One pass of the interactive loop, from position `from`: skip white space
   * other than '\n'; on '\n' or EOF there is no key (`None`).  Otherwise the
   * character read is the key, upper-cased, and the rest of its line is
   * discarded; `atEnd` tells whether that met EOF, and `pos` is the position
   * after the line's newline.
   */
  method ReadKeyLine(input: string, from: nat) returns (key: Option<char>, pos: nat, atEnd: bool)
    requires from <= |input|
    ensures from < pos <= |input| || (key.None? && pos == from)
    ensures key.None? ==> SessionKeys(input[from..]) == []
    ensures key.Some? && atEnd ==> SessionKeys(input[from..]) == [key.value]
    ensures key.Some? && !atEnd ==> SessionKeys(input[from..]) == [key.value] + SessionKeys(input[pos..])
  {
    var c: int;
    c, pos := SkipBlanks(input, from);

    // A blank line or EOF ends the session.
    if c == '\n' as int || c == EOF {
      BlankPass(input, from, if c == EOF then pos else pos - 1);
      key, pos, atEnd := None, from, c == EOF;
      return;
    }

    ghost var keyAt := pos - 1;
    var k := ToUpper(c as char);
    assert ToUpper(input[keyAt]) == k;
    c, pos := SkipLine(input, pos);
    if c == EOF {
      KeyPass(input, from, keyAt, pos);
    } else {
      KeyPass(input, from, keyAt, pos - 1);
    }
    key, atEnd := Some(k), c == EOF;
  }

  /**
   * The interactive loop of main.  Each pass (ReadKeyLine) skips white space
   * other than '\n'; a '\n' or EOF there ends the loop; otherwise the key is
   * looked up (a key of the table is demonstrated) and the rest of the line is
   * discarded, EOF ending the loop.  Each pass consumes at least one
   * character, so the loop ends on any finite input.
   */
  method ReadKeysInteractively(input: string) returns (keys: seq<char>, pairs: seq<FrequencyPair>)
    ensures keys == SessionKeys(input)
    ensures pairs == RecognizedPairs(keys)
  {
    keys, pairs := [], [];
    var pos: nat := 0;
    while true
      invariant pos <= |input|
      invariant keys + SessionKeys(input[pos..]) == SessionKeys(input)
      invariant pairs == RecognizedPairs(keys)
      decreases |input| - pos
    {
      var key, next, atEnd := ReadKeyLine(input, pos);
      if key.None? {
        SessionEnds(keys, [], SessionKeys(input));
        break;
      }
      RecognizedPairsAppend(keys, key.value);
      var f := ConvertKeyToFrequencies(key.value);
      if f.high != 0 {
        pairs := pairs + [f];
      }
      if atEnd {
        SessionEnds(keys, [key.value], SessionKeys(input));
        keys := keys + [key.value];
        break;
      }
      SessionEnds(keys, [key.value] + SessionKeys(input[next..]), SessionKeys(input));
      keys := keys + [key.value];
      pos := next;
    }
  }

  /** Regrouping the keys read so far, the next pass's keys and the rest of the session. */
  lemma {:induction false} SessionEnds(keys: seq<char>, rest: seq<char>, session: seq<char>)
    requires keys + rest == session
    ensures rest == [] ==> keys == session
    ensures |rest| > 0 ==> (keys + [rest[0]]) + rest[1..] == session
  {
    if |rest| > 0 {
      assert rest == [rest[0]] + rest[1..];
      assert keys + rest == (keys + [rest[0]]) + rest[1..];
    }
  }

  /** The keys looked up for a command-line argument: each character, upper-cased. */
  function UpperAll(s: string): (u: string)
    ensures |u| == |s| && forall i :: 0 <= i < |s| ==> u[i] == ToUpper(s[i])
  {
    seq(|s|, i requires 0 <= i < |s| => ToUpper(s[i]))
  }

  /** The characters of an argument that are reported as not recognised, in order. */
  function Unrecognized(s: string): seq<char>
  {
    if s == [] then []
    else
      var last := s[|s| - 1];
      Unrecognized(s[..|s| - 1]) + (if ToUpper(last) in Keys then [] else [last])
  }

  /**
   * One more character of an argument extends exactly one of the two lists by
   * one element: the demonstrated pairs by its pair when its upper case is a
   * key, the characters reported as not recognised by itself otherwise.
   */
  lemma {:induction false} ArgumentCharacterStep(s: string, c: char)
    ensures ToUpper(c) in Keys ==>
      && RecognizedPairs(UpperAll(s + [c])) == RecognizedPairs(UpperAll(s)) + [ConvertKeyToFrequencies(ToUpper(c))]
      && Unrecognized(s + [c]) == Unrecognized(s)
    ensures ToUpper(c) !in Keys ==>
      && RecognizedPairs(UpperAll(s + [c])) == RecognizedPairs(UpperAll(s))
      && Unrecognized(s + [c]) == Unrecognized(s) + [c]
  {
    assert (s + [c])[..|s|] == s;
    assert UpperAll(s + [c])[..|s|] == UpperAll(s);
  }

  /**
   * Every character of an argument is either demonstrated or reported, never
   * both and never neither: character i extends exactly one of the lists, the
   * one its upper case decides, so the two lengths add up to |s|.
   */
  lemma {:induction false} ArgumentCharactersAccounted(s: string)
    ensures forall i :: 0 <= i < |s| && ToUpper(s[i]) in Keys ==>
      && RecognizedPairs(UpperAll(s[..i + 1])) == RecognizedPairs(UpperAll(s[..i])) + [ConvertKeyToFrequencies(ToUpper(s[i]))]
      && Unrecognized(s[..i + 1]) == Unrecognized(s[..i])
    ensures forall i :: 0 <= i < |s| && ToUpper(s[i]) !in Keys ==>
      && RecognizedPairs(UpperAll(s[..i + 1])) == RecognizedPairs(UpperAll(s[..i]))
      && Unrecognized(s[..i + 1]) == Unrecognized(s[..i]) + [s[i]]
    ensures |RecognizedPairs(UpperAll(s))| + |Unrecognized(s)| == |s|
  {
    forall i | 0 <= i < |s|
      ensures ToUpper(s[i]) in Keys ==>
        && RecognizedPairs(UpperAll(s[..i + 1])) == RecognizedPairs(UpperAll(s[..i])) + [ConvertKeyToFrequencies(ToUpper(s[i]))]
        && Unrecognized(s[..i + 1]) == Unrecognized(s[..i])
      ensures ToUpper(s[i]) !in Keys ==>
        && RecognizedPairs(UpperAll(s[..i + 1])) == RecognizedPairs(UpperAll(s[..i]))
        && Unrecognized(s[..i + 1]) == Unrecognized(s[..i]) + [s[i]]
    {
      assert s[..i + 1] == s[..i] + [s[i]];
      ArgumentCharacterStep(s[..i], s[i]);
    }
    ArgumentLengthsAddUp(s);
  }

  /** The count of ArgumentCharactersAccounted, by induction on the argument. */
  lemma {:induction false} ArgumentLengthsAddUp(s: string)
    ensures |RecognizedPairs(UpperAll(s))| + |Unrecognized(s)| == |s|
  {
    if s != [] {
      var init := s[..|s| - 1];
      ArgumentLengthsAddUp(init);
      assert UpperAll(s)[..|s| - 1] == UpperAll(init);
    }
  }

  /** Every pair in a list of recognised pairs is a pair of the table. */
  lemma {:induction false} RecognizedPairsAreTablePairs(keys: seq<char>)
    ensures forall p :: p in RecognizedPairs(keys) ==> p.high in Dtmf0 && p.low in Dtmf1
  {
    if keys != [] {
      RecognizedPairsAreTablePairs(keys[..|keys| - 1]);
      var last := keys[|keys| - 1];
      if last in Keys {
        var n :| 0 <= n < |Keys| && Keys[n] == last;
        KeyRoundTrip(n);
      }
    }
  }

  /**
   * The argument loop of main: every character of argv[1] is upper-cased and
   * looked up independently; a key of the table is demonstrated, anything else
   * is reported as not recognised and the loop goes on.  A C string holds no
   * NUL before its end.
   */
  method ReadKeysFromArgument(arg: string) returns (pairs: seq<FrequencyPair>, rejected: seq<char>)
    requires '\0' !in arg
    ensures pairs == RecognizedPairs(UpperAll(arg))
    ensures rejected == Unrecognized(arg)
  {
    pairs, rejected := [], [];
    for i := 0 to |arg|
      invariant pairs == RecognizedPairs(UpperAll(arg[..i]))
      invariant rejected == Unrecognized(arg[..i])
    {
      assert arg[..i + 1][..i] == arg[..i];
      assert UpperAll(arg[..i + 1])[..i] == UpperAll(arg[..i]);
      var f := ConvertKeyToFrequencies(ToUpper(arg[i]));
      if f.high != 0 {
        pairs := pairs + [f];
      } else {
        rejected := rejected + [arg[i]];
      }
    }
    assert arg[..|arg|] == arg;
  }

  /** What main does, by the number of its arguments. */
  datatype Run =
    | Interactive(keys: seq<char>, pairs: seq<FrequencyPair>)
    | FromArgument(pairs: seq<FrequencyPair>, rejected: seq<char>)
    | Usage

  /**
   * main's dispatch: with no argument it reads keys from the input, with one
   * it takes the keys from the argument, with more it reports the usage and
   * fails.  `pairs` lists the pairs that Demonstrate is called with.
   */
  method RunProgram(argv: seq<string>, input: string) returns (r: Run)
    requires forall a :: a in argv ==> '\0' !in a
    ensures |argv| <= 1 ==> r == Interactive(SessionKeys(input), RecognizedPairs(SessionKeys(input)))
    ensures |argv| == 2 ==> r == FromArgument(RecognizedPairs(UpperAll(argv[1])), Unrecognized(argv[1]))
    ensures |argv| > 2 ==> r == Usage
  {
    if |argv| <= 1 {
      var keys, pairs := ReadKeysInteractively(input);
      r := Interactive(keys, pairs);
    } else if |argv| == 2 {
      var pairs, rejected := ReadKeysFromArgument(argv[1]);
      r := FromArgument(pairs, rejected);
    } else {
      r := Usage;
    }
  }

  /**
   * A line holding a NUL byte, read by getchar, is looked up as '\0'; strchr
   * finds the table's terminator at index 16, and the lookup as written reads
   * DTMF1[4], past the table.
   */
  lemma {:induction false} NulInputOverrunsTable()
    ensures SessionKeys("\0") == ['\0']
    ensures StrChr(Keys, '\0') == Some(16)
    ensures ConvertKeyToFrequenciesAsWritten('\0').None?
  {
    var t := "\0";
    LineEndAt(t, 1);
    assert t[..1] == t;
    FirstNonSpaceAt(t, 0);
    SessionStep(t, 1);
    StrChrOnKeys('\0');
  }
}
