/**
 * Table-lookup sine synthesiser driven once per sample by the codec's
 * transmit interrupt (lab 3).
 *
 * A 256-entry table holds one period of the reference waveform. Each
 * interrupt turns the call counter `sineIndex` into a table index
 * floor(n*f*T/fs) mod T, bumps the counter, folds the looked-up value so that
 * it is never positive, scales it by 32767 and casts it to `short`.
 */
module SineSynth {
  import opened Conversion

  const SineTableSize: nat := 256
  const Pi: real := 3.141592653589793
  const DefaultSamplingFreq: nat := 8000
  const DefaultSineFreq: nat := 1000
  /** The codec's largest sample magnitude, the factor applied before the cast. */
  const FullScale: real := 32767.0

  // ---------------------------------------------------------------- arithmetic

  /** `q` and `r` are the Euclidean quotient and remainder of `a` by `d`. */
  lemma DivModUnique(a: int, d: int, q: int, r: int)
    requires 0 < d && a == q * d + r && 0 <= r < d
    ensures a / d == q && a % d == r
  {
    var q', r' := a / d, a % d;
    assert a == q' * d + r';
    if q' < q {
      assert (q - q') * d >= d by { MulMonotone(q - q', 1, d); }
      assert false;
    } else if q < q' {
      assert (q' - q) * d >= d by { MulMonotone(q' - q, 1, d); }
      assert false;
    }
  }

  lemma MulMonotone(x: int, y: int, d: int)
    requires y <= x && 0 < d
    ensures y * d <= x * d
  {
  }

  /** Adding a whole number of periods `c*t` does not change a residue mod `t`. */
  lemma ModAddMultiple(p: int, c: int, t: int)
    requires 0 < t
    ensures (p + c * t) % t == p % t
  {
    DivModUnique(p + c * t, t, p / t + c, p % t);
  }

  // ---------------------------------------------------------------- index formula

  /**
   * The exact floor of n*f*T/fs. The code evaluates `sine_index * sine_freq *
   * SINE_TABLE_SIZE / sampling_freq` in `float` and truncates the rounded
   * quotient to `unsigned`, so its index can be one off from this floor when
   * rounding of the product or of the quotient carries it across an integer.
   */
  function Phase(n: nat, f: nat, fs: nat, t: nat): (p: nat)
    requires 0 < fs
    ensures p * fs <= n * f * t < (p + 1) * fs
  {
    n * f * t / fs
  }

  /** The table index read on the call that finds the counter at `n`. */
  function TableIndex(n: nat, f: nat, fs: nat, t: nat): (i: nat)
    requires 0 < fs && 0 < t
    ensures i < t
    ensures (Phase(n, f, fs, t) - i) % t == 0
  {
    var p := Phase(n, f, fs, t);
    assert p - p % t == (p / t) * t;
    ModAddMultiple(0, p / t, t);
    p % t
  }

  /** With the default rates and table size the index advances by 32 per call. */
  lemma DefaultIndex(n: nat)
    ensures TableIndex(n, DefaultSineFreq, DefaultSamplingFreq, SineTableSize) == (32 * n) % 256
  {
    DivModUnique(n * 1000 * 256, 8000, 32 * n, 0);
  }

  /**
   * When `k` calls cover a whole number of waveform periods (k*f a multiple
   * of fs), the index sequence repeats after `k` calls.
   */
  lemma Periodic(n: nat, k: nat, f: nat, fs: nat, t: nat)
    requires 0 < fs && 0 < t
    requires (k * f) % fs == 0
    ensures TableIndex(n + k, f, fs, t) == TableIndex(n, f, fs, t)
  {
    var m := k * f / fs;
    assert k * f == m * fs;
    calc {
      (n + k) * f * t;
      n * f * t + (k * f) * t;
      n * f * t + (m * t) * fs;
    }
    var p := Phase(n, f, fs, t);
    DivModUnique(n * f * t + (m * t) * fs, fs, p + m * t, n * f * t - p * fs);
    assert Phase(n + k, f, fs, t) == p + m * t;
    ModAddMultiple(p, m, t);
  }

  /** At 1 kHz sampled at 8 kHz the index sequence repeats every 8 calls. */
  lemma DefaultPeriod(n: nat)
    ensures TableIndex(n + 8, DefaultSineFreq, DefaultSamplingFreq, SineTableSize)
         == TableIndex(n, DefaultSineFreq, DefaultSamplingFreq, SineTableSize)
  {
    Periodic(n, 8, DefaultSineFreq, DefaultSamplingFreq, SineTableSize);
  }

  // ---------------------------------------------------------------- table and shaping

  /** The phase 2*pi*i/t of slot `i` in a table of `t` slots. */
  function SlotPhase(i: nat, t: nat): (phase: real)
    requires 0 < t
    ensures i < t ==> 0.0 <= phase < 2.0 * Pi
  {
    2.0 * Pi * i as real / t as real
  }

  /** One period of `reference`, sampled at `t` equally spaced phases. */
  ghost function ReferenceTable(reference: real -> real, t: nat): (tbl: seq<real>)
    requires 0 < t
    ensures |tbl| == t && tbl[0] == reference(0.0)
  {
    assert SlotPhase(0, t) == 0.0;
    seq(t, i requires 0 <= i => reference(SlotPhase(i, t)))
  }

  /** The one-sided fold `wave < 0 ? wave : -wave`. */
  function Shape(w: real): (o: real)
    ensures o <= 0.0
    ensures o == w || o == -w
  {
    if w < 0.0 then w else -w
  }

  /** The value handed to the codec for a looked-up table value `w`. */
  function ShapedSample(w: real): (c: Narrowing)
    ensures c.InRange? <==> -32769.0 < Shape(w) * FullScale
    ensures c.InRange? ==> c.sample <= 0
    ensures c.OutOfRange? ==> c.value < ShortMin
  {
    ToShort(Shape(w) * FullScale)
  }

  /** A table value of magnitude at most one always yields a sample in [-32767, 0]. */
  lemma ShapedSampleInRange(w: real)
    requires -1.0 <= w <= 1.0
    ensures ShapedSample(w).InRange?
    ensures -32767 <= ShapedSample(w).sample <= 0
  {
  }

  // ---------------------------------------------------------------- the generator state

  /** The globals `table`, `sine_index`, `sine_freq` and `sampling_freq`. */
  class SineGenerator {
    const table: array<real>
    const sineFreq: nat
    const samplingFreq: nat
    /** The reference waveform `sin`, left abstract. */
    const reference: real -> real
    var sineIndex: nat

    ghost predicate Valid()
    {
      table.Length == SineTableSize && 0 < sineFreq && 0 < samplingFreq
    }

    /** Static initialisation: a zeroed table and a counter at zero. */
    constructor (f: nat, fs: nat, reference: real -> real)
      requires 0 < f && 0 < fs
      ensures Valid() && fresh(table)
      ensures sineFreq == f && samplingFreq == fs && this.reference == reference
      ensures sineIndex == 0
      ensures table[..] == seq(SineTableSize, _ => 0.0)
    {
      table := new real[SineTableSize](_ => 0.0);
      sineFreq, samplingFreq := f, fs;
      this.reference := reference;
      sineIndex := 0;
    }

    /**
     * `sine_init`: fills every slot with the reference waveform at its phase.
     * `writes` is ghost instrumentation, bumped by hand beside each store to
     * count the stores per slot; it shows every slot is written exactly once,
     * but nothing ties it to the heap write itself.
     */
    method SineInit() returns (ghost writes: seq<nat>)
      requires Valid()
      modifies table
      ensures table[..] == ReferenceTable(reference, SineTableSize)
      ensures writes == seq(SineTableSize, _ => 1)
    {
      writes := seq(SineTableSize, _ => 0);
      var i := 0;
      while i < SineTableSize
        invariant 0 <= i <= SineTableSize
        invariant forall k :: 0 <= k < i ==> table[k] == reference(SlotPhase(k, SineTableSize))
        invariant |writes| == SineTableSize
        invariant forall k :: 0 <= k < SineTableSize ==> writes[k] == if k < i then 1 else 0
      {
        table[i] := reference(SlotPhase(i, SineTableSize));
        writes := writes[i := writes[i] + 1];
        i := i + 1;
      }
      forall k | 0 <= k < SineTableSize
        ensures table[..][k] == ReferenceTable(reference, SineTableSize)[k]
      {
      }
      assert writes == seq(SineTableSize, _ => 1);
    }

    /** `sinegen`: looks up the current index and advances the counter by one. */
    method SineGen() returns (s: real)
      requires Valid()
      modifies this`sineIndex
      ensures sineIndex == old(sineIndex) + 1
      ensures s == table[TableIndex(old(sineIndex), sineFreq, samplingFreq, SineTableSize)]
    {
      var sampleIndex := TableIndex(sineIndex, sineFreq, samplingFreq, SineTableSize);
      sineIndex := sineIndex + 1;
      s := table[sampleIndex];
    }

    /** `ISR_AIC`: one output sample, folded to be non-positive and scaled. */
    method Isr() returns (out: Narrowing)
      requires Valid()
      modifies this`sineIndex
      ensures sineIndex == old(sineIndex) + 1
      ensures out == ShapedSample(table[TableIndex(old(sineIndex), sineFreq, samplingFreq, SineTableSize)])
      ensures (forall k :: 0 <= k < table.Length ==> -1.0 <= table[k] <= 1.0) ==>
        out.InRange? && -32767 <= out.sample <= 0
    {
      var wave := SineGen();
      var waveOut := Shape(wave);
      out := ToShort(waveOut * FullScale);
      if forall k :: 0 <= k < table.Length ==> -1.0 <= table[k] <= 1.0 {
        ShapedSampleInRange(wave);
      }
    }
  }
}
