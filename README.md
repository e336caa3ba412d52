# Real-time audio kernels: table-lookup sine synthesis and a direct-form IIR filter

This project models the two sample-by-sample kernels of the NoiseSilencer
DSP labs. Each kernel is the body of a codec interrupt handler that runs
once per sample.

- **Lab 3, sine synthesiser** (`sine_synth.dfy`, module `SineSynth`). A
  256-entry table holds one period of a reference waveform. On each interrupt
  the call counter `sine_index` becomes the table index
  `floor(n·f·T/fs) mod T`, and the counter goes up by one. The looked-up
  value is folded so that it is never positive (`wave < 0 ? wave : -wave`),
  scaled by 32767 and cast to `short`. The globals `table`, `sine_index`,
  `sine_freq` and `sampling_freq` form the class `SineGenerator`. The index
  formula and the shaping are pure functions.
- **Lab 5, IIR filter** (`iir_filter.dfy`, module `IirFilter`). Two history
  arrays of length `N = |a|` hold the last N inputs `x` (shorts) and the last
  N outputs `y`. Each interrupt does three things:
  1. It shifts both arrays one slot toward the end, in place.
  2. It stores the sample just read in `x[0]` and a zero placeholder in `y[0]`.
  3. It accumulates `y[0] = Σ_{i<N} b[i]·x[i] − Σ_{1≤i<N} a[i]·y[i]`.

  The class `Filter` holds the arrays. Its methods are proved against pure
  functions: `ShiftIn` against `Shift`, `Accumulate` against `Response`, and
  `Step` against `Next`. `Run` is `Next` iterated over a sequence of samples.
- **The `(short)` cast** (`conversion.dfy`, module `Conversion`). Both
  handlers use it before writing to the codec. It truncates toward zero. When
  the truncated value does not fit in 16 bits, the C language leaves the
  result open. The model does not choose wrap or saturate here: it returns
  `OutOfRange(value)` with the truncated value.

The codec primitives are replaced by parameters and results. The sample
returned by `mono_read_16Bit` is the parameter of `Filter.Step`. The value
passed to `mono_write_16Bit` is the result of `SineGenerator.Isr` and
`Filter.Step`. The C library `sin` is the constructor parameter
`reference: real -> real` and stays abstract. Table entries, the output
history `y` and the coefficients are modelled as `real`. The `float` sine
frequency `sine_freq` and the `int` sampling frequency are modelled as
positive whole numbers. `x` entries are `int` values in the `short` range.

Modelling choices that follow from the code:

- N is taken from `a` alone (`lab5/RTDSP/intio.c:48`), and `b` is read only
  below N (`lab5/RTDSP/intio.c:153-154`). The model therefore requires
  `1 <= |a| <= |b|`.
- `main` enables interrupts (`init_HWI`, `lab5/RTDSP/intio.c:92`) before its
  zero-fill loop (`lab5/RTDSP/intio.c:95-98`). The arrays come from `calloc`
  (`lab5/RTDSP/intio.c:86-87`) and are already zero. So the constructor
  yields zeroed histories, and `ZeroFill` keeps them zero.
- The index is computed in `float` from a signed `int` counter and converted
  to `unsigned` (`lab3/RTDSP/intio.c:157`). The model's index is the exact
  integer floor of n·f·T/fs, over an unbounded `nat` counter.

## Model

| member | source | states |
|---|---|---|
| Conversion.Trunc | lab3/RTDSP/intio.c:172 | The result is the argument rounded toward zero: non-negative values round down, negative values round up, and the sign is kept. |
| Conversion.ToShort | lab5/RTDSP/intio.c:159 | `(short)r` is in range exactly when -32769 < r < 32768, and then the sample is r truncated toward zero. Otherwise the truncated value is reported and lies outside [-32768, 32767]. |
| Conversion.ShortRoundTrip | lab5/RTDSP/intio.c:159 | A value that is already a `short` passes the cast unchanged. |
| SineSynth.Phase | lab3/RTDSP/intio.c:157 | The phase p satisfies p·fs ≤ n·f·T < (p+1)·fs, so it is the exact floor of n·f·T/fs. The float rounding before the cast to `unsigned` is listed under Left out. |
| SineSynth.TableIndex | lab3/RTDSP/intio.c:157-158 | The index is in [0, T) for every counter value, and it differs from the floor phase by a multiple of T (it is that phase mod T). |
| SineSynth.DefaultIndex | lab3/RTDSP/intio.c:157-158 | With f = 1000, fs = 8000 and T = 256, the index on call n is (32·n) mod 256, giving the sequence 0, 32, 64, 96, … |
| SineSynth.Periodic | lab3/RTDSP/intio.c:157-158 | When k·f is a multiple of fs, the index at counter n+k equals the index at counter n, for every n. |
| SineSynth.DefaultPeriod | lab3/RTDSP/intio.c:155-161 | With the default rates, the index sequence repeats every 8 calls. |
| SineSynth.Shape | lab3/RTDSP/intio.c:170 | The shaped value is never positive and has the same magnitude as the table value (it is either w or −w). |
| SineSynth.SlotPhase | lab3/RTDSP/intio.c:150 | The phase 2π·i/T of slot i < T lies within one period, in [0, 2π). |
| SineSynth.ReferenceTable | lab3/RTDSP/intio.c:148-151 | The table has T entries, and entry 0 is the reference waveform at phase 0. |
| SineSynth.ShapedSample | lab3/RTDSP/intio.c:170-172 | The cast of wave_out·32767 is in range exactly when that product exceeds −32769. An in-range sample is never positive, and an out-of-range value lies below −32768. |
| SineSynth.ShapedSampleInRange | lab3/RTDSP/intio.c:170-172 | If the table value has magnitude at most 1, the cast of wave_out·32767 is in range and lies in [-32767, 0]. |
| SineSynth.SineGenerator.constructor | lab3/RTDSP/intio.c:77-87 | The initial state is a zeroed 256-entry table and a counter at 0, with the configured sine and sampling frequencies. |
| SineSynth.SineGenerator.SineInit | lab3/RTDSP/intio.c:145-152 | After the call, every slot i < 256 holds reference(2π·i/256), and a ghost counter, updated by hand beside each store, records one store per slot. |
| SineSynth.SineGenerator.SineGen | lab3/RTDSP/intio.c:155-161 | The counter goes up by exactly one. The table is only read. The value returned is the table entry at TableIndex of the counter's old value. |
| SineSynth.SineGenerator.Isr | lab3/RTDSP/intio.c:164-173 | The counter goes up by one. The value written is the shaped, scaled and cast table entry at the old counter's index. If every table entry is in [-1, 1], that value is a short in [-32767, 0]. |
| IirFilter.Shift | lab5/RTDSP/intio.c:145-150 | The length is kept, slot 0 is the new value, and slot i holds the old slot i−1 for 1 ≤ i < N, so the oldest entry is dropped. |
| IirFilter.RunHistory | lab5/RTDSP/intio.c:145-148 | A history keeps its length N through any number of pushes. |
| IirFilter.RunHistoryAt | lab5/RTDSP/intio.c:145-150 | After k pushes, slot j holds the j-th most recent value pushed when j < k, and otherwise the old slot j−k. |
| IirFilter.HistoryAfterSteps | lab5/RTDSP/intio.c:145-150 | After k ≥ N pushes of v₁…v_k, the history is exactly [v_k, v_{k−1}, …, v_{k−N+1}]. |
| IirFilter.Accumulated | lab5/RTDSP/intio.c:153-157 | After the first loop turn (i = 0), y[0] holds only b[0]·x[0]: the feedback term is skipped for i = 0. |
| IirFilter.Response | lab5/RTDSP/intio.c:153-157 | The difference equation Σ b[i]·x[i] − Σ_{i≥1} a[i]·y[i] equals the value the interleaved accumulation loop reaches after N turns. |
| IirFilter.AccumulatedIsResponse | lab5/RTDSP/intio.c:153-157 | The interleaved loop value equals the feed-forward sum Σ b[i]·x[i] minus the feedback sum Σ_{i≥1} a[i]·y[i], at every loop count. |
| IirFilter.ResponseIgnoresSlotZero | lab5/RTDSP/intio.c:151-157 | Neither a[0] nor the y[0] placeholder affects the result of the difference equation. |
| IirFilter.ResponseReadsBBelowN | lab5/RTDSP/intio.c:153-154 | b is read only at indices below N: cutting b down to N entries leaves the result unchanged. |
| IirFilter.IdentityFilter | lab5/RTDSP/intio.c:153-157 | With N = 1, a = [1] and b = [1], the output equals x[0], the sample just read. |
| IirFilter.IdentityWritesSample | lab5/RTDSP/intio.c:150-159 | With N = 1, a = [1] and b = [1], the sample written to the codec is the sample just read. |
| IirFilter.Next | lab5/RTDSP/intio.c:145-157 | One interrupt as a value: both histories keep their length N. |
| IirFilter.Run | lab5/RTDSP/intio.c:140-160 | Successive interrupts keep both histories at length N. |
| IirFilter.RunInputHistory | lab5/RTDSP/intio.c:145-150 | Over any run of interrupts, the filter's input history is the plain shift history of the samples read. |
| IirFilter.InputsAfterSteps | lab5/RTDSP/intio.c:95-98 | Starting from zeroed histories, after k ≥ N interrupts x holds the last N samples read, newest first. |
| IirFilter.Outputs | lab5/RTDSP/intio.c:151-159 | Each sample read yields exactly one y[0] value. |
| IirFilter.RunOutputHistory | lab5/RTDSP/intio.c:145-157 | After k interrupts, y[j] is the output of the j-th most recent interrupt, for j < min(N, k): the output history is newest first. |
| IirFilter.RunCons | lab5/RTDSP/intio.c:140-160 | Reading v and then vs is one interrupt step for v followed by the run of vs. |
| IirFilter.OutputsAreRun | lab5/RTDSP/intio.c:151-159 | Entry i of the output sequence is y[0] after running the first i+1 samples, so `Outputs` and `Run` describe the same interrupts. |
| IirFilter.ImpulseResponse | lab5/RTDSP/intio.c:153-159 | A unit impulse through b = [1, 0.5] and a = [1, 0] from zeroed history gives y[0] values 1, 0.5, 0. The casts of those three outputs, the samples written, are 1, 0, 0. |
| IirFilter.Filter.constructor | lab5/RTDSP/intio.c:86-87 | N = \|a\|, and the two freshly allocated history arrays have length N and are all zero (calloc). |
| IirFilter.Filter.ZeroFill | lab5/RTDSP/intio.c:95-98 | Afterwards every entry of x and y is 0, whatever they held before. |
| IirFilter.Filter.Step | lab5/RTDSP/intio.c:140-160 | x[0] is the sample just read and x[i] is the old x[i−1]. y[i] is the old y[i−1] for i ≥ 1, and y[0] is the difference equation on the post-shift arrays. The new state is Next of the old one, and the value written is (short)y[0]. a, b and the array lengths do not change. |
| IirFilter.Filter.ShiftIn | lab5/RTDSP/intio.c:145-150 | The downward loop shifts x and y one slot toward the end and stores the sample in x[0]; y[0] still holds its old value. |
| IirFilter.Filter.Accumulate | lab5/RTDSP/intio.c:151-157 | Only y[0] changes. After the zero placeholder and the accumulation loop, y[0] holds the difference equation's value. |

## Left out

- Hardware and interrupt setup (`init_hardware`, `init_HWI`, the `Config` register table, `main`'s idle `while(1)` loop): they configure the board and have no behaviour to state.
- `mono_read_16Bit` and `mono_write_16Bit`: they are foreign codec I/O. The read becomes the `sample` parameter of `Filter.Step`, and the write becomes the result of `Isr` and `Step`.
- The narrowing of an out-of-range value by `(short)`: C does not fix the result, so the model reports `OutOfRange(value)` instead of choosing wrap or saturation.
- IEEE `float`/`double` rounding and the accuracy of `sin`: all arithmetic is on `real`, and the reference waveform is an abstract function. There are no error bounds and no filter-stability claims.
- Overflow of the `int` counter `sine_index`: the counter is an unbounded `nat`.
- SineSynth.Phase: is the exact floor of n·f·T/fs. The code computes the product and the quotient in `float` and truncates the result (`lab3/RTDSP/intio.c:157`). So the C index can be one off from this floor when rounding of the product or of the quotient carries it across an integer. At non-default rates (for example f = 440, fs = 44100) this can happen within a fraction of a second. At the default rates every float step is exact, and the index equals this floor, at least while n·125 < 2²⁴, that is for n ≤ 134 217. The difference is not bounded by one. Evaluated in single precision, from n = 2²⁴ the counter itself is rounded when converted to `float`, and at the default rates the index is then off by multiples of 32 (n = 2²⁴ + 1 gives index 0 in the code and 32 in the model). For 2²⁶ ≤ n < 2²⁷ the code's index stays at 0 on every call. From n = 2²⁷ the quotient reaches 2³² and its conversion to `unsigned` is undefined. All of this happens long before the `int` counter overflows at n = 2³¹. `DefaultIndex`, `Periodic` and `DefaultPeriod` hold of the model for every n, and of the code only while its float steps are exact.
- SineSynth.SineGenerator.constructor: only positive whole-number sine frequencies are modelled. The source's `sine_freq` is a `float` (`lab3/RTDSP/intio.c:81`), so a frequency such as 440.5 Hz, which the code accepts, cannot be expressed.
- `calloc` failure and heap allocation failure: allocation always succeeds in the model.
- The coefficient values from the `Matlab/*.txt` includes: these files are not part of this model. `a` and `b` are arbitrary constant sequences with `1 <= |a| <= |b|`.
- The declared but undefined `circ_fir`: it has no body to model.
- Interrupt reentrancy and the timing of the zero-fill loop relative to `init_HWI`: these are concurrency concerns. Each handler call is modelled as one atomic step.
