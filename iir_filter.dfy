/**
 * Direct-form IIR filter evaluated once per input sample by the codec's
 * receive interrupt (lab 5).
 *
 * Two history arrays of length N hold the last N inputs `x` and the last N
 * outputs `y`, newest first. Each interrupt shifts both one slot toward the
 * end, stores the new input and a zero placeholder in slot 0, and then
 * accumulates y[0] = sum_{i<N} b[i]*x[i] - sum_{1<=i<N} a[i]*y[i].
 */
module IirFilter {
  import opened Conversion

  // ---------------------------------------------------------------- history buffers

  /** Pushes `v` at the front of `h`, dropping its oldest entry; the length is kept. */
  function Shift<T>(h: seq<T>, v: T): (r: seq<T>)
    requires 1 <= |h|
    ensures |r| == |h| && r[0] == v
    ensures forall i :: 1 <= i < |h| ==> r[i] == h[i - 1]
  {
    [v] + h[..|h| - 1]
  }

  /** The history after pushing `vs[0]`, then `vs[1]`, ... onto `h`. */
  function RunHistory<T>(h: seq<T>, vs: seq<T>): (r: seq<T>)
    requires 1 <= |h|
    ensures |r| == |h|
  {
    if vs == [] then h else Shift(RunHistory(h, vs[..|vs| - 1]), vs[|vs| - 1])
  }

  /** Slot `j` holds the `j`-th most recent value pushed, or an older entry of `h`. */
  lemma {:induction false} RunHistoryAt<T>(h: seq<T>, vs: seq<T>, j: nat)
    requires 1 <= |h| && j < |h|
    ensures RunHistory(h, vs)[j] == if j < |vs| then vs[|vs| - 1 - j] else h[j - |vs|]
  {
    if vs != [] {
      var init := vs[..|vs| - 1];
      if j > 0 {
        RunHistoryAt(h, init, j - 1);
      }
    }
  }

  /** After at least N pushes the history is exactly the last N values, newest first. */
  lemma HistoryAfterSteps<T>(h: seq<T>, vs: seq<T>)
    requires 1 <= |h| <= |vs|
    ensures RunHistory(h, vs) == seq(|h|, j requires 0 <= j < |h| => vs[|vs| - 1 - j])
  {
    forall j | 0 <= j < |h|
      ensures RunHistory(h, vs)[j] == vs[|vs| - 1 - j]
    {
      RunHistoryAt(h, vs, j);
    }
  }

  // ---------------------------------------------------------------- difference equation

  /** sum_{i<k} b[i]*xs[i] */
  function FeedForward(b: seq<real>, xs: seq<int>, k: nat): real
    requires k <= |b| && k <= |xs|
  {
    if k == 0 then 0.0 else FeedForward(b, xs, k - 1) + b[k - 1] * xs[k - 1] as real
  }

  /** sum_{1<=i<k} a[i]*ys[i] */
  function Feedback(a: seq<real>, ys: seq<real>, k: nat): real
    requires k <= |a| && k <= |ys|
  {
    if k <= 1 then 0.0 else Feedback(a, ys, k - 1) + a[k - 1] * ys[k - 1]
  }

  /** Well-formed coefficients: N = |a| is at least one and `b` has at least N entries. */
  predicate Coefficients(a: seq<real>, b: seq<real>)
  {
    1 <= |a| <= |b|
  }

  /**
   * The difference equation on histories of length N; it is the value the
   * accumulation loop leaves in y[0] after its N turns.
   */
  function Response(a: seq<real>, b: seq<real>, xs: seq<int>, ys: seq<real>): (r: real)
    requires Coefficients(a, b) && |xs| == |a| && |ys| == |a|
    ensures r == Accumulated(a, b, xs, ys, |a|)
  {
    AccumulatedIsResponse(a, b, xs, ys, |a|);
    FeedForward(b, xs, |a|) - Feedback(a, ys, |a|)
  }

  /** The running value of y[0] after `k` turns of the accumulation loop. */
  function Accumulated(a: seq<real>, b: seq<real>, xs: seq<int>, ys: seq<real>, k: nat): (r: real)
    requires k <= |a| && k <= |b| && k <= |xs| && k <= |ys|
    ensures k == 1 ==> r == b[0] * xs[0] as real
  {
    if k == 0 then 0.0
    else
      var acc := Accumulated(a, b, xs, ys, k - 1) + b[k - 1] * xs[k - 1] as real;
      if k - 1 != 0 then acc - a[k - 1] * ys[k - 1] else acc
  }

  /** The interleaved loop computes the feed-forward sum minus the feedback sum. */
  lemma {:induction false} AccumulatedIsResponse(a: seq<real>, b: seq<real>, xs: seq<int>, ys: seq<real>, k: nat)
    requires k <= |a| && k <= |b| && k <= |xs| && k <= |ys|
    ensures Accumulated(a, b, xs, ys, k) == FeedForward(b, xs, k) - Feedback(a, ys, k)
  {
    if k > 0 {
      AccumulatedIsResponse(a, b, xs, ys, k - 1);
    }
  }

  lemma {:induction false} FeedbackIgnoresFirst(a: seq<real>, a': seq<real>, ys: seq<real>, ys': seq<real>, k: nat)
    requires k <= |a| && k <= |ys| && |a'| == |a| && |ys'| == |ys|
    requires forall i :: 1 <= i < |a| ==> a'[i] == a[i]
    requires forall i :: 1 <= i < |ys| ==> ys'[i] == ys[i]
    ensures Feedback(a', ys', k) == Feedback(a, ys, k)
  {
    if k > 1 {
      FeedbackIgnoresFirst(a, a', ys, ys', k - 1);
    }
  }

  lemma {:induction false} FeedForwardPrefix(b: seq<real>, b': seq<real>, xs: seq<int>, k: nat)
    requires k <= |b| && k <= |b'| && k <= |xs|
    requires forall i :: 0 <= i < k ==> b'[i] == b[i]
    ensures FeedForward(b', xs, k) == FeedForward(b, xs, k)
  {
    if k > 0 {
      FeedForwardPrefix(b, b', xs, k - 1);
    }
  }

  /** Neither a[0] nor the placeholder y[0] takes part in the result. */
  lemma ResponseIgnoresSlotZero(a: seq<real>, b: seq<real>, xs: seq<int>, ys: seq<real>, a0: real, y0: real)
    requires Coefficients(a, b) && |xs| == |a| && |ys| == |a|
    ensures Coefficients(a[0 := a0], b)
    ensures Response(a[0 := a0], b, xs, ys[0 := y0]) == Response(a, b, xs, ys)
  {
    FeedbackIgnoresFirst(a, a[0 := a0], ys, ys[0 := y0], |a|);
  }

  /** `b` is read only below N: entries past N never affect the result. */
  lemma ResponseReadsBBelowN(a: seq<real>, b: seq<real>, xs: seq<int>, ys: seq<real>)
    requires Coefficients(a, b) && |xs| == |a| && |ys| == |a|
    ensures Coefficients(a, b[..|a|])
    ensures Response(a, b[..|a|], xs, ys) == Response(a, b, xs, ys)
  {
    FeedForwardPrefix(b, b[..|a|], xs, |a|);
  }

  /** With N = 1, a = [1] and b = [1] the sample written is the sample just read. */
  lemma IdentityWritesSample(v: Short, ys: seq<real>)
    requires |ys| == 1
    ensures ToShort(Response([1.0], [1.0], [v], ys)) == InRange(v)
  {
    IdentityFilter([v], ys);
    ShortRoundTrip(v);
  }

  /** With N = 1, a = [1] and b = [1] the output equals the input just read. */
  lemma IdentityFilter(xs: seq<int>, ys: seq<real>)
    requires |xs| == 1 && |ys| == 1
    ensures Response([1.0], [1.0], xs, ys) == xs[0] as real
  {
    assert FeedForward([1.0], xs, 1) == FeedForward([1.0], xs, 0) + 1.0 * xs[0] as real;
  }

  // ---------------------------------------------------------------- one step as a value

  datatype History = History(xs: seq<int>, ys: seq<real>)

  /** The histories after one interrupt that reads `v`. */
  function Next(a: seq<real>, b: seq<real>, h: History, v: int): (h': History)
    requires Coefficients(a, b) && |h.xs| == |a| && |h.ys| == |a|
    ensures |h'.xs| == |a| && |h'.ys| == |a|
  {
    var xs := Shift(h.xs, v);
    var ys := Shift(h.ys, 0.0);
    History(xs, ys[0 := Response(a, b, xs, ys)])
  }

  /** The histories after successive interrupts reading `vs[0]`, `vs[1]`, ... */
  function Run(a: seq<real>, b: seq<real>, h: History, vs: seq<int>): (h': History)
    requires Coefficients(a, b) && |h.xs| == |a| && |h.ys| == |a|
    ensures |h'.xs| == |a| && |h'.ys| == |a|
  {
    if vs == [] then h else Next(a, b, Run(a, b, h, vs[..|vs| - 1]), vs[|vs| - 1])
  }

  /** The input history of the filter is the plain shift history of the samples read. */
  lemma {:induction false} RunInputHistory(a: seq<real>, b: seq<real>, h: History, vs: seq<int>)
    requires Coefficients(a, b) && |h.xs| == |a| && |h.ys| == |a|
    ensures Run(a, b, h, vs).xs == RunHistory(h.xs, vs)
  {
    if vs != [] {
      RunInputHistory(a, b, h, vs[..|vs| - 1]);
    }
  }

  /**
   * From zeroed histories, after k >= N interrupts the input history is the
   * last N samples read, newest first.
   */
  lemma InputsAfterSteps(a: seq<real>, b: seq<real>, vs: seq<int>)
    requires Coefficients(a, b) && |a| <= |vs|
    ensures Run(a, b, History(seq(|a|, _ => 0), seq(|a|, _ => 0.0)), vs).xs
         == seq(|a|, j requires 0 <= j < |a| => vs[|vs| - 1 - j])
  {
    var h := History(seq(|a|, _ => 0), seq(|a|, _ => 0.0));
    RunInputHistory(a, b, h, vs);
    HistoryAfterSteps(h.xs, vs);
  }

  /** Running `v` first and then `vs` is one `Next` step followed by the run of `vs`. */
  lemma {:induction false} RunCons(a: seq<real>, b: seq<real>, h: History, v: int, vs: seq<int>)
    requires Coefficients(a, b) && |h.xs| == |a| && |h.ys| == |a|
    ensures Run(a, b, h, [v] + vs) == Run(a, b, Next(a, b, h, v), vs)
  {
    if vs == [] {
      assert ([v] + vs)[..0] == [];
    } else {
      var init := vs[..|vs| - 1];
      RunCons(a, b, h, v, init);
      assert ([v] + vs)[..|vs|] == [v] + init;
    }
  }

  /**
   * The values y[0] of successive interrupts reading `vs`, starting from `h`.
   * The sample each interrupt writes to the codec is `ToShort` of its entry.
   */
  function Outputs(a: seq<real>, b: seq<real>, h: History, vs: seq<int>): (out: seq<real>)
    requires Coefficients(a, b) && |h.xs| == |a| && |h.ys| == |a|
    ensures |out| == |vs|
    decreases |vs|
  {
    if vs == [] then []
    else
      var h' := Next(a, b, h, vs[0]);
      [h'.ys[0]] + Outputs(a, b, h', vs[1..])
  }

  /** Entry `i` of `Outputs` is y[0] after the run of the first i+1 samples. */
  lemma {:induction false} OutputsAreRun(a: seq<real>, b: seq<real>, h: History, vs: seq<int>, i: nat)
    requires Coefficients(a, b) && |h.xs| == |a| && |h.ys| == |a| && i < |vs|
    ensures Outputs(a, b, h, vs)[i] == Run(a, b, h, vs[..i + 1]).ys[0]
    decreases i
  {
    var h' := Next(a, b, h, vs[0]);
    if i == 0 {
      assert vs[..1] == [vs[0]] + [];
      RunCons(a, b, h, vs[0], []);
    } else {
      OutputsAreRun(a, b, h', vs[1..], i - 1);
      assert vs[..i + 1] == [vs[0]] + vs[1..][..i];
      RunCons(a, b, h, vs[0], vs[1..][..i]);
    }
  }

  /**
   * The output half of the history: after a run of k interrupts, y[j] is the
   * output of the j-th most recent interrupt, for j < min(N, k).
   */
  lemma {:induction false} RunOutputHistory(a: seq<real>, b: seq<real>, h: History, vs: seq<int>, j: nat)
    requires Coefficients(a, b) && |h.xs| == |a| && |h.ys| == |a|
    requires j < |a| && j < |vs|
    ensures Run(a, b, h, vs).ys[j] == Outputs(a, b, h, vs)[|vs| - 1 - j]
  {
    var init := vs[..|vs| - 1];
    if j == 0 {
      OutputsAreRun(a, b, h, vs, |vs| - 1);
      assert vs[..|vs|] == vs;
    } else {
      var m := |vs| - 1 - j;
      RunOutputHistory(a, b, h, init, j - 1);
      OutputsAreRun(a, b, h, init, m);
      OutputsAreRun(a, b, h, vs, m);
      assert init[..m + 1] == vs[..m + 1];
    }
  }

  /**
   * A unit impulse through b = [1, 0.5], a = [1, 0] gives y[0] = 1, 0.5, 0;
   * the samples written, truncated toward zero, are 1, 0, 0.
   */
  lemma ImpulseResponse()
    ensures Outputs([1.0, 0.0], [1.0, 0.5], History([0, 0], [0.0, 0.0]), [1, 0, 0]) == [1.0, 0.5, 0.0]
    ensures var ys := Outputs([1.0, 0.0], [1.0, 0.5], History([0, 0], [0.0, 0.0]), [1, 0, 0]);
      ToShort(ys[0]) == InRange(1) && ToShort(ys[1]) == InRange(0) && ToShort(ys[2]) == InRange(0)
  {
    var a, b := [1.0, 0.0], [1.0, 0.5];
    var h0 := History([0, 0], [0.0, 0.0]);
    ImpulseStep(a, b, h0, 1, 1.0);
    var h1 := History([1, 0], [1.0, 0.0]);
    ImpulseStep(a, b, h1, 0, 0.5);
    var h2 := History([0, 1], [0.5, 1.0]);
    ImpulseStep(a, b, h2, 0, 0.0);
    var h3 := History([0, 0], [0.0, 0.5]);
    assert Outputs(a, b, h3, []) == [];
    assert Outputs(a, b, h2, [0]) == [0.0];
    assert Outputs(a, b, h1, [0, 0]) == [0.5, 0.0];
  }

  /** One step of the order-two filter b = [1, 0.5], a = [1, 0], worked out. */
  lemma ImpulseStep(a: seq<real>, b: seq<real>, h: History, v: int, r: real)
    requires a == [1.0, 0.0] && b == [1.0, 0.5] && |h.xs| == 2 && |h.ys| == 2
    requires r == v as real + 0.5 * h.xs[0] as real
    ensures Next(a, b, h, v) == History([v, h.xs[0]], [r, h.ys[0]])
  {
    var xs := Shift(h.xs, v);
    var ys := Shift(h.ys, 0.0);
    assert xs == [v, h.xs[0]] && ys == [0.0, h.ys[0]];
    assert FeedForward(b, xs, 2) == FeedForward(b, xs, 1) + 0.5 * xs[1] as real;
    assert FeedForward(b, xs, 1) == FeedForward(b, xs, 0) + 1.0 * xs[0] as real;
    assert Feedback(a, ys, 2) == Feedback(a, ys, 1) + 0.0 * ys[1];
  }

  // ---------------------------------------------------------------- the filter state

  /** The globals `a`, `b`, `N` and the heap arrays `x` and `y`. */
  class Filter {
    const a: seq<real>
    const b: seq<real>
    const n: nat
    const x: array<Short>
    const y: array<real>

    ghost predicate Valid()
    {
      Coefficients(a, b) && n == |a| && x.Length == n && y.Length == n
    }

    ghost function State(): History
      reads x, y
    {
      History(x[..], y[..])
    }

    /** N = |a|, and the two `calloc`ed (zeroed) history arrays. */
    constructor (a: seq<real>, b: seq<real>)
      requires Coefficients(a, b)
      ensures Valid() && this.a == a && this.b == b && fresh(x) && fresh(y)
      ensures x[..] == seq(|a|, _ => 0) && y[..] == seq(|a|, _ => 0.0)
    {
      this.a, this.b, n := a, b, |a|;
      x := new Short[|a|](_ => 0);
      y := new real[|a|](_ => 0.0);
    }

    /** The initialisation loop of `main`: both histories become all zero. */
    method ZeroFill()
      requires Valid()
      modifies x, y
      ensures x[..] == seq(n, _ => 0) && y[..] == seq(n, _ => 0.0)
    {
      var i := 0;
      while i < n
        invariant 0 <= i <= n
        invariant forall k :: 0 <= k < i ==> x[k] == 0 && y[k] == 0.0
      {
        y[i] := 0.0;
        x[i] := 0;
        i := i + 1;
      }
    }

    /** `ISR_AIC`: shift, insert the sample read, evaluate the difference equation. */
    method Step(sample: Short) returns (out: Narrowing)
      requires Valid()
      modifies x, y
      ensures x[..] == Shift(old(x[..]), sample)
      ensures forall i :: 1 <= i < n ==> y[i] == old(y[i - 1])
      ensures y[0] == Response(a, b, x[..], y[..])
      ensures State() == Next(a, b, old(State()), sample)
      ensures out == ToShort(y[0])
    {
      ShiftIn(sample);
      ghost var ys := y[..];
      Accumulate();
      ResponseIgnoresSlotZero(a, b, x[..], ys, a[0], y[0]);
      ResponseIgnoresSlotZero(a, b, x[..], ys, a[0], 0.0);
      assert a[0 := a[0]] == a;
      ghost var placeholder := Shift(old(y[..]), 0.0);
      assert placeholder == ys[0 := 0.0];
      assert y[..] == placeholder[0 := Response(a, b, x[..], placeholder)];
      out := ToShort(y[0]);
    }

    /** The shifting loop, then the new input in slot 0; y[0] is left for `Accumulate`. */
    method ShiftIn(sample: Short)
      requires Valid()
      modifies x, y
      ensures x[..] == Shift(old(x[..]), sample)
      ensures y[..] == Shift(old(y[..]), old(y[0]))
    {
      var i := n - 1;
      while i > 0
        invariant 0 <= i < n
        invariant forall k :: 0 <= k <= i ==> x[k] == old(x[k]) && y[k] == old(y[k])
        invariant forall k :: i < k < n ==> x[k] == old(x[k - 1]) && y[k] == old(y[k - 1])
      {
        x[i] := x[i - 1];
        y[i] := y[i - 1];
        i := i - 1;
      }
      x[0] := sample;
    }

    /** The zero placeholder, then the accumulation loop: y[0] becomes the equation's value. */
    method Accumulate()
      requires Valid()
      modifies y
      ensures y[..] == old(y[..])[0 := Response(a, b, x[..], old(y[..]))]
    {
      y[0] := 0.0;
      ghost var ys := y[..];
      var i := 0;
      while i < n
        invariant 0 <= i <= n
        invariant forall k :: 1 <= k < n ==> y[k] == ys[k]
        invariant y[0] == Accumulated(a, b, x[..], ys, i)
      {
        y[0] := y[0] + b[i] * x[i] as real;
        if i != 0 {
          y[0] := y[0] - a[i] * y[i];
        }
        i := i + 1;
      }
      AccumulatedIsResponse(a, b, x[..], ys, n);
      ResponseIgnoresSlotZero(a, b, x[..], old(y[..]), a[0], 0.0);
      assert a[0 := a[0]] == a;
      assert ys == old(y[..])[0 := 0.0];
    }
  }
}
