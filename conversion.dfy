/**
 * The conversion from a computed real sample to the codec's 16-bit signed
 * sample format, as both interrupt handlers perform it with a C `(short)`
 * cast before writing to the codec.
 *
 * The cast truncates toward zero. When the truncated value does not fit in
 * 16 bits the C language does not fix the result, so the model does not
 * pick one: it reports the truncated value as out of range.
 */
module Conversion {

  const ShortMin: int := -32768
  const ShortMax: int := 32767

  /** A value of the C type `short` on the target (16-bit two's complement). */
  type Short = i: int | -32768 <= i <= 32767

  /** `t` is `r` rounded toward zero, the way C converts a floating value to an integer. */
  ghost predicate TruncatesTo(r: real, t: int)
  {
    (0.0 <= r ==> t as real <= r < t as real + 1.0) &&
    (r < 0.0 ==> t as real - 1.0 < r <= t as real)
  }

  /** Rounding toward zero. */
  function Trunc(r: real): (t: int)
    ensures TruncatesTo(r, t)
    ensures (0.0 <= r ==> 0 <= t) && (r <= 0.0 ==> t <= 0)
  {
    if 0.0 <= r then r.Floor else -((-r).Floor)
  }

  /** The outcome of `(short)r`: the sample, or the out-of-range truncated value. */
  datatype Narrowing = InRange(sample: Short) | OutOfRange(value: int)

  function ToShort(r: real): (c: Narrowing)
    ensures c.InRange? <==> -32769.0 < r < 32768.0
    ensures c.InRange? ==> TruncatesTo(r, c.sample)
    ensures c.OutOfRange? ==> TruncatesTo(r, c.value) && (c.value < ShortMin || ShortMax < c.value)
  {
    var t := Trunc(r);
    if ShortMin <= t <= ShortMax then InRange(t) else OutOfRange(t)
  }

  /** A value that is already a `short` passes the cast unchanged. */
  lemma ShortRoundTrip(v: Short)
    ensures ToShort(v as real) == InRange(v)
  {
    assert (v as real).Floor == v;
    assert (-(v as real)).Floor == -(v as int);
  }
}
