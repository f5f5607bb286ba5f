/** Java's integer widths and its float-to-short narrowing (section 5.1.3 of the
    Java Language Specification), written out over unbounded integers and reals. */
module Numerics {

  /** Java `short`. */
  newtype int16 = x: int | -0x8000 <= x < 0x8000

  /** Java `byte`. */
  newtype int8 = x: int | -0x80 <= x < 0x80

  const IntMin: int := -0x8000_0000
  const IntMax: int := 0x7FFF_FFFF

  /** The factor the listeners scale a normalized axis value by (`0x7FFE`). */
  const AxisScale: real := 32766.0

  /** Rounding toward zero, the first step of float-to-int narrowing. */
  function Trunc(r: real): (t: int)
    ensures 0.0 <= r ==> 0 <= t && t as real <= r < t as real + 1.0
    ensures r < 0.0 ==> t <= 0 && t as real - 1.0 < r <= t as real
  {
    if r >= 0.0 then r.Floor else -((-r).Floor)
  }

  /** Float to `int`: round toward zero, then saturate at the `int` range. */
  function FloatToInt(r: real): (i: int)
    ensures IntMin <= i <= IntMax
    ensures IntMin <= Trunc(r) <= IntMax ==> i == Trunc(r)
    ensures Trunc(r) > IntMax ==> i == IntMax
    ensures Trunc(r) < IntMin ==> i == IntMin
  {
    var t := Trunc(r);
    if t > IntMax then IntMax else if t < IntMin then IntMin else t
  }

  /** `int` to `short`: keep the low 16 bits, read as two's complement. */
  function IntToShort(i: int): (s: int16)
    ensures (s as int - i) % 0x1_0000 == 0
    ensures -0x8000 <= i < 0x8000 ==> s as int == i
  {
    ((i + 0x8000) % 0x1_0000 - 0x8000) as int16
  }

  /** The cast `(short) f` of a float value `f`. */
  function FloatToShort(r: real): int16
  {
    IntToShort(FloatToInt(r))
  }

  /** `(short) (v * 0x7FFE)`, the value a listener stores for a normalized axis `v`. */
  function AxisValue(v: real): (s: int16)
    ensures -1.0 <= v <= 1.0 ==> s as int == Trunc(v * AxisScale) && -0x7FFE <= s <= 0x7FFE
  {
    FloatToShort(v * AxisScale)
  }

  /** The rest position and both ends of the normalized range map to 0 and +-0x7FFE;
      a value just short of 1 is truncated, not rounded. */
  lemma AxisValueEndpoints()
    ensures AxisValue(0.0) == 0
    ensures AxisValue(1.0) == 0x7FFE && AxisValue(-1.0) == -0x7FFE
    ensures AxisValue(0.99999) == 0x7FFE - 1 && AxisValue(-0.99999) == -(0x7FFE - 1)
  {
  }
}
