/** The few properties of Java's `double` that the model keeps: its finite range,
    the truncating `(int)` cast and what a division by zero produces. */
module Doubles {

  /** Double.MAX_VALUE, exactly: (2^53 - 1) * 2^971. */
  const MaxValue: real := 179769313486231570814527423731704356798070567525844996598917476803157260780028538760589558632766878171540458953514382464234321326889464182768467546703537516986049910576551282076245490090389328944075868508455133942304583236903222948165808559332123348274797826204144723168738177180919299881250404026184124858368.0

  /** Double.MIN_VALUE, exactly: 2^-1074, the smallest POSITIVE double. */
  const MinValue: real := 1.0 / 202402253307310618352495346718917307049556649764142118356901358027430339567995346891960383701437124495187077864316811911389808737385793476867013399940738509921517424276566361364466907742093216341239767678472745068562007483424692698618103355649159556340810056512358769552333414615230502532186327508646006263307707741093494784.0

  /** A value a Java double can hold as a finite number. A real outside this
      range stands for an infinite double; NaN has no real counterpart. */
  predicate IsFinite(x: real) {
    -MaxValue <= x <= MaxValue
  }

  /** The value used for the result of a division by zero: out of range, so
      IsFinite rejects it, as Double.isNaN / Double.isInfinite would. */
  const NonFinite: real := 2.0 * MaxValue

  /** Java's `x / d` on doubles. Division by zero yields NaN or an infinity in
      Java; here it yields a non-finite stand-in of the right sign. */
  function DivDouble(x: real, d: real): (r: real)
    ensures d != 0.0 ==> r * d == x
    ensures d == 0.0 ==> !IsFinite(r)
  {
    if d != 0.0 then x / d else if x < 0.0 then -NonFinite else NonFinite
  }

  function Abs(x: real): (r: real)
    ensures r >= 0.0 && (r == x || r == -x)
  {
    if x < 0.0 then -x else x
  }

  /** Math.min / Math.max on non-NaN arguments. */
  function Min(a: real, b: real): real { if a <= b then a else b }
  function Max(a: real, b: real): real { if a >= b then a else b }

  /** Java's `(int) x` cast: truncation toward zero (saturation at the int
      range is not modelled). */
  function Trunc(x: real): (r: int)
    ensures x >= 0.0 ==> r == x.Floor
    ensures x <= 0.0 ==> r <= 0
    ensures Abs(r as real) <= Abs(x) && Abs(x) < Abs(r as real) + 1.0
  {
    if x >= 0.0 then x.Floor else -((-x).Floor)
  }

  /** `x % 1.0 == 0.0` in Java: x has no fractional part. */
  predicate IsWhole(x: real) {
    x.Floor as real == x
  }

  /** A product is 0 only when a factor is. */
  lemma MulZero(a: real, b: real)
    requires a * b == 0.0
    ensures a == 0.0 || b == 0.0
  {
  }

  lemma SquareNonNegative(d: real)
    ensures d * d >= 0.0
  {
  }
}
