/** The scalar component type shared by vec2, vec3 and vec4.
 *
 *  The source stores `float` components. The model uses `real`: rounding, infinities,
 *  NaN and signed zero are not represented. Division is not guarded in the source,
 *  so it is not guarded here either (see Quot).
 */
module Scalar {

  /** The four arithmetic operators that the vector types lift componentwise. */
  datatype Op = Plus | Minus | Times | Over

  /** Division as the vector operators perform it. For a non-zero divisor it is exact
   *  real division. The source divides by zero without any check (producing an IEEE
   *  infinity or NaN); reals have no such value, so the model yields 0.0 there. No
   *  property proved in this project depends on that value, and no caller is
   *  required to avoid a zero divisor.
   */
  function Quot(a: real, b: real): (q: real)
    ensures b != 0.0 ==> q * b == a
  {
    if b == 0.0 then 0.0 else a / b
  }

  /** The meaning of one operator on two scalars. */
  function Apply(op: Op, a: real, b: real): real
  {
    match op
    case Plus => a + b
    case Minus => a - b
    case Times => a * b
    case Over => Quot(a, b)
  }
}
