/**
 * `Math.PI` and the two trigonometric functions the mesh generators call.
 * The functions are parameters of the model: no property proved here depends
 * on their values.
 */
module Trigonometry {
  /** `Math.PI`. */
  const Pi: real := 3.141592653589793

  /** `Math.sin` and `Math.cos`. */
  datatype Trig = Trig(sin: real -> real, cos: real -> real)
}
