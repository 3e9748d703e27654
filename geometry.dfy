/** Plane geometry shared by the 2D painter and the triangle mesh. */
module Geometry {
  /** Twice the signed area of the triangle (x1, y1), (x2, y2), (x3, y3): positive when its vertices run counter-clockwise. */
  function SignedArea2(x1: real, y1: real, x2: real, y2: real, x3: real, y3: real): real
  {
    (x2 - x1) * (y3 - y1) - (x3 - x1) * (y2 - y1)
  }
}
