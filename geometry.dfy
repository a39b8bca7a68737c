/** The primitives the layout imports from its `./math` module and from `Math`.
    Their code is not part of this model, so every layout function takes them as one
    record of uninterpreted values: whatever is proved holds for every choice of them. */
module Geometry {
  import opened Interfaces

  datatype MathLib = MathLib(
    /** The two points where the boundaries of two circles cross, in the primitive's own order. */
    circleIntersectionPoints: (Circle, Circle) -> (Coord, Coord),
    /** `pointAtCircle(cx, cy, r, angleDegrees)`: a point on a circle, used for labels only. */
    pointAtCircle: (real, real, real, real) -> Point,
    /** The degrees-to-radians factor `DEG2RAD`. */
    deg2rad: real,
    cos: real -> real,
    sin: real -> real,
    sqrt: real -> real)
}
