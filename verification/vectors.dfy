/**
  Two-dimensional vectors over the reals. They stand in for the single-precision
  `Vec2` of the glam crate: the arithmetic is exact, so every statement below is
  about the logic of the flock rules and not about rounding.
 */
module Vectors {

  datatype Vec2 = Vec2(x: real, y: real)

  const Zero: Vec2 := Vec2(0.0, 0.0)

  function Add(a: Vec2, b: Vec2): Vec2 {
    Vec2(a.x + b.x, a.y + b.y)
  }

  function Sub(a: Vec2, b: Vec2): Vec2 {
    Vec2(a.x - b.x, a.y - b.y)
  }

  function Scale(a: Vec2, k: real): Vec2 {
    Vec2(a.x * k, a.y * k)
  }

  function Div(a: Vec2, d: real): Vec2
    requires d != 0.0
  {
    Vec2(a.x / d, a.y / d)
  }

  function Dot(a: Vec2, b: Vec2): real {
    a.x * b.x + a.y * b.y
  }

  function LengthSq(a: Vec2): real {
    Dot(a, a)
  }

  /** glam's `distance_squared`: the squared length of `a - b`. */
  function DistSq(a: Vec2, b: Vec2): real {
    LengthSq(Sub(a, b))
  }

  /**
    `root` returns the non-negative square root of every non-negative real.
    The platform's `f32::sqrt` is not modelled; every operation that needs it
    takes such a function as a parameter instead.
   */
  ghost predicate IsSqrt(root: real -> real) {
    forall x: real :: 0.0 <= x ==> 0.0 <= root(x) && root(x) * root(x) == x
  }

  /** The product of two positive reals is positive. */
  lemma MulPos(a: real, b: real)
    requires 0.0 < a && 0.0 < b
    ensures 0.0 < a * b
  {
  }

  /** The product of two non-negative reals is non-negative. */
  lemma MulNonNeg(a: real, b: real)
    requires 0.0 <= a && 0.0 <= b
    ensures 0.0 <= a * b
  {
  }

  /** Scaling a vector by `k` scales its squared length by `k * k`. */
  lemma ScaleLengthSq(a: Vec2, k: real)
    ensures LengthSq(Scale(a, k)) == k * k * LengthSq(a)
  {
  }

  /** Comparing non-negative reals is the same as comparing their squares. */
  lemma SquareMonotone(a: real, b: real)
    requires 0.0 <= a <= b
    ensures a * a <= b * b
  {
  }
}
