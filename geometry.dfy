/**
 * Positions and directions of the scene as exact three-dimensional real
 * vectors. Unity works in single-precision floats; here the arithmetic is
 * exact, so the properties proved about motion are properties of the
 * algorithm, not of its rounding.
 */
module Geometry {

  datatype Vec = Vec(x: real, y: real, z: real)

  const Zero := Vec(0.0, 0.0, 0.0)
  const Up := Vec(0.0, 1.0, 0.0)
  const Down := Vec(0.0, -1.0, 0.0)
  const Left := Vec(-1.0, 0.0, 0.0)
  const Right := Vec(1.0, 0.0, 0.0)
  const Forward := Vec(0.0, 0.0, 1.0)
  const Back := Vec(0.0, 0.0, -1.0)

  function Add(a: Vec, b: Vec): Vec {
    Vec(a.x + b.x, a.y + b.y, a.z + b.z)
  }

  function Sub(a: Vec, b: Vec): Vec {
    Vec(a.x - b.x, a.y - b.y, a.z - b.z)
  }

  function Scale(a: Vec, k: real): Vec {
    Vec(a.x * k, a.y * k, a.z * k)
  }

  function Neg(a: Vec): Vec {
    Vec(-a.x, -a.y, -a.z)
  }

  function LengthSq(a: Vec): real {
    a.x * a.x + a.y * a.y + a.z * a.z
  }

  function Clamp01(t: real): (r: real)
    ensures 0.0 <= r <= 1.0
    ensures 0.0 <= t <= 1.0 ==> r == t
  {
    if t < 0.0 then 0.0 else if t > 1.0 then 1.0 else t
  }

  /** `Vector3.Lerp`: the point a fraction `t` (clamped to [0, 1]) of the way from `a` to `b`. */
  function Lerp(a: Vec, b: Vec, t: real): Vec {
    Add(a, Scale(Sub(b, a), Clamp01(t)))
  }

  /** `p` lies on the closed segment from `a` to `b`. */
  ghost predicate OnSegment(a: Vec, b: Vec, p: Vec) {
    exists t: real :: 0.0 <= t <= 1.0 && p == Add(a, Scale(Sub(b, a), t))
  }

  /** Interpolation never leaves the segment, and its end points are the two inputs. */
  lemma LerpOnSegment(a: Vec, b: Vec, t: real)
    ensures OnSegment(a, b, Lerp(a, b, t))
    ensures Lerp(a, b, 0.0) == a
    ensures Lerp(a, b, 1.0) == b
  {
    assert Lerp(a, b, t) == Add(a, Scale(Sub(b, a), Clamp01(t)));
  }
}
