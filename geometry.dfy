/** Plane vectors, RGB colours and the THREE.js operations the core calls but
    whose numerics are not modelled (rotation, normalisation, polar
    direction, palette shading). */
module Geometry {
  import opened Arith

  /** A THREE.Vector2: a point or a direction in the plane. */
  datatype Vec2 = Vec2(x: real, y: real)

  function Add(a: Vec2, b: Vec2): Vec2
  {
    Vec2(a.x + b.x, a.y + b.y)
  }

  function Scale(v: Vec2, k: real): Vec2
  {
    Vec2(Mul(v.x, k), Mul(v.y, k))
  }

  /** Squared Euclidean distance; `distanceTo` is its square root. */
  function Dist2(a: Vec2, b: Vec2): real
  {
    Sq(a.x - b.x) + Sq(a.y - b.y)
  }

  lemma Dist2NonNegative(a: Vec2, b: Vec2)
    ensures Dist2(a, b) >= 0.0
  {
    SqNonNegative(a.x - b.x);
    SqNonNegative(a.y - b.y);
  }

  /** A THREE.Color, components nominally in [0,1]. */
  datatype Color = Color(r: real, g: real, b: real)

  /** The library calls treated as opaque:
      rotate(v, a)   = v.clone().rotateAround(origin, a)
      normalize(v)   = v.clone().normalize()
      polar(a)       = new Vector2(cos a, sin a)
      shade(hex, dl) = new Color(hex).offsetHSL(0, 0, dl) */
  datatype Three = Three(
    rotate: (Vec2, real) -> Vec2,
    normalize: Vec2 -> Vec2,
    polar: real -> Vec2,
    shade: (int, real) -> Color)
}
