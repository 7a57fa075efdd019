/** Two-dimensional vectors over the reals, standing for the engine's Vector2. */
module Vectors {

  datatype Vec2 = Vec2(x: real, y: real)

  const Zero := Vec2(0.0, 0.0)
  const One := Vec2(1.0, 1.0)

  function Add(a: Vec2, b: Vec2): Vec2 { Vec2(a.x + b.x, a.y + b.y) }

  function Sub(a: Vec2, b: Vec2): Vec2 { Vec2(a.x - b.x, a.y - b.y) }

  /** Componentwise product, as `Vector2 * Vector2`. */
  function Mul(a: Vec2, b: Vec2): Vec2 { Vec2(a.x * b.x, a.y * b.y) }

  function Scale(k: real, a: Vec2): Vec2 { Vec2(k * a.x, k * a.y) }

  function DistanceSquared(a: Vec2, b: Vec2): (d: real)
    ensures d >= 0.0
  {
    var dx, dy := a.x - b.x, a.y - b.y;
    dx * dx + dy * dy
  }

  function AbsReal(x: real): (r: real)
    ensures r >= 0.0 && (r == x || r == -x)
  {
    if x < 0.0 then -x else x
  }

  /** Mathf.Sign: -1, 0 or 1. */
  function Sign(x: real): (s: int)
    ensures s == -1 || s == 0 || s == 1
    ensures (s > 0 <==> x > 0.0) && (s < 0 <==> x < 0.0)
  {
    if x > 0.0 then 1 else if x < 0.0 then -1 else 0
  }

  /** Single-precision pi, as `Mathf.DegToRad(180f)`. */
  const Pi: real := 3.1415927

  /** Mathf.DegToRad. */
  function DegToRad(degrees: real): (r: real)
    ensures degrees == 180.0 ==> r == Pi
  {
    degrees * (Pi / 180.0)
  }

  /** Mathf.RadToDeg. */
  function RadToDeg(radians: real): (r: real)
    ensures radians == Pi ==> r == 180.0
  {
    radians * (180.0 / Pi)
  }

  /** The two conversions are inverse to each other. */
  lemma DegreesRoundTrip(degrees: real, radians: real)
    ensures RadToDeg(DegToRad(degrees)) == degrees
    ensures DegToRad(RadToDeg(radians)) == radians
  {
  }

  /** The engine's trigonometry, taken as given: `sin` is Mathf.Sin,
      `unit(a)` is `new Vector2(1, 0).Rotated(a)`, and `angleOf(v)` is
      `v.Angle()`. */
  datatype Trig = Trig(sin: real -> real, unit: real -> Vec2, angleOf: Vec2 -> real)
}
