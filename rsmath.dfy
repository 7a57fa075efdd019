/** The numeric helpers of scripts/utils/RSMath.cs. */
module RSMath {
  import opened Vectors

  const TargetFPS: int := 60

  /** Componentwise absolute value. */
  function Abs(v: Vec2): (r: Vec2)
    ensures r.x >= 0.0 && r.y >= 0.0
    ensures r.x == v.x || r.x == -v.x
    ensures r.y == v.y || r.y == -v.y
  {
    Vec2(AbsReal(v.x), AbsReal(v.y))
  }

  lemma AbsIdempotent(v: Vec2)
    ensures Abs(Abs(v)) == Abs(v)
  {
  }

  /** Linear interpolation from `from` towards `to` by `amount`. */
  function Lerp(from: Vec2, to: Vec2, amount: real): (r: Vec2)
    ensures amount == 0.0 ==> r == from
    ensures amount == 1.0 ==> r == to
    ensures from == to ==> r == from
  {
    Add(from, Scale(amount, Sub(to, from)))
  }

  /** Clamps a value into [0, 1]. */
  function Clamp01(value: real): (r: real)
    ensures 0.0 <= r <= 1.0
    ensures 0.0 <= value <= 1.0 ==> r == value
    ensures value < 0.0 ==> r == 0.0
    ensures value > 1.0 ==> r == 1.0
  {
    if value < 0.0 then 0.0
    else if value > 1.0 then 1.0
    else value
  }

  lemma Clamp01Idempotent(value: real)
    ensures Clamp01(Clamp01(value)) == Clamp01(value)
  {
  }

  /** A frame delta expressed in sixtieths of a second. */
  function FixedDelta(delta: real): (r: real)
    ensures r == delta * TargetFPS as real
    ensures delta == 1.0 / 60.0 ==> r == 1.0
  {
    delta / (1.0 / TargetFPS as real)
  }

  lemma FixedDeltaLinear(a: real, b: real, k: real)
    ensures FixedDelta(a + b) == FixedDelta(a) + FixedDelta(b)
    ensures FixedDelta(k * a) == k * FixedDelta(a)
  {
  }
}
