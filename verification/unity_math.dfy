/**
  The small part of the engine's maths library that the character logic uses,
  over unbounded reals instead of 32-bit floats.  Each function follows the
  engine's definition (`Mathf.Sign` returns 1 for 0, `Mathf.Clamp` tests the
  lower bound first, `Mathf.InverseLerp` returns 0 for an empty range,
  `Vector2.Lerp` clamps its parameter).
*/
module UnityMath {

  /** An optional value, for nullable results such as `AttackInfo?`. */
  datatype Option<T> = None | Some(value: T)

  datatype Vec2 = Vec2(x: real, y: real)

  datatype Vec3 = Vec3(x: real, y: real, z: real)

  function Abs(x: real): (r: real)
    ensures r >= 0.0
    ensures r == x || r == -x
  {
    if x < 0.0 then -x else x
  }

  function Min(a: real, b: real): (r: real)
    ensures r <= a && r <= b
    ensures r == a || r == b
  {
    if a < b then a else b
  }

  function Max(a: real, b: real): (r: real)
    ensures r >= a && r >= b
    ensures r == a || r == b
  {
    if a > b then a else b
  }

  /** `Mathf.Sign`: 1 for non-negative arguments (zero included), -1 otherwise. */
  function Sign(x: real): (r: real)
    ensures r == 1.0 || r == -1.0
    ensures r == 1.0 <==> x >= 0.0
    ensures r * x == Abs(x)
  {
    if x >= 0.0 then 1.0 else -1.0
  }

  /** `Mathf.Clamp`: the lower bound is checked first. */
  function Clamp(value: real, lo: real, hi: real): (r: real)
    ensures lo <= hi ==> lo <= r <= hi
    ensures lo <= value <= hi ==> r == value
  {
    if value < lo then lo else if value > hi then hi else value
  }

  function Clamp01(value: real): (r: real)
    ensures 0.0 <= r <= 1.0
    ensures 0.0 <= value <= 1.0 ==> r == value
  {
    Clamp(value, 0.0, 1.0)
  }

  /** `Mathf.InverseLerp`: where `value` lies between `a` and `b`, clamped to [0, 1]. */
  function InverseLerp(a: real, b: real, value: real): (r: real)
    ensures 0.0 <= r <= 1.0
    ensures a != b && value == a ==> r == 0.0
    ensures a != b && value == b ==> r == 1.0
  {
    if a != b then
      var d := b - a;
      var q := (value - a) / d;
      assert value == a ==> value - a == 0.0 && q == 0.0 / d;
      assert value == b ==> value - a == d && q == d / d;
      Clamp01(q)
    else 0.0
  }

  /** The turning test `a * b < 0`, written without the product: both non-zero, opposite signs. */
  predicate OppositeSigns(a: real, b: real) {
    (a < 0.0 && b > 0.0) || (a > 0.0 && b < 0.0)
  }

  lemma OppositeSignsIsNegativeProduct(a: real, b: real)
    ensures OppositeSigns(a, b) <==> a * b < 0.0
  {
    if a < 0.0 && b > 0.0 { assert a * b < 0.0; }
    else if a > 0.0 && b < 0.0 { assert a * b < 0.0; }
    else if a == 0.0 || b == 0.0 { assert a * b == 0.0; }
    else { assert a * b > 0.0; }
  }

  /** `Mathf.MoveTowards`: step from `current` towards `target` by at most `maxDelta`. */
  function MoveTowards(current: real, target: real, maxDelta: real): (r: real)
    ensures maxDelta >= 0.0 ==> Abs(r - current) <= maxDelta
    ensures maxDelta >= 0.0 ==> (current <= r <= target || target <= r <= current)
    ensures r != target ==> Abs(r - current) == Abs(maxDelta)
  {
    if Abs(target - current) <= maxDelta then target
    else current + Sign(target - current) * maxDelta
  }

  /** `Vector2.Lerp`: the point a fraction `t` (clamped to [0, 1]) of the way from `a` to `b`. */
  function Lerp(a: Vec2, b: Vec2, t: real): (r: Vec2)
    ensures t <= 0.0 ==> r == a
    ensures t >= 1.0 ==> r == b
    ensures a.y == b.y ==> r.y == a.y
  {
    var u := Clamp01(t);
    Vec2(a.x + (b.x - a.x) * u, a.y + (b.y - a.y) * u)
  }
}
