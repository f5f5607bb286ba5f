/** The stateless helpers of the virtual analog stick: distance and angle of an
    offset from the anchor, the stick's rendered offset, and the dead-zone and
    smoothing response map used on the sensor path. Arithmetic is over `real`;
    `Math.sqrt`, `Math.atan`, `Math.sin` and `Math.cos` are parameters of the model
    (a `MathLib`) about which only the facts in `Sound` are known. */
module Geometry {

  /** `Math.PI`. */
  const Pi: real := 3.141592653589793

  /** The transcendental functions the stick uses, left uninterpreted. */
  datatype MathLib = MathLib(sqrt: real -> real, atan: real -> real, sin: real -> real, cos: real -> real)
  {
    /** The ranges the model relies on. */
    ghost predicate Sound()
    {
      && sqrt(0.0) == 0.0
      && (forall v :: 0.0 <= v ==> 0.0 <= sqrt(v))
      && (forall v :: 0.0 < v ==> 0.0 < atan(v) < Pi / 2.0)
      && (forall v :: -1.0 <= sin(v) <= 1.0)
      && (forall v :: -1.0 <= cos(v) <= 1.0)
    }

    /** The Pythagorean identity, kept apart from the ranges: only the length of the
        reported movement depends on it. */
    ghost predicate Pythagorean()
    {
      forall v :: sin(v) * sin(v) + cos(v) * cos(v) == 1.0
    }
  }

  /** `getMovementRadius`: the Euclidean distance of the offset from the anchor. */
  function MovementRadius(m: MathLib, x: real, y: real): (r: real)
    requires m.Sound()
    ensures 0.0 <= r
  {
    m.sqrt(x * x + y * y)
  }

  /** `getAngle`: the direction of an offset, exact on the axes and one arctangent
      per open quadrant, so that every quadrant lands in its own quarter turn. */
  function Angle(m: MathLib, x: real, y: real): (a: real)
    requires m.Sound()
    ensures 0.0 <= a < 2.0 * Pi
    ensures x > 0.0 && y < 0.0 ==> 3.0 * Pi / 2.0 < a < 2.0 * Pi
    ensures x > 0.0 && y > 0.0 ==> Pi < a < 3.0 * Pi / 2.0
    ensures x < 0.0 && y > 0.0 ==> Pi / 2.0 < a < Pi
    ensures x < 0.0 && y < 0.0 ==> 0.0 < a < Pi / 2.0
  {
    // the axes are special-cased to avoid dividing by zero
    if x == 0.0 then
      (if y < 0.0 then Pi else 0.0)
    else if y == 0.0 then
      // x is non-zero here, so one of the two branches is always taken
      (if x > 0.0 then Pi * 3.0 / 2.0 else Pi * 1.0 / 2.0)
    else if x > 0.0 then
      if y < 0.0 then
        PositiveQuotient(-y, x);
        3.0 * Pi / 2.0 + m.atan(-y / x)
      else
        PositiveQuotient(x, y);
        Pi + m.atan(x / y)
    else
      if y > 0.0 then
        PositiveQuotient(y, -x);
        Pi / 2.0 + m.atan(y / -x)
      else
        PositiveQuotient(-x, -y);
        0.0 + m.atan(-x / -y)
  }

  lemma PositiveQuotient(a: real, b: real)
    requires 0.0 < a && 0.0 < b
    ensures 0.0 < a / b
  {
  }

  lemma NonNegativeQuotient(a: real, b: real)
    requires 0.0 <= a && 0.0 < b
    ensures 0.0 <= a / b
  {
  }

  /** The exact angles on the axes. */
  lemma AngleOnAxes(m: MathLib, x: real, y: real)
    requires m.Sound()
    ensures x == 0.0 ==> Angle(m, x, y) == (if y < 0.0 then Pi else 0.0)
    ensures y == 0.0 && x > 0.0 ==> Angle(m, x, y) == 3.0 * Pi / 2.0
    ensures y == 0.0 && x < 0.0 ==> Angle(m, x, y) == Pi / 2.0
  {
  }

  /** `getAbs`. */
  function GetAbs(v: real): (r: real)
    ensures 0.0 <= r && (r == v || r == -v)
  {
    if v < 0.0 then -v else v
  }

  /** `getVectorDirection`: the sign of a value as -1, 0 or 1. */
  function VectorDirection(v: real): (d: real)
    ensures d == -1.0 || d == 0.0 || d == 1.0
    ensures d * GetAbs(v) == v
    ensures d * v == GetAbs(v)
  {
    if v < 0.0 then -1.0 else if v == 0.0 then 0.0 else 1.0
  }

  /** The magnitude `mapResponse` targets for an input of magnitude `abs` past the
      input dead zone `dz`: the live range from `dz` up is rescaled linearly onto the
      range that starts at the output dead zone `adz`. */
  function ResponseTarget(abs: real, dz: real, adz: real): real
    requires dz != 1.0
  {
    adz + (abs - dz) / (1.0 - dz) * (1.0 - adz)
  }

  /** The rescaling maps the edge of the dead zone to `adz` and full deflection to
      1, and for `dz < 1` and `adz <= 1` it never falls below `adz` nor rises above 1
      on that range, and it is monotone. */
  lemma ResponseTargetRange(abs: real, dz: real, adz: real)
    requires dz < 1.0 && adz <= 1.0
    ensures ResponseTarget(dz, dz, adz) == adz
    ensures ResponseTarget(1.0, dz, adz) == 1.0
    ensures dz <= abs ==> adz <= ResponseTarget(abs, dz, adz)
    ensures abs <= 1.0 ==> ResponseTarget(abs, dz, adz) <= 1.0
  {
    var k := (1.0 - adz) / (1.0 - dz);
    NonNegativeQuotient(1.0 - adz, 1.0 - dz);
    assert ResponseTarget(abs, dz, adz) == adz + (abs - dz) * k;
    assert ResponseTarget(1.0, dz, adz) == adz + (1.0 - dz) * k;
    assert (1.0 - dz) * k == 1.0 - adz;
    if dz <= abs {
      assert 0.0 <= (abs - dz) * k;
    }
    if abs <= 1.0 {
      assert (abs - dz) * k <= (1.0 - dz) * k;
    }
  }

  /** `mapResponse`: zero inside the dead zone; past it, the rescaled magnitude with
      the input's sign, blended from `last` by `smooth`. */
  function MapResponse(value: real, last: real, dz: real, adz: real, smooth: real): (r: real)
    requires dz != 1.0
    ensures GetAbs(value) < dz ==> r == 0.0
    ensures dz <= GetAbs(value) ==>
              var target := ResponseTarget(GetAbs(value), dz, adz) * VectorDirection(value);
              && (0.0 <= smooth <= 1.0 ==> (last <= r <= target || target <= r <= last))
              && (smooth == 1.0 ==> r == target)
              && (smooth == 0.0 ==> r == last)
              && r - last == smooth * (target - last)
  {
    var abs := GetAbs(value);
    var dir := VectorDirection(value);
    if abs < dz then
      0.0
    else
      var target := ResponseTarget(abs, dz, adz) * dir;
      var r := last + (target - last) * smooth;
      if 0.0 <= smooth <= 1.0 then
        Blend(last, target, smooth, r);
        r
      else
        r
  }

  lemma Blend(last: real, target: real, smooth: real, r: real)
    requires 0.0 <= smooth <= 1.0
    requires r == last + (target - last) * smooth
    ensures last <= r <= target || target <= r <= last
  {
    var d := target - last;
    assert d * (1.0 - smooth) == d - d * smooth;
    if 0.0 <= d {
      ProductNonNegative(d, smooth);
      ProductNonNegative(d, 1.0 - smooth);
    } else {
      ProductNonNegative(-d, smooth);
      ProductNonNegative(-d, 1.0 - smooth);
      assert (-d) * smooth == -(d * smooth);
      assert (-d) * (1.0 - smooth) == -(d * (1.0 - smooth));
    }
  }

  lemma ProductNonNegative(a: real, b: real)
    requires 0.0 <= a && 0.0 <= b
    ensures 0.0 <= a * b
  {
  }

  /** The offset of the drawn stick from the anchor, as `updatePosition` computes it
      from the polar coordinates (`correlated_x`, `correlated_y`). */
  function StickOffsetX(m: MathLib, angle: real, radius: real): real
  {
    m.cos(Pi / 2.0 - angle) * radius
  }

  function StickOffsetY(m: MathLib, angle: real, radius: real): real
  {
    m.sin(Pi / 2.0 - angle) * radius
  }

  /** The normalized pair that `updatePosition` reports: each component lies in
      [-1, 1] while the radius is within the travel. */
  lemma MovementWithinUnitRange(m: MathLib, angle: real, radius: real, travel: real)
    requires m.Sound() && 0.0 < travel && 0.0 <= radius <= travel
    ensures -1.0 <= -StickOffsetX(m, angle, radius) / travel <= 1.0
    ensures -1.0 <= StickOffsetY(m, angle, radius) / travel <= 1.0
  {
    var c, s := m.cos(Pi / 2.0 - angle), m.sin(Pi / 2.0 - angle);
    var f := radius / travel;
    assert 0.0 <= f <= 1.0;
    assert -StickOffsetX(m, angle, radius) / travel == -(c * f);
    assert StickOffsetY(m, angle, radius) / travel == s * f;
    UnitTimesFraction(c, f);
    UnitTimesFraction(s, f);
  }

  /** The pair's length is the radius as a fraction of the travel, so it is exactly
      1 at full travel and 0 at the anchor. */
  lemma MovementLength(m: MathLib, angle: real, radius: real, travel: real)
    requires m.Pythagorean() && 0.0 < travel
    ensures var x, y := -StickOffsetX(m, angle, radius) / travel, StickOffsetY(m, angle, radius) / travel;
            x * x + y * y == (radius / travel) * (radius / travel)
  {
    var c, s := m.cos(Pi / 2.0 - angle), m.sin(Pi / 2.0 - angle);
    var f := radius / travel;
    assert -StickOffsetX(m, angle, radius) / travel == -(c * f);
    assert StickOffsetY(m, angle, radius) / travel == s * f;
    assert c * c + s * s == 1.0;
    assert (-(c * f)) * (-(c * f)) + (s * f) * (s * f) == (c * c + s * s) * (f * f);
  }

  lemma UnitTimesFraction(u: real, f: real)
    requires -1.0 <= u <= 1.0 && 0.0 <= f <= 1.0
    ensures -1.0 <= u * f <= 1.0
  {
    ProductNonNegative(1.0 - u, f);
    ProductNonNegative(1.0 + u, f);
    assert (1.0 - u) * f == f - u * f;
    assert (1.0 + u) * f == f + u * f;
  }
}
