/**
 * The per-sample pieces of the surface: the parametric equations, the
 * finite-difference normal estimator and the texture-coordinate map.
 */
module Surface {
  import opened JsMath
  import opened Geometry

  /** Smallest radius of the parameter domain; the equations are singular at r = 0. */
  const R_MIN: real := 0.25

  /**
   * `equations(r, theta)`: the point of the surface at polar parameters (r, θ),
   * with `Math.pow(r, 3)` written as a product.
   */
  function Equations(m: Math, r: real, theta: real): Vec3
    requires r != 0.0
  {
    Vec3(-(m.cos(theta) / (2.0 * r)) - (r * r * r * m.cos(3.0 * theta) / 6.0),
         -(m.sin(theta) / (2.0 * r)) + (r * r * r * m.sin(3.0 * theta) / 6.0),
         r * m.cos(theta))
  }

  /** The worked example: at r = 1, θ = 0 the surface point is (-2/3, 0, 1). */
  lemma EquationsAtUnitRadius(m: Math)
    requires m.cos(0.0) == 1.0 && m.sin(0.0) == 0.0
    ensures Equations(m, 1.0, 0.0) == Vec3(-2.0 / 3.0, 0.0, 1.0)
  {
    assert 3.0 * 0.0 == 0.0;
  }

  /** The forward difference `(to - from) / delta`, component by component. */
  function Difference(from: Vec3, to: Vec3, delta: real): Vec3
    requires delta != 0.0
  {
    Vec3((to.x - from.x) / delta, (to.y - from.y) / delta, (to.z - from.z) / delta)
  }

  /** What `CalculateNormal` needs so that no division it performs is by zero. */
  predicate TangentsDefined(r: real, delta: real)
  {
    delta != 0.0 && r != 0.0 && r + delta != 0.0
  }

  /** `dg_dr`: the forward difference along r. */
  function RadialTangent(m: Math, r: real, theta: real, delta: real): Vec3
    requires TangentsDefined(r, delta)
  {
    Difference(Equations(m, r, theta), Equations(m, r + delta, theta), delta)
  }

  /** `dg_dtheta`: the forward difference along θ. */
  function AngularTangent(m: Math, r: real, theta: real, delta: real): Vec3
    requires TangentsDefined(r, delta)
  {
    Difference(Equations(m, r, theta), Equations(m, r, theta + delta), delta)
  }

  /** The cross product of the two tangents, before `normalize`. */
  function RawNormal(m: Math, r: real, theta: real, delta: real): Vec3
    requires TangentsDefined(r, delta)
  {
    Cross(RadialTangent(m, r, theta, delta), AngularTangent(m, r, theta, delta))
  }

  /**
   * `normalize` divides by `Math.sqrt` of the squared length of the raw
   * normal; the estimator is defined where that divisor is non-zero.
   */
  predicate NormalDefined(m: Math, r: real, theta: real, delta: real)
  {
    TangentsDefined(r, delta) && m.sqrt(LengthSq(RawNormal(m, r, theta, delta))) != 0.0
  }

  /** The value `CalculateNormal(r, theta, delta)` returns. */
  function NormalAt(m: Math, r: real, theta: real, delta: real): Vec3
    requires NormalDefined(m, r, theta, delta)
  {
    Normalized(m.sqrt, RawNormal(m, r, theta, delta))
  }

  /**
   * With a true square root, the estimator is defined exactly where the two
   * tangents are not parallel (their cross product is not zero).
   */
  lemma NormalDefinedIff(m: Math, r: real, theta: real, delta: real)
    requires SquareRoot(m.sqrt)
    requires TangentsDefined(r, delta)
    ensures NormalDefined(m, r, theta, delta) <==> RawNormal(m, r, theta, delta) != Zero
  {
    NormalizeDefinedIff(m.sqrt, RawNormal(m, r, theta, delta));
  }

  /** With a true square root, the estimated normal has unit length. */
  lemma NormalAtIsUnit(m: Math, r: real, theta: real, delta: real)
    requires SquareRoot(m.sqrt)
    requires NormalDefined(m, r, theta, delta)
    ensures LengthSq(NormalAt(m, r, theta, delta)) == 1.0
  {
    var c := RawNormal(m, r, theta, delta);
    NormalizeDefinedIff(m.sqrt, c);
    NormalizedIsUnit(m.sqrt, c);
  }

  /** The estimated normal is orthogonal to both tangents. */
  lemma NormalAtIsOrthogonal(m: Math, r: real, theta: real, delta: real)
    requires NormalDefined(m, r, theta, delta)
    ensures Dot(NormalAt(m, r, theta, delta), RadialTangent(m, r, theta, delta)) == 0.0
    ensures Dot(NormalAt(m, r, theta, delta), AngularTangent(m, r, theta, delta)) == 0.0
  {
    var c := RawNormal(m, r, theta, delta);
    CrossIsOrthogonal(RadialTangent(m, r, theta, delta), AngularTangent(m, r, theta, delta));
    NormalizedKeepsOrthogonality(m.sqrt, c, RadialTangent(m, r, theta, delta));
    NormalizedKeepsOrthogonality(m.sqrt, c, AngularTangent(m, r, theta, delta));
  }

  /**
   * `CalculateNormal(r, theta, delta)`: forward-difference tangents, their
   * cross product in a fresh object, then `normalize` on that object in place.
   */
  method CalculateNormal(m: Math, r: real, theta: real, delta: real) returns (normal: Vector)
    requires NormalDefined(m, r, theta, delta)
    ensures fresh(normal)
    ensures normal.Value() == NormalAt(m, r, theta, delta)
  {
    var currentPoint := Equations(m, r, theta);
    var pointR := Equations(m, r + delta, theta);
    var pointTheta := Equations(m, r, theta + delta);

    var dgDr := Vec3((pointR.x - currentPoint.x) / delta,
                     (pointR.y - currentPoint.y) / delta,
                     (pointR.z - currentPoint.z) / delta);
    var dgDtheta := Vec3((pointTheta.x - currentPoint.x) / delta,
                         (pointTheta.y - currentPoint.y) / delta,
                         (pointTheta.z - currentPoint.z) / delta);

    var c := Cross(dgDr, dgDtheta);
    normal := new Vector(c.x, c.y, c.z);
    Normalize(normal, m.sqrt);
  }

  /** A texture coordinate; the source names its components `r` and `theta`. */
  datatype TexCoord = TexCoord(u: real, v: real)

  /**
   * `CalculateTextCoord(r, theta)` for the outer radius `maxR`. The second
   * component is evaluated left to right, as `(theta / 2) * Math.PI`.
   */
  function CalculateTextCoord(maxR: real, r: real, theta: real): (t: TexCoord)
    requires maxR != R_MIN
    ensures t.u * (maxR - R_MIN) == r - R_MIN
    ensures r == R_MIN ==> t.u == 0.0
    ensures r == maxR ==> t.u == 1.0
    ensures R_MIN < maxR && R_MIN <= r <= maxR ==> 0.0 <= t.u <= 1.0
    ensures 2.0 * t.v == theta * PI
    ensures 0.0 <= theta < 2.0 * PI ==> 0.0 <= t.v < PI * PI
  {
    TexCoord((r - R_MIN) / (maxR - R_MIN), theta / 2.0 * PI)
  }

  /** A corner one step beyond the outer radius maps past the texture's edge. */
  lemma TextCoordPastOuterRadius(maxR: real, r: real, theta: real)
    requires R_MIN < maxR < r
    ensures 1.0 < CalculateTextCoord(maxR, r, theta).u
  {
    var t := CalculateTextCoord(maxR, r, theta);
    var excess, width := t.u - 1.0, maxR - R_MIN;
    assert excess * width == r - maxR;
    FactorPositive(excess, width);
  }
}
