/** Three-component vectors: the `{x, y, z}` objects of the surface code, `cross` and `normalize`. */
module Geometry {
  import opened JsMath

  datatype Vec3 = Vec3(x: real, y: real, z: real)

  const Zero: Vec3 := Vec3(0.0, 0.0, 0.0)

  function Dot(a: Vec3, b: Vec3): real
  {
    a.x * b.x + a.y * b.y + a.z * b.z
  }

  /** The radicand `normalize` hands to `Math.sqrt`. */
  function LengthSq(a: Vec3): real
  {
    a.x * a.x + a.y * a.y + a.z * a.z
  }

  function Neg(a: Vec3): Vec3
  {
    Vec3(-a.x, -a.y, -a.z)
  }

  /** The flat layout `push(v.x, v.y, v.z)` gives a vector in a buffer. */
  function Coords(a: Vec3): (s: seq<real>)
    ensures |s| == 3 && s[0] == a.x && s[1] == a.y && s[2] == a.z
  {
    [a.x, a.y, a.z]
  }

  /** `cross(a, b)`, component by component as the source writes it. */
  function Cross(a: Vec3, b: Vec3): Vec3
  {
    Vec3(a.y * b.z - b.y * a.z,
         a.z * b.x - b.z * a.x,
         a.x * b.y - b.x * a.y)
  }

  /** The cross product is orthogonal to both of its factors. */
  lemma CrossIsOrthogonal(a: Vec3, b: Vec3)
    ensures Dot(Cross(a, b), a) == 0.0 && Dot(Cross(a, b), b) == 0.0
  {
  }

  lemma CrossAntiCommutes(a: Vec3, b: Vec3)
    ensures Cross(a, b) == Neg(Cross(b, a))
  {
  }

  /** Three list entries that form a vector of unit length. */
  predicate UnitTriple(s: seq<real>)
  {
    |s| == 3 && s[0] * s[0] + s[1] * s[1] + s[2] * s[2] == 1.0
  }

  /** A vector of unit length, read back from its three list entries. */
  lemma CoordsOfUnit(a: Vec3, s: seq<real>)
    requires s == Coords(a) && LengthSq(a) == 1.0
    ensures UnitTriple(s)
  {
  }

  function Scale(a: Vec3, b: real): Vec3
    requires b != 0.0
  {
    Vec3(a.x / b, a.y / b, a.z / b)
  }

  /**
   * The value `normalize` leaves in its argument: every component divided by
   * `Math.sqrt` of the squared length. Defined only where that divisor is non-zero.
   */
  function Normalized(sqrt: real -> real, a: Vec3): Vec3
    requires sqrt(LengthSq(a)) != 0.0
  {
    Scale(a, sqrt(LengthSq(a)))
  }

  lemma ProductPositive(p: real, q: real)
    requires 0.0 < p && 0.0 < q
    ensures 0.0 < p * q
  {
  }

  lemma FactorPositive(p: real, q: real)
    requires 0.0 < q && 0.0 < p * q
    ensures 0.0 < p
  {
  }

  lemma ProductZero(p: real, q: real)
    requires p * q == 0.0
    ensures p == 0.0 || q == 0.0
  {
  }

  lemma SquareNonNegative(p: real)
    ensures 0.0 <= p * p
  {
    if p < 0.0 {
      ProductPositive(-p, -p);
    } else if 0.0 < p {
      ProductPositive(p, p);
    }
  }

  lemma SumOfSquaresZero(p: real, q: real, r: real)
    requires p * p + q * q + r * r == 0.0
    ensures p == 0.0 && q == 0.0 && r == 0.0
  {
    SquareNonNegative(p);
    SquareNonNegative(q);
    SquareNonNegative(r);
    assert p * p == 0.0 && q * q == 0.0 && r * r == 0.0;
    ProductZero(p, p);
    ProductZero(q, q);
    ProductZero(r, r);
  }

  lemma OnlyZeroHasLengthZero(a: Vec3)
    requires LengthSq(a) == 0.0
    ensures a == Zero
  {
    SumOfSquaresZero(a.x, a.y, a.z);
  }

  lemma ZeroHasLengthZero(a: Vec3)
    requires a == Zero
    ensures LengthSq(a) == 0.0
  {
  }

  lemma LengthSqZero(a: Vec3)
    ensures LengthSq(a) == 0.0 <==> a == Zero
  {
    if LengthSq(a) == 0.0 {
      OnlyZeroHasLengthZero(a);
    }
    if a == Zero {
      ZeroHasLengthZero(a);
    }
  }

  /** A square root is zero exactly when its radicand is. */
  lemma RootZeroIff(s: real, b: real)
    requires b * b == s
    ensures b == 0.0 <==> s == 0.0
  {
    if s == 0.0 {
      ProductZero(b, b);
    }
  }

  lemma QuotientSquare(p: real, b: real)
    requires b != 0.0
    ensures (p / b) * (p / b) * (b * b) == p * p
  {
    var q := p / b;
    assert q * b == p;
    calc {
      q * q * (b * b);
      (q * b) * (q * b);
      p * p;
    }
  }

  /** Dividing by a square root of the squared length gives squared length 1. */
  lemma DivideByRoot(a: Vec3, b: real)
    requires b * b == LengthSq(a) && b != 0.0
    ensures LengthSq(Vec3(a.x / b, a.y / b, a.z / b)) == 1.0
  {
    var n := Vec3(a.x / b, a.y / b, a.z / b);
    QuotientSquare(a.x, b);
    QuotientSquare(a.y, b);
    QuotientSquare(a.z, b);
    var s := LengthSq(a);
    assert LengthSq(n) * (b * b) == s;
    RootZeroIff(s, b);
    ProductZero(LengthSq(n) - 1.0, s);
  }

  /** With a true square root, `normalize` divides by zero exactly on the zero vector. */
  lemma NormalizeDefinedIff(sqrt: real -> real, a: Vec3)
    requires SquareRoot(sqrt)
    ensures sqrt(LengthSq(a)) != 0.0 <==> a != Zero
  {
    LengthSqZero(a);
    SquareNonNegative(a.x);
    SquareNonNegative(a.y);
    SquareNonNegative(a.z);
    var s := LengthSq(a);
    RootZeroIff(s, sqrt(s));
  }

  /** A non-zero vector ends `normalize` with squared length 1. */
  lemma NormalizedIsUnit(sqrt: real -> real, a: Vec3)
    requires SquareRoot(sqrt)
    requires a != Zero
    ensures sqrt(LengthSq(a)) != 0.0
    ensures LengthSq(Normalized(sqrt, a)) == 1.0
  {
    NormalizeDefinedIff(sqrt, a);
    DivideByRoot(a, sqrt(LengthSq(a)));
  }

  /** Dividing by the length keeps a vector orthogonal to whatever it was orthogonal to. */
  lemma NormalizedKeepsOrthogonality(sqrt: real -> real, a: Vec3, t: Vec3)
    requires sqrt(LengthSq(a)) != 0.0
    requires Dot(a, t) == 0.0
    ensures Dot(Normalized(sqrt, a), t) == 0.0
  {
    var b := sqrt(LengthSq(a));
    var n := Normalized(sqrt, a);
    assert Dot(n, t) == Dot(a, t) / b;
  }

  /** A mutable `{x, y, z}` object, as `cross` creates and `normalize` updates. */
  class Vector {
    var x: real
    var y: real
    var z: real

    constructor (x: real, y: real, z: real)
      ensures Value() == Vec3(x, y, z)
    {
      this.x, this.y, this.z := x, y, z;
    }

    function Value(): Vec3
      reads this
    {
      Vec3(x, y, z)
    }
  }

  /** `normalize(a)`: divides each field of `a` in place by its Euclidean length. */
  method Normalize(a: Vector, sqrt: real -> real)
    requires sqrt(LengthSq(a.Value())) != 0.0
    modifies a
    ensures a.Value() == Normalized(sqrt, old(a.Value()))
  {
    ghost var v := a.Value();
    assert a.x * a.x + a.y * a.y + a.z * a.z == LengthSq(v);
    var b := sqrt(a.x * a.x + a.y * a.y + a.z * a.z);
    a.x := a.x / b;
    a.y := a.y / b;
    a.z := a.z / b;
  }
}
