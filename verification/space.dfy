/** Points, vectors, frames, planes and affine transformations: the geometry
    primitives the curves consume. Their own modules are not part of this
    model; what is written here is the explicit assumption the curves rely on:
    `FromFrame(f)` is the local-to-world map
    `origin + x * xaxis + y * yaxis + z * zaxis`, and vectors are mapped
    without the translation. */
module Space {
  import opened Elementary
  import opened Outcomes

  /** A point or a vector: three real components. */
  datatype Vec3 = Vec3(x: real, y: real, z: real)
  type Point = Vec3
  type Vector = Vec3

  const Zero := Vec3(0.0, 0.0, 0.0)
  const Xaxis := Vec3(1.0, 0.0, 0.0)
  const Yaxis := Vec3(0.0, 1.0, 0.0)
  const Zaxis := Vec3(0.0, 0.0, 1.0)

  function Add(a: Vec3, b: Vec3): Vec3 { Vec3(a.x + b.x, a.y + b.y, a.z + b.z) }

  function Sub(a: Vec3, b: Vec3): Vec3 { Vec3(a.x - b.x, a.y - b.y, a.z - b.z) }

  function Scale(a: Vec3, k: real): Vec3 { Vec3(a.x * k, a.y * k, a.z * k) }

  function Dot(a: Vec3, b: Vec3): real { a.x * b.x + a.y * b.y + a.z * b.z }

  function Cross(a: Vec3, b: Vec3): Vec3
  {
    Vec3(a.y * b.z - a.z * b.y, a.z * b.x - a.x * b.z, a.x * b.y - a.y * b.x)
  }

  /** The Euclidean length. */
  function Length(m: Math, v: Vector): real { m.Sqrt(Dot(v, v)) }

  /** `Vector.unitize`: divide every component by the length; a zero length
      is a division by zero. */
  function Unitize(m: Math, v: Vector): (r: Result<Vector>)
    requires Sound(m)
    ensures r.Failure? <==> v == Zero
    ensures r.Failure? ==> r.error == ZeroDivision
  {
    var l := Length(m, v);
    LengthZero(m, v);
    if l == 0.0 then
      Failure(ZeroDivision)
    else
      UnitScale(m, v, l);
      Success(Scale(v, 1.0 / l))
  }

  /** A unitized vector is unit and, scaled by the original length, gives
      the vector back. */
  lemma UnitizeUnit(m: Math, v: Vector)
    requires Sound(m) && v != Zero
    ensures Unitize(m, v).Success?
    ensures Dot(Unitize(m, v).value, Unitize(m, v).value) == 1.0
    ensures Scale(Unitize(m, v).value, Length(m, v)) == v
  {
    LengthZero(m, v);
    UnitScale(m, v, Length(m, v));
  }

  /** A unit vector is its own unitization. */
  lemma UnitizeUnitVector(m: Math, v: Vector)
    requires Sound(m) && Dot(v, v) == 1.0
    ensures Unitize(m, v) == Success(v)
  {
    SqrtOfSquare(m, 1.0);
    assert Length(m, v) == 1.0;
    assert Scale(v, 1.0 / 1.0) == v;
  }

  lemma UnitScale(m: Math, v: Vector, l: real)
    requires Sound(m) && l == Length(m, v) && l != 0.0
    ensures Dot(Scale(v, 1.0 / l), Scale(v, 1.0 / l)) == 1.0
    ensures Scale(Scale(v, 1.0 / l), l) == v
  {
    LengthSquared(m, v);
    InverseScale(v, l);
  }

  /** Scaling by `1 / l` where `l * l` is the squared length gives a unit
      vector, and scaling back by `l` restores the vector. */
  lemma InverseScale(v: Vector, l: real)
    requires l != 0.0 && l * l == Dot(v, v)
    ensures Dot(Scale(v, 1.0 / l), Scale(v, 1.0 / l)) == 1.0
    ensures Scale(Scale(v, 1.0 / l), l) == v
  {
    var k := 1.0 / l;
    assert l * k == 1.0;
    DotScale(v, k, Scale(v, k));
    DotScaleRight(v, v, k);
    assert (k * l) * (k * l) == 1.0;
    MulAssoc(v, k, l);
  }

  /** The squared length is never negative and is zero only for the zero vector. */
  lemma DotSelfZero(v: Vec3)
    ensures 0.0 <= Dot(v, v)
    ensures Dot(v, v) == 0.0 <==> v == Zero
  {
    Square(v.x);
    Square(v.y);
    Square(v.z);
    assert Dot(v, v) == Sq(v.x) + Sq(v.y) + Sq(v.z);
  }

  /** The length is zero exactly for the zero vector. */
  lemma LengthZero(m: Math, v: Vec3)
    requires Sound(m)
    ensures Length(m, v) == 0.0 <==> v == Zero
  {
    DotSelfZero(v);
    SqrtZero(m, Dot(v, v));
  }

  /** The length is non-negative and its square is the squared length. */
  lemma LengthSquared(m: Math, v: Vec3)
    requires Sound(m)
    ensures 0.0 <= Length(m, v) && Length(m, v) * Length(m, v) == Dot(v, v)
  {
    DotSelfZero(v);
    SqrtLaw(m, Dot(v, v));
  }

  /** A cross product is orthogonal to both of its factors. */
  lemma CrossOrthogonal(a: Vec3, b: Vec3)
    ensures Dot(Cross(a, b), a) == 0.0 && Dot(Cross(a, b), b) == 0.0
  {
  }

  /** Lagrange's identity: the squared length of a cross product. */
  lemma Lagrange(a: Vec3, b: Vec3)
    ensures Dot(Cross(a, b), Cross(a, b)) == Dot(a, a) * Dot(b, b) - Dot(a, b) * Dot(a, b)
  {
  }

  /** Unitizing keeps every orthogonality relation of the vector. */
  lemma UnitizeOrthogonal(m: Math, v: Vector, w: Vector)
    requires Sound(m) && Dot(v, w) == 0.0 && v != Zero
    ensures Unitize(m, v).Success? && Dot(Unitize(m, v).value, w) == 0.0
  {
    var u := Unitize(m, v).value;
    var l := Length(m, v);
    UnitizeUnit(m, v);
    assert Scale(u, l) == v;
    DotScale(u, l, w);
    assert l * Dot(u, w) == 0.0;
    ZeroProduct(l, Dot(u, w));
  }

  /** The cross product of two orthogonal unit vectors is a unit vector
      orthogonal to both, so unitizing it changes nothing. */
  lemma CrossUnit(m: Math, a: Vector, b: Vector)
    requires Sound(m) && Dot(a, a) == 1.0 && Dot(b, b) == 1.0 && Dot(a, b) == 0.0
    ensures Dot(Cross(a, b), Cross(a, b)) == 1.0
    ensures Dot(Cross(a, b), a) == 0.0 && Dot(Cross(a, b), b) == 0.0
    ensures Unitize(m, Cross(a, b)) == Success(Cross(a, b))
  {
    Lagrange(a, b);
    CrossOrthogonal(a, b);
    UnitizeUnitVector(m, Cross(a, b));
  }

  /** Unitizing a non-zero multiple of a vector gives the unitized vector,
      turned round when the factor is negative. */
  lemma UnitizeScaled(m: Math, v: Vector, k: real)
    requires Sound(m) && v != Zero && k != 0.0
    ensures Unitize(m, v).Success? && Unitize(m, Scale(v, k)).Success?
    ensures Unitize(m, Scale(v, k)).value == Scale(Unitize(m, v).value, if k > 0.0 then 1.0 else -1.0)
  {
    UnitizeUnit(m, v);
    var u, l := Unitize(m, v).value, Length(m, v);
    LengthZero(m, v);
    LengthSquared(m, v);
    MulAssoc(u, l, k);
    assert Scale(v, k) == Scale(u, l * k);
    assert (l * k > 0.0) == (k > 0.0) by {
      if k > 0.0 { Positive(l, k); } else { Positive(l, -k); }
    }
    UnitizeUnitScaled(m, u, l * k);
  }

  /** A non-zero multiple `s u` of a unit vector `u` unitizes to `u` or `-u`
      according to the sign of `s`. */
  lemma UnitizeUnitScaled(m: Math, u: Vector, s: real)
    requires Sound(m) && Dot(u, u) == 1.0 && s != 0.0
    ensures Unitize(m, Scale(u, s)).Success?
    ensures Unitize(m, Scale(u, s)).value == Scale(u, if s > 0.0 then 1.0 else -1.0)
  {
    var w := Scale(u, s);
    var n := if s > 0.0 then s else -s;
    ScaledLength(m, u, s);
    var k := 1.0 / n;
    assert Unitize(m, w) == Success(Scale(w, k));
    MulAssoc(u, s, k);
    Sign(s, n);
    assert Scale(u, s * k) == Scale(u, if s > 0.0 then 1.0 else -1.0);
  }

  /** A multiple `s u` of a unit vector has length `|s|`. */
  lemma ScaledLength(m: Math, u: Vector, s: real)
    requires Sound(m) && Dot(u, u) == 1.0
    ensures Length(m, Scale(u, s)) == if s > 0.0 then s else -s
  {
    var n := if s > 0.0 then s else -s;
    DotScaleBoth(u, s, u, s);
    assert Dot(Scale(u, s), Scale(u, s)) == n * n;
    SqrtUnique(m, Dot(Scale(u, s), Scale(u, s)), n);
  }

  lemma Sign(s: real, n: real)
    requires s != 0.0 && n == (if s > 0.0 then s else -s)
    ensures s * (1.0 / n) == (if s > 0.0 then 1.0 else -1.0)
  {
  }

  /** A unitized vector with no z component has none either. */
  lemma UnitizePlanar(m: Math, v: Vector)
    requires Sound(m) && v != Zero && v.z == 0.0
    ensures Unitize(m, v).Success? && Unitize(m, v).value.z == 0.0
  {
    UnitizeUnit(m, v);
    var u := Unitize(m, v).value;
    assert u.z * Length(m, v) == 0.0;
    LengthZero(m, v);
    ZeroProduct(u.z, Length(m, v));
  }

  /** Orthogonality survives scaling either side. */
  lemma ScaleOrthogonal(a: Vec3, b: Vec3, k: real)
    requires Dot(a, b) == 0.0
    ensures Dot(Scale(a, k), b) == 0.0 && Dot(b, Scale(a, k)) == 0.0
  {
    assert Dot(Scale(a, k), b) == k * Dot(a, b);
  }

  /** A coordinate frame: an origin and two in-plane axes; the third axis is
      their cross product. */
  datatype Frame = Frame(point: Point, xaxis: Vector, yaxis: Vector)
  {
    function zaxis(): Vector { Cross(xaxis, yaxis) }
  }

  const WorldXY := Frame(Zero, Xaxis, Yaxis)

  /** The axes of a frame built by the geometry library are unit and orthogonal. */
  ghost predicate Orthonormal(f: Frame)
  {
    Dot(f.xaxis, f.xaxis) == 1.0 && Dot(f.yaxis, f.yaxis) == 1.0 && Dot(f.xaxis, f.yaxis) == 0.0
  }

  /** The third axis of an orthonormal frame is a unit vector orthogonal to the other two. */
  lemma OrthonormalZaxis(f: Frame)
    requires Orthonormal(f)
    ensures Dot(f.zaxis(), f.zaxis()) == 1.0
    ensures Dot(f.zaxis(), f.xaxis) == 0.0 && Dot(f.zaxis(), f.yaxis) == 0.0
  {
    Lagrange(f.xaxis, f.yaxis);
    CrossOrthogonal(f.xaxis, f.yaxis);
  }

  /** An affine map: `p` goes to `translation + p.x * c0 + p.y * c1 + p.z * c2`. */
  datatype Transformation = Transformation(translation: Vector, c0: Vector, c1: Vector, c2: Vector)

  /** A direction is mapped without the translation. */
  function ApplyVector(T: Transformation, v: Vector): Vector
  {
    Add(Add(Scale(T.c0, v.x), Scale(T.c1, v.y)), Scale(T.c2, v.z))
  }

  function ApplyPoint(T: Transformation, p: Point): Point
  {
    Add(T.translation, ApplyVector(T, p))
  }

  /** `Transformation.from_frame`: the map from the frame's local coordinates to world coordinates. */
  function FromFrame(f: Frame): Transformation
  {
    Transformation(f.point, f.xaxis, f.yaxis, f.zaxis())
  }

  /** `Frame.transform`: the origin is mapped as a point, the axes as vectors. */
  function TransformFrame(T: Transformation, f: Frame): Frame
  {
    Frame(ApplyPoint(T, f.point), ApplyVector(T, f.xaxis), ApplyVector(T, f.yaxis))
  }

  /** A plane: a point and a normal. */
  datatype Plane = Plane(point: Point, normal: Vector)

  function TransformPlane(T: Transformation, p: Plane): Plane
  {
    Plane(ApplyPoint(T, p.point), ApplyVector(T, p.normal))
  }

  /** The identity map. */
  const Identity := Transformation(Zero, Xaxis, Yaxis, Zaxis)

  /** The world XY frame maps local coordinates to themselves. */
  lemma WorldXYIsIdentity(p: Point)
    ensures FromFrame(WorldXY) == Identity
    ensures ApplyPoint(Identity, p) == p
  {
    assert Cross(Xaxis, Yaxis) == Zaxis;
  }

  /** Mapping an in-plane local vector through the frame of its curve. */
  lemma ApplyPlanar(T: Transformation, v: Vector)
    requires v.z == 0.0
    ensures ApplyVector(T, v) == Add(Scale(T.c0, v.x), Scale(T.c1, v.y))
  {
  }

  /** Through an orthonormal frame, dot products of in-plane local vectors
      are preserved: lengths and angles in the curve's plane are those of the
      local coordinates. */
  lemma PlanarIsometry(f: Frame, v: Vector, w: Vector)
    requires Orthonormal(f) && v.z == 0.0 && w.z == 0.0
    ensures Dot(ApplyVector(FromFrame(f), v), ApplyVector(FromFrame(f), w)) == Dot(v, w)
  {
    ApplyPlanar(FromFrame(f), v);
    ApplyPlanar(FromFrame(f), w);
    DotPlanar(f.xaxis, f.yaxis, v.x, v.y, w.x, w.y);
  }

  /** Expanding the dot product of two combinations of the same two axes. */
  lemma DotPlanar(X: Vec3, Y: Vec3, p: real, q: real, r: real, s: real)
    ensures Dot(Add(Scale(X, p), Scale(Y, q)), Add(Scale(X, r), Scale(Y, s)))
         == (p * r) * Dot(X, X) + (p * s + q * r) * Dot(X, Y) + (q * s) * Dot(Y, Y)
  {
    var A, B, C, D := Scale(X, p), Scale(Y, q), Scale(X, r), Scale(Y, s);
    DotBilinear(A, B, Add(C, D));
    DotBilinear(C, D, A);
    DotBilinear(C, D, B);
    assert Dot(Add(A, B), Add(C, D)) == Dot(A, C) + Dot(A, D) + Dot(B, C) + Dot(B, D);
    DotScaleBoth(X, p, X, r);
    DotScaleBoth(X, p, Y, s);
    DotScaleBoth(Y, q, X, r);
    DotScaleBoth(Y, q, Y, s);
    var xx, xy, yy := Dot(X, X), Dot(X, Y), Dot(Y, Y);
    assert Dot(Y, X) == xy;
    assert Dot(A, C) + Dot(A, D) + Dot(B, C) + Dot(B, D) == (p * r) * xx + (p * s) * xy + (q * r) * xy + (q * s) * yy;
    assert (p * s) * xy + (q * r) * xy == (p * s + q * r) * xy;
  }

  lemma DotScaleBoth(a: Vec3, p: real, b: Vec3, r: real)
    ensures Dot(Scale(a, p), Scale(b, r)) == (p * r) * Dot(a, b)
  {
    DotScale(a, p, Scale(b, r));
    DotScaleRight(a, b, r);
  }

  lemma DotBilinear(a: Vec3, b: Vec3, c: Vec3)
    ensures Dot(Add(a, b), c) == Dot(a, c) + Dot(b, c)
    ensures Dot(c, Add(a, b)) == Dot(c, a) + Dot(c, b)
  {
  }

  lemma DotScale(a: Vec3, k: real, b: Vec3)
    ensures Dot(Scale(a, k), b) == k * Dot(a, b)
  {
  }

  lemma DotScaleRight(a: Vec3, b: Vec3, k: real)
    ensures Dot(a, Scale(b, k)) == k * Dot(a, b)
  {
  }

  /** Affine maps commute with affine interpolation between two points. */
  lemma ApplyInterpolation(T: Transformation, p: Point, q: Point, t: real)
    ensures ApplyPoint(T, Add(p, Scale(Sub(q, p), t)))
         == Add(ApplyPoint(T, p), Scale(Sub(ApplyPoint(T, q), ApplyPoint(T, p)), t))
  {
    var d := Sub(q, p);
    assert ApplyVector(T, Add(p, Scale(d, t))) == Add(ApplyVector(T, p), Scale(ApplyVector(T, d), t)) by {
      ApplyVectorLinear(T, p, Scale(d, t));
      ApplyVectorScale(T, d, t);
    }
    assert ApplyVector(T, d) == Sub(ApplyPoint(T, q), ApplyPoint(T, p)) by {
      ApplyVectorLinear(T, p, d);
      assert Add(p, d) == q;
    }
  }

  lemma ApplyVectorLinear(T: Transformation, a: Vector, b: Vector)
    ensures ApplyVector(T, Add(a, b)) == Add(ApplyVector(T, a), ApplyVector(T, b))
  {
    ScaleDistributes(T.c0, a.x, b.x);
    ScaleDistributes(T.c1, a.y, b.y);
    ScaleDistributes(T.c2, a.z, b.z);
  }

  lemma ScaleDistributes(c: Vec3, p: real, q: real)
    ensures Scale(c, p + q) == Add(Scale(c, p), Scale(c, q))
  {
    assert c.x * (p + q) == c.x * p + c.x * q;
    assert c.y * (p + q) == c.y * p + c.y * q;
    assert c.z * (p + q) == c.z * p + c.z * q;
  }

  lemma MulAssoc(c: Vec3, d: real, k: real)
    ensures Scale(c, d * k) == Scale(Scale(c, d), k)
  {
    assert c.x * (d * k) == (c.x * d) * k;
    assert c.y * (d * k) == (c.y * d) * k;
    assert c.z * (d * k) == (c.z * d) * k;
  }

  lemma ApplyVectorScale(T: Transformation, a: Vector, k: real)
    ensures ApplyVector(T, Scale(a, k)) == Scale(ApplyVector(T, a), k)
  {
    var A, B, C := Scale(T.c0, a.x), Scale(T.c1, a.y), Scale(T.c2, a.z);
    MulAssoc(T.c0, a.x, k);
    MulAssoc(T.c1, a.y, k);
    MulAssoc(T.c2, a.z, k);
    var s := Scale(a, k);
    assert s.x == a.x * k && s.y == a.y * k && s.z == a.z * k;
    assert Scale(T.c0, s.x) == Scale(A, k);
    assert Scale(T.c1, s.y) == Scale(B, k);
    assert Scale(T.c2, s.z) == Scale(C, k);
    assert ApplyVector(T, s) == Add(Add(Scale(A, k), Scale(B, k)), Scale(C, k));
    ScaleAdd(A, B, k);
    ScaleAdd(Add(A, B), C, k);
  }

  lemma ScaleAdd(a: Vec3, b: Vec3, k: real)
    ensures Scale(Add(a, b), k) == Add(Scale(a, k), Scale(b, k))
  {
    assert (a.x + b.x) * k == a.x * k + b.x * k;
    assert (a.y + b.y) * k == a.y * k + b.y * k;
    assert (a.z + b.z) * k == a.z * k + b.z * k;
  }
}
