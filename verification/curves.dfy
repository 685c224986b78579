/** What every curve shares: the parameter domain, the `normalized` flag of
    the evaluators, and the cache of the conics (the local-to-world map that
    must match the current frame). */
module Curves {
  import opened Elementary
  import opened Space
  import opened Outcomes

  /** A bound of a parameter domain; the Python code uses `float("inf")`. */
  datatype Bound = NegInf | PosInf | Finite(value: real)

  datatype Domain = Domain(lo: Bound, hi: Bound)

  predicate Contains(d: Domain, t: real)
  {
    && (match d.lo
        case NegInf => true
        case PosInf => false
        case Finite(a) => a <= t)
    && (match d.hi
        case NegInf => false
        case PosInf => true
        case Finite(b) => t <= b)
  }

  /** The angular domain (0, 2pi) of the circle, the ellipse and the hyperbola. */
  function AngularDomain(m: Math): Domain
  {
    Domain(Finite(0.0), Finite(2.0 * m.pi))
  }

  /** The parameter an evaluator works with: with `normalized`, `t` is scaled
      from the unit interval onto (0, 2pi). */
  function Angle(m: Math, t: real, normalized: bool): real
  {
    if normalized then t * 2.0 * m.pi else t
  }

  /** The invariant of every conic: its cached transformation is the
      local-to-world map of its current frame. */
  predicate Cached(frame: Frame, transformation: Transformation)
  {
    transformation == FromFrame(frame)
  }

  /** A local point seen from the frame's origin is the mapped local vector. */
  lemma FromOrigin(f: Frame, local: Point)
    ensures Sub(ApplyPoint(FromFrame(f), local), f.point) == ApplyVector(FromFrame(f), local)
  {
  }

  /** Through an orthonormal frame an in-plane local vector stays orthogonal
      to the frame's z-axis. */
  lemma InPlane(f: Frame, local: Vector)
    requires Orthonormal(f) && local.z == 0.0
    ensures Dot(ApplyVector(FromFrame(f), local), f.zaxis()) == 0.0
  {
    OrthonormalZaxis(f);
    ApplyPlanar(FromFrame(f), local);
    DotBilinear(Scale(f.xaxis, local.x), Scale(f.yaxis, local.y), f.zaxis());
    DotScale(f.xaxis, local.x, f.zaxis());
    DotScale(f.yaxis, local.y, f.zaxis());
    assert Dot(f.xaxis, f.zaxis()) == 0.0 && Dot(f.yaxis, f.zaxis()) == 0.0;
  }

  /** A point given in the local coordinates of an orthonormal frame, with
      no z component, lies in the frame's plane at the local distance from
      the frame's origin. */
  lemma Placed(f: Frame, local: Point)
    requires Orthonormal(f) && local.z == 0.0
    ensures Dot(Sub(ApplyPoint(FromFrame(f), local), f.point), Sub(ApplyPoint(FromFrame(f), local), f.point))
         == Dot(local, local)
    ensures Dot(Sub(ApplyPoint(FromFrame(f), local), f.point), f.zaxis()) == 0.0
  {
    FromOrigin(f, local);
    PlanarIsometry(f, local, local);
    InPlane(f, local);
  }

  /** Through an orthonormal frame, the coordinates of an in-plane local
      point are recovered by projecting its offset from the origin onto the
      frame's x- and y-axes. */
  lemma LocalCoordinates(f: Frame, local: Point)
    requires Orthonormal(f) && local.z == 0.0
    ensures Dot(Sub(ApplyPoint(FromFrame(f), local), f.point), f.xaxis) == local.x
    ensures Dot(Sub(ApplyPoint(FromFrame(f), local), f.point), f.yaxis) == local.y
  {
    FromOrigin(f, local);
    ApplyPlanar(FromFrame(f), local);
    var X, Y := f.xaxis, f.yaxis;
    DotBilinear(Scale(X, local.x), Scale(Y, local.y), X);
    DotBilinear(Scale(X, local.x), Scale(Y, local.y), Y);
    DotScale(X, local.x, X);
    DotScale(Y, local.y, X);
    DotScale(X, local.x, Y);
    DotScale(Y, local.y, Y);
    assert Dot(Y, X) == Dot(X, Y) == 0.0;
  }

  /** `Conic.eccentricity`: the base class has none; every conic overrides it. */
  function ConicEccentricity(): (r: Result<real>)
    ensures r.Failure? && r.error == NotImplemented
  {
    Failure(NotImplemented)
  }

  /** The foci of a central conic: the centre moved by the semifocal
      distance `c` along the x-axis, one each way. They are symmetric about
      the centre and, with a unit x-axis, the focal distance `2 c` apart. */
  function Foci(center: Point, xaxis: Vector, c: real): (foci: (Point, Point))
  {
    (Add(center, Scale(xaxis, c)), Add(center, Scale(xaxis, -c)))
  }

  lemma FociSymmetric(center: Point, xaxis: Vector, c: real)
    ensures Sub(Foci(center, xaxis, c).0, center) == Sub(center, Foci(center, xaxis, c).1)
    ensures Add(Foci(center, xaxis, c).0, Foci(center, xaxis, c).1) == Scale(center, 2.0)
    ensures Dot(xaxis, xaxis) == 1.0 ==>
      Dot(Sub(Foci(center, xaxis, c).0, Foci(center, xaxis, c).1), Sub(Foci(center, xaxis, c).0, Foci(center, xaxis, c).1))
      == (2.0 * c) * (2.0 * c)
  {
    var d := Sub(Foci(center, xaxis, c).0, Foci(center, xaxis, c).1);
    assert d == Scale(xaxis, 2.0 * c);
    DotScaleBoth(xaxis, 2.0 * c, xaxis, 2.0 * c);
  }

  /** What the `point` setter as written does to the cache invariant: moving
      the origin of a frame whose cache was current to a different point
      leaves the cache describing the old frame. */
  lemma MovedOriginStale(before: Frame, p: Point, T: Transformation)
    requires Cached(before, T) && p != before.point
    ensures !Cached(before.(point := p), T)
  {
    assert FromFrame(before.(point := p)).translation != T.translation;
  }

  /** `Conic.transform` moves the curve with the transformation: once the
      frame is transformed and the cache rebuilt, a point given in the
      curve's own coordinates (with no z component) lands where the old
      world point is sent by the transformation. */
  lemma TransformPlanar(T: Transformation, f: Frame, local: Point)
    requires local.z == 0.0
    ensures ApplyPoint(FromFrame(TransformFrame(T, f)), local) == ApplyPoint(T, ApplyPoint(FromFrame(f), local))
  {
    var X, Y := Scale(f.xaxis, local.x), Scale(f.yaxis, local.y);
    ApplyPlanar(FromFrame(f), local);
    ApplyPlanar(FromFrame(TransformFrame(T, f)), local);
    ApplyVectorLinear(T, f.point, Add(X, Y));
    ApplyVectorLinear(T, X, Y);
    ApplyVectorScale(T, f.xaxis, local.x);
    ApplyVectorScale(T, f.yaxis, local.y);
  }
}
