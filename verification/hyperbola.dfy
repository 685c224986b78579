/** The hyperbola (`Hyperbola` of the curve kernel): a frame, the cached map
    from that frame to the world, a major and a minor radius. Points are
    `(a sec t, b sin t sec t, 0)` in the frame's own coordinates, mapped
    through the cached transformation; the tangent, the normal and the
    asymptotes are not implemented. */
module Hyperbolas {
  import opened Elementary
  import opened Outcomes
  import opened Space
  import opened Curves
  import opened Lines

  /** The point at angle `t` of the hyperbola with radii `a` and `b`, in its
      own frame. The secant `1 / cos t` fails where the cosine is zero. */
  function LocalPoint(m: Math, a: real, b: real, t: real): (r: Result<Point>)
    ensures r.Failure? <==> m.Cos(t) == 0.0
    ensures r.Failure? ==> r.error == ZeroDivision
    ensures r.Success? ==> r.value.z == 0.0
  {
    if m.Cos(t) == 0.0 then Failure(ZeroDivision)
    else
      var secant := 1.0 / m.Cos(t);
      Success(Vec3(a * secant, b * m.Sin(t) * secant, 0.0))
  }

  /** Where it exists, the local point satisfies the hyperbola's equation
      `(x/a)^2 - (y/b)^2 = 1`. */
  lemma OnHyperbola(m: Math, a: real, b: real, t: real)
    requires Sound(m) && a != 0.0 && b != 0.0 && m.Cos(t) != 0.0
    ensures LocalPoint(m, a, b, t).Success?
    ensures Sq(LocalPoint(m, a, b, t).value.x / a) - Sq(LocalPoint(m, a, b, t).value.y / b) == 1.0
  {
    var c, s := m.Cos(t), m.Sin(t);
    var secant := 1.0 / c;
    var p := LocalPoint(m, a, b, t).value;
    assert p.x / a == secant;
    assert p.y / b == s * secant;
    Pythagoras(m, t);
    SecantIdentity(c, s, secant);
  }

  /** `sec^2 - (sin sec)^2 = 1` whenever `cos^2 + sin^2 = 1`. */
  lemma SecantIdentity(c: real, s: real, secant: real)
    requires c * c + s * s == 1.0 && secant * c == 1.0
    ensures Sq(secant) - Sq(s * secant) == 1.0
  {
    assert Sq(secant) - Sq(s * secant) == Sq(secant) * (1.0 - s * s);
    assert Sq(secant) * (c * c) == Sq(secant * c);
  }

  /** `semifocal`: `sqrt(a^2 + b^2)`, which always exists. */
  function SemifocalOf(m: Math, a: real, b: real): real
  {
    m.Sqrt(a * a + b * b)
  }

  /** The semifocal distance `c` satisfies `c^2 = a^2 + b^2`; with a
      non-zero minor radius the foci lie beyond the vertices: `|a| < c`. */
  lemma SemifocalBeyondVertex(m: Math, a: real, b: real)
    requires Sound(m)
    ensures 0.0 <= SemifocalOf(m, a, b)
    ensures SemifocalOf(m, a, b) * SemifocalOf(m, a, b) == a * a + b * b
    ensures b != 0.0 ==> a * a < SemifocalOf(m, a, b) * SemifocalOf(m, a, b)
    ensures b != 0.0 && 0.0 <= a ==> a < SemifocalOf(m, a, b)
  {
    Square(a);
    Square(b);
    SqrtLaw(m, a * a + b * b);
    var c := SemifocalOf(m, a, b);
    if b != 0.0 && 0.0 <= a {
      SquareOrder(a, c);
    }
  }

  /** Between non-negative reals the squares keep the strict order. */
  lemma SquareOrder(x: real, y: real)
    requires 0.0 <= x && 0.0 <= y && x * x < y * y
    ensures x < y
  {
    assert (y - x) * (y + x) == y * y - x * x;
    PositiveFactor(y - x, y + x);
  }

  /** A positive product with a non-negative second factor has a positive
      first factor. */
  lemma PositiveFactor(p: real, q: real)
    requires 0.0 < p * q && 0.0 <= q
    ensures 0.0 < p
  {
  }

  /** `eccentricity`: the semifocal distance over the major radius, which
      fails for a zero major radius. */
  function EccentricityOf(m: Math, a: real, b: real): (r: Result<real>)
    ensures r.Failure? <==> a == 0.0
    ensures r.Failure? ==> r.error == ZeroDivision
  {
    if a == 0.0 then Failure(ZeroDivision) else Success(SemifocalOf(m, a, b) / a)
  }

  /** For positive radii the eccentricity exists, exceeds 1 as documented,
      and is the semifocal distance in units of the major radius. */
  lemma EccentricityAboveOne(m: Math, a: real, b: real)
    requires Sound(m) && 0.0 < a && b != 0.0
    ensures EccentricityOf(m, a, b).Success?
    ensures EccentricityOf(m, a, b).value * a == SemifocalOf(m, a, b)
    ensures EccentricityOf(m, a, b).value > 1.0
  {
    SemifocalBeyondVertex(m, a, b);
    var c := SemifocalOf(m, a, b);
    var e := c / a;
    assert e * a == c;
  }

  /** `focal`: twice the semifocal distance. */
  function FocalOf(m: Math, a: real, b: real): (r: real)
    requires Sound(m)
    ensures 0.0 <= r && r * r == 4.0 * (a * a + b * b)
  {
    SemifocalBeyondVertex(m, a, b);
    2.0 * SemifocalOf(m, a, b)
  }

  /** The data dictionary `{"frame": ..., "major": ..., "minor": ...}`. */
  datatype HyperbolaData = HyperbolaData(frame: Frame, major: real, minor: real)

  /** The transformation that moves every point by `v`. */
  function Translation(v: Vector): (T: Transformation)
    ensures forall p :: ApplyPoint(T, p) == Add(v, p)
  {
    Transformation(v, Xaxis, Yaxis, Zaxis)
  }

  class Hyperbola {
    var frame: Frame
    var transformation: Transformation
    var major: real
    var minor: real

    /** The cache is the local-to-world map of the current frame. */
    predicate Valid()
      reads this
    {
      Cached(frame, transformation)
    }

    /** A missing frame means the world XY frame. */
    constructor (frame: Option<Frame>, major: real, minor: real)
      ensures this.frame == (if frame.Some? then frame.value else WorldXY)
      ensures this.major == major && this.minor == minor
      ensures Valid()
    {
      this.frame := if frame.Some? then frame.value else WorldXY;
      this.transformation := FromFrame(if frame.Some? then frame.value else WorldXY);
      this.major := major;
      this.minor := minor;
    }

    /** `Hyperbola.from_data` as written: the minor radius is passed for
        both radii, so the data round-trips only when the two are equal. */
    static method FromData(data: HyperbolaData) returns (hyperbola: Hyperbola)
      ensures fresh(hyperbola) && hyperbola.Valid()
      ensures hyperbola.frame == data.frame && hyperbola.major == data.minor && hyperbola.minor == data.minor
      ensures hyperbola.Data() == data <==> data.major == data.minor
    {
      hyperbola := new Hyperbola(Some(data.frame), data.minor, data.minor);
    }

    /** `Hyperbola.from_data` passing each radius to its own parameter. */
    static method FromDataIntended(data: HyperbolaData) returns (hyperbola: Hyperbola)
      ensures fresh(hyperbola) && hyperbola.Valid()
      ensures hyperbola.Data() == data
    {
      hyperbola := new Hyperbola(Some(data.frame), data.major, data.minor);
    }

    /** `data`, and its setter, which goes through the three setters. */
    function Data(): (d: HyperbolaData)
      reads this
      ensures d.frame == frame && d.major == major && d.minor == minor
    {
      HyperbolaData(frame, major, minor)
    }

    method SetData(data: HyperbolaData)
      modifies this
      ensures Data() == data && Valid()
    {
      SetFrame(data.frame);
      SetMajor(data.major);
      SetMinor(data.minor);
    }

    /** The frame setter rebuilds the cache. */
    method SetFrame(f: Frame)
      modifies this
      ensures frame == f && transformation == FromFrame(f)
      ensures major == old(major) && minor == old(minor)
      ensures Valid()
    {
      frame := f;
      transformation := FromFrame(f);
    }

    /** The point setter as written moves the frame's origin but keeps the
        cached transformation, which is stale once the origin has moved. */
    method SetPoint(point: Point)
      modifies this
      ensures frame == old(frame).(point := point)
      ensures transformation == old(transformation) && major == old(major) && minor == old(minor)
      ensures old(Valid()) && point != old(frame).point ==> !Valid()
    {
      if Valid() && point != frame.point {
        MovedOriginStale(frame, point, transformation);
      }
      frame := frame.(point := point);
    }

    /** The point setter with the cache rebuilt, as the frame setter does. */
    method SetPointRebuilt(point: Point)
      modifies this
      ensures frame == old(frame).(point := point) && transformation == FromFrame(frame)
      ensures major == old(major) && minor == old(minor)
      ensures Valid()
    {
      frame := frame.(point := point);
      transformation := FromFrame(frame);
    }

    method SetMajor(a: real)
      modifies this
      ensures major == a && minor == old(minor)
      ensures frame == old(frame) && transformation == old(transformation)
    {
      major := a;
    }

    method SetMinor(b: real)
      modifies this
      ensures minor == b && major == old(major)
      ensures frame == old(frame) && transformation == old(transformation)
    {
      minor := b;
    }

    function Center(): Point reads this { frame.point }

    function Normal(): Vector reads this { frame.zaxis() }

    /** The plane through the centre with the frame's normal. */
    function Plane(): Space.Plane reads this { Space.Plane(frame.point, frame.zaxis()) }

    function IsPeriodic(): bool { false }

    function IsClosed(): bool { false }

    function Domain(m: Math): Curves.Domain { AngularDomain(m) }

    function Eccentricity(m: Math): Result<real> reads this { EccentricityOf(m, major, minor) }

    function Semifocal(m: Math): real reads this { SemifocalOf(m, major, minor) }

    function Focal(m: Math): real requires Sound(m) reads this { FocalOf(m, major, minor) }

    /** The first focus, on the positive x-axis. */
    function Focus1(m: Math): (p: Point)
      reads this
      ensures p == Foci(Center(), frame.xaxis, Semifocal(m)).0
    {
      Add(frame.point, Scale(frame.xaxis, Semifocal(m)))
    }

    /** The second focus, on the negative x-axis. */
    function Focus2(m: Math): (p: Point)
      reads this
      ensures p == Foci(Center(), frame.xaxis, Semifocal(m)).1
    {
      Add(frame.point, Scale(frame.xaxis, -Semifocal(m)))
    }

    /** The foci are symmetric about the centre and, with a unit x-axis,
        the focal distance apart. */
    lemma FociAboutCenter(m: Math)
      requires Sound(m)
      ensures Add(Focus1(m), Focus2(m)) == Scale(Center(), 2.0)
      ensures Dot(frame.xaxis, frame.xaxis) == 1.0 ==>
        Dot(Sub(Focus1(m), Focus2(m)), Sub(Focus1(m), Focus2(m))) == Focal(m) * Focal(m)
    {
      FociSymmetric(Center(), frame.xaxis, Semifocal(m));
    }

    /** The asymptotes are not implemented: the properties return `None`. */
    function Asymptote1(): (r: Option<Line>)
      ensures r.None?
    {
      None
    }

    function Asymptote2(): (r: Option<Line>)
      ensures r.None?
    {
      None
    }

    /** The point at `t` (at `t * 2pi` when normalized); it fails where the
        cosine of the angle is zero. */
    function PointAt(m: Math, t: real, normalized: bool): (r: Result<Point>)
      reads this
      ensures r.Failure? <==> m.Cos(Angle(m, t, normalized)) == 0.0
      ensures r.Failure? ==> r.error == ZeroDivision
    {
      var p := LocalPoint(m, major, minor, Angle(m, t, normalized));
      if p.Failure? then Failure(p.error) else Success(ApplyPoint(transformation, p.value))
    }

    /** With a current cache and an orthonormal frame, a point that exists
        lies in the hyperbola's plane and its coordinates along the frame's
        axes satisfy the hyperbola's equation. */
    lemma PointAtOnHyperbola(m: Math, t: real, normalized: bool)
      requires Sound(m) && Valid() && Orthonormal(frame) && major != 0.0 && minor != 0.0
      requires m.Cos(Angle(m, t, normalized)) != 0.0
      ensures PointAt(m, t, normalized).Success?
      ensures
        var d := Sub(PointAt(m, t, normalized).value, Center());
        && Sq(Dot(d, frame.xaxis) / major) - Sq(Dot(d, frame.yaxis) / minor) == 1.0
        && Dot(d, Normal()) == 0.0
    {
      var a := Angle(m, t, normalized);
      OnHyperbola(m, major, minor, a);
      var local := LocalPoint(m, major, minor, a).value;
      LocalCoordinates(frame, local);
      Placed(frame, local);
    }

    /** The parameter domain (0, 2pi) contains pi/2, where the point does not
        exist; and both ends of the domain give the same point although the
        curve reports itself as neither closed nor periodic. */
    lemma DomainEnds(m: Math)
      requires Sound(m)
      ensures Contains(Domain(m), m.pi / 2.0) && PointAt(m, m.pi / 2.0, false).Failure?
      ensures !IsClosed() && !IsPeriodic()
      ensures PointAt(m, 0.0, false).Success? && PointAt(m, 0.0, false) == PointAt(m, 2.0 * m.pi, false)
    {
      assert 0.0 <= m.pi / 2.0 <= 2.0 * m.pi;
    }

    /** The tangent is not implemented. */
    function TangentAt(m: Math, t: real, normalized: bool): (r: Result<Vector>)
      ensures r.Failure? && r.error == NotImplemented
    {
      Failure(NotImplemented)
    }

    /** The normal is not implemented. */
    function NormalAt(m: Math, t: real, normalized: bool): (r: Result<Vector>)
      ensures r.Failure? && r.error == NotImplemented
    {
      Failure(NotImplemented)
    }

    /** The frame at `t` evaluates the point first, so it fails with the
        point's division by zero where the cosine vanishes, and otherwise
        with the missing tangent. */
    function FrameAt(m: Math, t: real, normalized: bool): (r: Result<Frame>)
      reads this
      ensures r.Failure?
      ensures r.error == (if PointAt(m, t, normalized).Failure? then ZeroDivision else NotImplemented)
    {
      var a := Angle(m, t, normalized);
      var p := PointAt(m, a, false);
      if p.Failure? then Failure(p.error)
      else
        // the tangent always fails, so the frame is never built
        Failure(TangentAt(m, a, false).error)
    }

    /** `Hyperbola.transform` as written: it transforms a plane built on the
        fly from the centre and the normal and throws it away; the
        hyperbola itself is left as it was. */
    method Transform(T: Transformation)
      ensures frame == old(frame) && transformation == old(transformation)
      ensures major == old(major) && minor == old(minor)
    {
      var moved := TransformPlane(T, Plane());
    }

    /** The transformation the conic base class performs: the frame is
        transformed and the cache rebuilt. */
    method TransformIntended(T: Transformation)
      modifies this
      ensures frame == TransformFrame(T, old(frame)) && transformation == FromFrame(frame)
      ensures major == old(major) && minor == old(minor)
      ensures Valid()
    {
      frame := TransformFrame(T, frame);
      transformation := FromFrame(frame);
    }

    /** What `Transform` as written misses: under a translation by a
        non-zero `v`, the transformation of the base class moves every
        point of the hyperbola by `v`, so the point it leaves in place is
        wrong. */
    lemma TranslationMisses(m: Math, t: real, normalized: bool, v: Vector)
      requires Valid() && v != Zero && PointAt(m, t, normalized).Success?
      ensures
        var local := LocalPoint(m, major, minor, Angle(m, t, normalized)).value;
        var moved := ApplyPoint(FromFrame(TransformFrame(Translation(v), frame)), local);
        moved == Add(v, PointAt(m, t, normalized).value) && moved != PointAt(m, t, normalized).value
    {
      var local := LocalPoint(m, major, minor, Angle(m, t, normalized)).value;
      TransformPlanar(Translation(v), frame, local);
    }
  }
}
