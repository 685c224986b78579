/** The ellipse (`Ellipse` of the curve kernel): a frame, the cached map from
    that frame to the world, a major and a minor radius. Points are
    `(a cos t, b sin t, 0)` in the frame's own coordinates, mapped through
    the cached transformation. */
module Ellipses {
  import opened Elementary
  import opened Outcomes
  import opened Space
  import opened Curves
  import opened Lines

  /** The point at angle `t` of the ellipse with radii `a` and `b`, in its own frame. */
  function LocalPoint(m: Math, a: real, b: real, t: real): (p: Point)
    ensures p.z == 0.0
  {
    Vec3(a * m.Cos(t), b * m.Sin(t), 0.0)
  }

  /** The tangent at angle `t` before unitizing, in the ellipse's own frame. */
  function LocalTangent(m: Math, a: real, b: real, t: real): (v: Vector)
    ensures v.z == 0.0
  {
    Vec3(-a * m.Sin(t), b * m.Cos(t), 0.0)
  }

  /** The local point satisfies the ellipse's equation `(x/a)^2 + (y/b)^2 = 1`. */
  lemma OnEllipse(m: Math, a: real, b: real, t: real)
    requires Sound(m) && a != 0.0 && b != 0.0
    ensures Sq(LocalPoint(m, a, b, t).x / a) + Sq(LocalPoint(m, a, b, t).y / b) == 1.0
  {
    var p := LocalPoint(m, a, b, t);
    assert p.x / a == m.Cos(t);
    assert p.y / b == m.Sin(t);
    Pythagoras(m, t);
  }

  /** Half the gradient of `(x/a)^2 + (y/b)^2` at `p`: the direction normal to
      the ellipse through `p`. */
  function Gradient(a: real, b: real, p: Point): Vector
    requires a != 0.0 && b != 0.0
  {
    Vec3(p.x / a / a, p.y / b / b, 0.0)
  }

  /** The local tangent is orthogonal to the gradient of the ellipse's
      equation at the local point: it is tangent to the ellipse there. */
  lemma TangentAlongEllipse(m: Math, a: real, b: real, t: real)
    requires a != 0.0 && b != 0.0
    ensures Dot(LocalTangent(m, a, b, t), Gradient(a, b, LocalPoint(m, a, b, t))) == 0.0
  {
    var c, s := m.Cos(t), m.Sin(t);
    Cancel(a, c);
    Cancel(b, s);
    var p := LocalPoint(m, a, b, t);
    assert p.x / a == c && p.y / b == s;
    assert Gradient(a, b, p) == Vec3(c / a, s / b, 0.0);
    OppositeTerms(a, b, c, s);
  }

  lemma OppositeTerms(a: real, b: real, c: real, s: real)
    requires a != 0.0 && b != 0.0
    ensures (-a * s) * (c / a) + (b * c) * (s / b) == 0.0
  {
    Cancel(a, c);
    Cancel(b, s);
    assert (-a * s) * (c / a) == -s * (a * (c / a));
    assert (b * c) * (s / b) == c * (b * (s / b));
  }

  /** Dividing by a non-zero factor undoes multiplying by it. */
  lemma Cancel(a: real, x: real)
    requires a != 0.0
    ensures (a * x) / a == x && a * (x / a) == x
  {
  }

  /** With both radii non-zero the local tangent never vanishes. */
  lemma TangentNonZero(m: Math, a: real, b: real, t: real)
    requires Sound(m) && a != 0.0 && b != 0.0
    ensures LocalTangent(m, a, b, t) != Zero
  {
    Pythagoras(m, t);
    if LocalTangent(m, a, b, t) == Zero {
      ZeroProduct(-a, m.Sin(t));
      ZeroProduct(b, m.Cos(t));
      assert false;
    }
  }

  /** `eccentricity`: `sqrt(1 - (b/a)^2)`; dividing by a zero major radius
      and taking the root of a negative number both fail. */
  function EccentricityOf(m: Math, a: real, b: real): (r: Result<real>)
    ensures r.Failure? <==> a == 0.0 || 1.0 - Sq(b / a) < 0.0
    ensures r.Failure? ==> r.error == (if a == 0.0 then ZeroDivision else MathDomain)
  {
    if a == 0.0 then Failure(ZeroDivision)
    else if 1.0 - Sq(b / a) < 0.0 then Failure(MathDomain)
    else Success(m.Sqrt(1.0 - Sq(b / a)))
  }

  /** `semifocal`: `sqrt(a^2 - b^2)`, the distance from the centre to a focus. */
  function SemifocalOf(m: Math, a: real, b: real): (r: Result<real>)
    ensures r.Failure? <==> a * a < b * b
    ensures r.Failure? ==> r.error == MathDomain
  {
    if a * a - b * b < 0.0 then Failure(MathDomain) else Success(m.Sqrt(a * a - b * b))
  }

  /** `focal`: twice the semifocal distance. */
  function FocalOf(m: Math, a: real, b: real): (r: Result<real>)
    ensures r.Success? <==> SemifocalOf(m, a, b).Success?
    ensures r.Success? ==> r.value == 2.0 * SemifocalOf(m, a, b).value
  {
    var c := SemifocalOf(m, a, b);
    if c.Failure? then Failure(c.error) else Success(2.0 * c.value)
  }

  /** For radii `0 < b <= a` (what the data schema demands, with the major
      radius the larger) the eccentricity and the semifocal distance exist,
      the eccentricity lies in [0, 1) and is 0 exactly for a circle. */
  lemma EccentricityRange(m: Math, a: real, b: real)
    requires Sound(m) && 0.0 < b <= a
    ensures EccentricityOf(m, a, b).Success? && SemifocalOf(m, a, b).Success?
    ensures 0.0 <= EccentricityOf(m, a, b).value < 1.0
    ensures EccentricityOf(m, a, b).value == 0.0 <==> a == b
  {
    var q := b / a;
    assert 0.0 < q <= 1.0 by {
      assert q * a == b;
    }
    Square(q);
    assert Sq(q) <= 1.0 by {
      assert q * q <= 1.0 * q;
    }
    var x := 1.0 - Sq(q);
    SqrtLaw(m, x);
    SqrtZero(m, x);
    var e := m.Sqrt(x);
    assert x < 1.0;
    assert e * e == x;
    BelowOne(e);
    assert Sq(q) == 1.0 <==> a == b by {
      if Sq(q) == 1.0 {
        assert (q - 1.0) * (q + 1.0) == 0.0;
        ZeroProduct(q - 1.0, q + 1.0);
        assert b == q * a;
      }
    }
    assert a * a - b * b >= 0.0 by {
      assert b * b <= a * b <= a * a;
    }
  }

  /** The eccentricity is the semifocal distance in units of the major
      radius: `e * a = c`. */
  lemma EccentricityTimesMajor(m: Math, a: real, b: real)
    requires Sound(m) && 0.0 < b <= a
    ensures EccentricityOf(m, a, b).Success? && SemifocalOf(m, a, b).Success?
    ensures EccentricityOf(m, a, b).value * a == SemifocalOf(m, a, b).value
  {
    EccentricityRange(m, a, b);
    var q := b / a;
    var e := EccentricityOf(m, a, b).value;
    SqrtLaw(m, 1.0 - Sq(q));
    assert e * e == 1.0 - q * q;
    assert (e * a) * (e * a) == (e * e) * (a * a);
    assert (1.0 - q * q) * (a * a) == a * a - (q * a) * (q * a);
    assert q * a == b;
    assert 0.0 <= e * a;
    SqrtUnique(m, a * a - b * b, e * a);
  }

  /** The documented directrix distance `a / e`, which needs a non-zero
      eccentricity. */
  function DirectrixDistance(m: Math, a: real, b: real): (r: Result<real>)
    ensures r.Success? <==> EccentricityOf(m, a, b).Success? && EccentricityOf(m, a, b).value != 0.0
    ensures r.Success? ==> r.value * EccentricityOf(m, a, b).value == a
  {
    var e := EccentricityOf(m, a, b);
    if e.Failure? then Failure(e.error)
    else if e.value == 0.0 then Failure(ZeroDivision)
    else Success(a / e.value)
  }

  /** The directrices as written pass through the foci, at the semifocal
      distance `c = a e` from the centre. For a proper ellipse
      (`0 < b < a`) that is never the documented distance `a / e`. */
  lemma DirectrixThroughFocusIsNotDocumented(m: Math, a: real, b: real)
    requires Sound(m) && 0.0 < b < a
    ensures DirectrixDistance(m, a, b).Success? && SemifocalOf(m, a, b).Success?
    ensures SemifocalOf(m, a, b).value < DirectrixDistance(m, a, b).value
  {
    EccentricityRange(m, a, b);
    EccentricityTimesMajor(m, a, b);
    ShorterThanDirectrix(a, EccentricityOf(m, a, b).value, SemifocalOf(m, a, b).value, DirectrixDistance(m, a, b).value);
  }

  /** With `0 < e < 1`, `c = e a` is less than `a`, which is less than `d = a / e`. */
  lemma ShorterThanDirectrix(a: real, e: real, c: real, d: real)
    requires 0.0 < a && 0.0 < e < 1.0 && c == e * a && d * e == a
    ensures c < a < d
  {
    assert e * a < 1.0 * a;
    assert 0.0 < d;
    assert d * e < d * 1.0;
  }

  lemma BelowOne(e: real)
    requires 0.0 <= e && e * e < 1.0
    ensures e < 1.0
  {
  }

  /** The focus-directrix property of the intended directrix: every point of
      a proper ellipse is `e` times as far from the focus `(c, 0)` as from
      the line `x = a / e` (stated with squared distances). */
  lemma FocusDirectrix(m: Math, a: real, b: real, t: real)
    requires Sound(m) && 0.0 < b < a
    ensures DirectrixDistance(m, a, b).Success? && SemifocalOf(m, a, b).Success?
    ensures
      var p := LocalPoint(m, a, b, t);
      var c := SemifocalOf(m, a, b).value;
      var e := EccentricityOf(m, a, b).value;
      var d := DirectrixDistance(m, a, b).value;
      Sq(p.x - c) + Sq(p.y) == Sq(e) * Sq(p.x - d)
  {
    EccentricityRange(m, a, b);
    EccentricityTimesMajor(m, a, b);
    var c := SemifocalOf(m, a, b).value;
    var e := EccentricityOf(m, a, b).value;
    var d := DirectrixDistance(m, a, b).value;
    SqrtLaw(m, a * a - b * b);
    Pythagoras(m, t);
    FocusDirectrixAlgebra(a, b, c, e, d, m.Cos(t), m.Sin(t));
  }

  /** The algebra behind `FocusDirectrix`: with `b^2 = a^2 - c^2` the squared
      distance to the focus is `(a - c cos t)^2`, and with `e a = c` and
      `e d = a` so is `e^2` times the squared distance to the directrix. */
  lemma FocusDirectrixAlgebra(a: real, b: real, c: real, e: real, d: real, co: real, si: real)
    requires co * co + si * si == 1.0
    requires c * c == a * a - b * b && e * a == c && d * e == a
    ensures Sq(a * co - c) + Sq(b * si) == Sq(e) * Sq(a * co - d)
  {
    FocusSide(a, b, c, co, si);
    DirectrixSide(a, c, e, d, co);
  }

  lemma FocusSide(a: real, b: real, c: real, co: real, si: real)
    requires co * co + si * si == 1.0 && c * c == a * a - b * b
    ensures Sq(a * co - c) + Sq(b * si) == Sq(a - c * co)
  {
    var cc, ss := co * co, si * si;
    assert Sq(b * si) == (b * b) * ss;
    assert Sq(a * co - c) == (a * a) * cc - 2.0 * (a * c * co) + c * c;
    assert Sq(a - c * co) == a * a - 2.0 * (a * c * co) + (c * c) * cc;
    assert (b * b) * ss == (a * a - c * c) * (1.0 - cc);
  }

  lemma DirectrixSide(a: real, c: real, e: real, d: real, co: real)
    requires e * a == c && d * e == a
    ensures Sq(e) * Sq(a * co - d) == Sq(a - c * co)
  {
    assert Sq(e) * Sq(a * co - d) == Sq(e * (a * co - d));
    assert e * (a * co - d) == (e * a) * co - d * e;
    assert Sq(c * co - a) == Sq(a - c * co);
  }

  /** The data dictionary `{"frame": ..., "major": ..., "minor": ...}`. */
  datatype EllipseData = EllipseData(frame: Frame, major: real, minor: real)

  class Ellipse {
    var frame: Frame
    var transformation: Transformation
    var major: real
    var minor: real

    /** The cache is the local-to-world map of the current frame. */
    predicate Valid()
      reads this
    {
      Cached(frame, transformation)
    }

    /** A missing frame means the world XY frame. */
    constructor (frame: Option<Frame>, major: real, minor: real)
      ensures this.frame == (if frame.Some? then frame.value else WorldXY)
      ensures this.major == major && this.minor == minor
      ensures Valid()
    {
      this.frame := if frame.Some? then frame.value else WorldXY;
      this.transformation := FromFrame(if frame.Some? then frame.value else WorldXY);
      this.major := major;
      this.minor := minor;
    }

    /** `Ellipse.from_data` as written: the minor radius is passed for both
        radii, so the data round-trips only when the two radii are equal. */
    static method FromData(data: EllipseData) returns (ellipse: Ellipse)
      ensures fresh(ellipse) && ellipse.Valid()
      ensures ellipse.frame == data.frame && ellipse.major == data.minor && ellipse.minor == data.minor
      ensures ellipse.Data() == data <==> data.major == data.minor
    {
      ellipse := new Ellipse(Some(data.frame), data.minor, data.minor);
    }

    /** `Ellipse.from_data` passing each radius to its own parameter. */
    static method FromDataIntended(data: EllipseData) returns (ellipse: Ellipse)
      ensures fresh(ellipse) && ellipse.Valid()
      ensures ellipse.Data() == data
    {
      ellipse := new Ellipse(Some(data.frame), data.major, data.minor);
    }

    /** `data` and its setter, which goes through the three setters. */
    function Data(): (d: EllipseData)
      reads this
      ensures d.frame == frame && d.major == major && d.minor == minor
    {
      EllipseData(frame, major, minor)
    }

    method SetData(data: EllipseData)
      modifies this
      ensures Data() == data && Valid()
    {
      SetFrame(data.frame);
      SetMajor(data.major);
      SetMinor(data.minor);
    }

    /** The frame setter rebuilds the cache. */
    method SetFrame(f: Frame)
      modifies this
      ensures frame == f && transformation == FromFrame(f)
      ensures major == old(major) && minor == old(minor)
      ensures Valid()
    {
      frame := f;
      transformation := FromFrame(f);
    }

    /** The point setter as written moves the frame's origin but keeps the
        cached transformation, which no longer matches the frame once the
        origin has really moved. */
    method SetPoint(point: Point)
      modifies this
      ensures frame == old(frame).(point := point)
      ensures transformation == old(transformation) && major == old(major) && minor == old(minor)
      ensures old(Valid()) && point != old(frame).point ==> !Valid()
    {
      if Valid() && point != frame.point {
        MovedOriginStale(frame, point, transformation);
      }
      frame := frame.(point := point);
    }

    /** The point setter with the cache rebuilt, as the frame setter does. */
    method SetPointRebuilt(point: Point)
      modifies this
      ensures frame == old(frame).(point := point) && transformation == FromFrame(frame)
      ensures major == old(major) && minor == old(minor)
      ensures Valid()
    {
      frame := frame.(point := point);
      transformation := FromFrame(frame);
    }

    method SetMajor(a: real)
      modifies this
      ensures major == a && minor == old(minor)
      ensures frame == old(frame) && transformation == old(transformation)
    {
      major := a;
    }

    method SetMinor(b: real)
      modifies this
      ensures minor == b && major == old(major)
      ensures frame == old(frame) && transformation == old(transformation)
    {
      minor := b;
    }

    function Center(): Point reads this { frame.point }

    function Normal(): Vector reads this { frame.zaxis() }

    function IsPeriodic(): bool { true }

    function IsClosed(): bool { true }

    function Domain(m: Math): Curves.Domain { AngularDomain(m) }

    function Eccentricity(m: Math): Result<real> reads this { EccentricityOf(m, major, minor) }

    function Semifocal(m: Math): Result<real> reads this { SemifocalOf(m, major, minor) }

    function Focal(m: Math): Result<real> reads this { FocalOf(m, major, minor) }

    /** `area` and `circumference` are not implemented. */
    function Area(): (r: Result<real>)
      ensures r.Failure? && r.error == NotImplemented
    {
      Failure(NotImplemented)
    }

    function Circumference(): (r: Result<real>)
      ensures r.Failure? && r.error == NotImplemented
    {
      Failure(NotImplemented)
    }

    /** The first focus, on the positive x-axis. */
    function Focus1(m: Math): (r: Result<Point>)
      reads this
      ensures r.Success? <==> Semifocal(m).Success?
      ensures r.Success? ==> r.value == Foci(Center(), frame.xaxis, Semifocal(m).value).0
    {
      var c := Semifocal(m);
      if c.Failure? then Failure(c.error) else Success(Add(frame.point, Scale(frame.xaxis, c.value)))
    }

    /** The second focus, on the negative x-axis. */
    function Focus2(m: Math): (r: Result<Point>)
      reads this
      ensures r.Success? <==> Semifocal(m).Success?
      ensures r.Success? ==> r.value == Foci(Center(), frame.xaxis, Semifocal(m).value).1
    {
      var c := Semifocal(m);
      if c.Failure? then Failure(c.error) else Success(Add(frame.point, Scale(frame.xaxis, -c.value)))
    }

    /** The foci are symmetric about the centre and, with a unit x-axis,
        the focal distance apart. */
    lemma FociAboutCenter(m: Math)
      requires Semifocal(m).Success?
      ensures Add(Focus1(m).value, Focus2(m).value) == Scale(Center(), 2.0)
      ensures Dot(frame.xaxis, frame.xaxis) == 1.0 ==>
        Dot(Sub(Focus1(m).value, Focus2(m).value), Sub(Focus1(m).value, Focus2(m).value))
        == Focal(m).value * Focal(m).value
    {
      FociSymmetric(Center(), frame.xaxis, Semifocal(m).value);
    }

    /** The first directrix as written: the line through the first focus
        along the y-axis. */
    method Directix1(m: Math) returns (r: Result<Line>)
      ensures r.Success? <==> Semifocal(m).Success?
      ensures r.Failure? ==> r.error == MathDomain
      ensures r.Success? ==> fresh(r.value) && r.value.start == Focus1(m).value
      ensures r.Success? ==> r.value.end == Add(Focus1(m).value, frame.yaxis)
    {
      var f := Focus1(m);
      if f.Failure? {
        r := Failure(f.error);
      } else {
        var line := new Line(f.value, Add(f.value, frame.yaxis));
        r := Success(line);
      }
    }

    /** The second directrix as written: the line through the second focus
        along the y-axis. */
    method Directix2(m: Math) returns (r: Result<Line>)
      ensures r.Success? <==> Semifocal(m).Success?
      ensures r.Failure? ==> r.error == MathDomain
      ensures r.Success? ==> fresh(r.value) && r.value.start == Focus2(m).value
      ensures r.Success? ==> r.value.end == Add(Focus2(m).value, frame.yaxis)
    {
      var f := Focus2(m);
      if f.Failure? {
        r := Failure(f.error);
      } else {
        var line := new Line(f.value, Add(f.value, frame.yaxis));
        r := Success(line);
      }
    }

    /** The first directrix as documented: the line along the y-axis at
        distance `a / e` from the centre on the positive x-axis. */
    method Directix1Intended(m: Math) returns (r: Result<Line>)
      ensures r.Success? <==> DirectrixDistance(m, major, minor).Success?
      ensures r.Success? ==> fresh(r.value)
      ensures r.Success? ==>
        r.value.start == Add(Center(), Scale(frame.xaxis, DirectrixDistance(m, major, minor).value))
      ensures r.Success? ==> r.value.end == Add(r.value.start, frame.yaxis)
    {
      var d := DirectrixDistance(m, major, minor);
      if d.Failure? {
        r := Failure(d.error);
      } else {
        var p := Add(frame.point, Scale(frame.xaxis, d.value));
        var line := new Line(p, Add(p, frame.yaxis));
        r := Success(line);
      }
    }

    /** The second directrix as documented, on the negative x-axis. */
    method Directix2Intended(m: Math) returns (r: Result<Line>)
      ensures r.Success? <==> DirectrixDistance(m, major, minor).Success?
      ensures r.Success? ==> fresh(r.value)
      ensures r.Success? ==>
        r.value.start == Add(Center(), Scale(frame.xaxis, -DirectrixDistance(m, major, minor).value))
      ensures r.Success? ==> r.value.end == Add(r.value.start, frame.yaxis)
    {
      var d := DirectrixDistance(m, major, minor);
      if d.Failure? {
        r := Failure(d.error);
      } else {
        var p := Add(frame.point, Scale(frame.xaxis, -d.value));
        var line := new Line(p, Add(p, frame.yaxis));
        r := Success(line);
      }
    }

    /** The point at `t` (at `t * 2pi` when normalized). */
    function PointAt(m: Math, t: real, normalized: bool): Point
      reads this
    {
      ApplyPoint(transformation, LocalPoint(m, major, minor, Angle(m, t, normalized)))
    }

    /** With a current cache and an orthonormal frame, the point at `t` lies
        in the ellipse's plane and its coordinates along the frame's axes
        satisfy the ellipse's equation. */
    lemma PointAtOnEllipse(m: Math, t: real, normalized: bool)
      requires Sound(m) && Valid() && Orthonormal(frame) && major != 0.0 && minor != 0.0
      ensures
        var d := Sub(PointAt(m, t, normalized), Center());
        && Sq(Dot(d, frame.xaxis) / major) + Sq(Dot(d, frame.yaxis) / minor) == 1.0
        && Dot(d, Normal()) == 0.0
    {
      var local := LocalPoint(m, major, minor, Angle(m, t, normalized));
      LocalCoordinates(frame, local);
      Placed(frame, local);
      OnEllipse(m, major, minor, Angle(m, t, normalized));
    }

    /** The tangent at `t`: the local tangent, unitized, then mapped as a
        vector. Unitizing fails only for a zero local tangent. */
    function TangentAt(m: Math, t: real, normalized: bool): (r: Result<Vector>)
      requires Sound(m)
      reads this
      ensures r.Failure? <==> LocalTangent(m, major, minor, Angle(m, t, normalized)) == Zero
      ensures r.Failure? ==> r.error == ZeroDivision
    {
      var u := Unitize(m, LocalTangent(m, major, minor, Angle(m, t, normalized)));
      if u.Failure? then Failure(u.error) else Success(ApplyVector(transformation, u.value))
    }

    /** With non-zero radii, a current cache and an orthonormal frame, the
        tangent exists and is a unit vector in the ellipse's plane. */
    lemma TangentInPlane(m: Math, t: real, normalized: bool)
      requires Sound(m) && Valid() && Orthonormal(frame) && major != 0.0 && minor != 0.0
      ensures TangentAt(m, t, normalized).Success?
      ensures Dot(TangentAt(m, t, normalized).value, TangentAt(m, t, normalized).value) == 1.0
      ensures Dot(TangentAt(m, t, normalized).value, Normal()) == 0.0
    {
      var v := LocalTangent(m, major, minor, Angle(m, t, normalized));
      TangentNonZero(m, major, minor, Angle(m, t, normalized));
      UnitizeUnit(m, v);
      var u := Unitize(m, v).value;
      assert u.z == 0.0 by {
        assert Scale(u, Length(m, v)) == v;
        LengthZero(m, v);
        ZeroProduct(u.z, Length(m, v));
      }
      PlanarIsometry(frame, u, u);
      InPlane(frame, u);
    }

    /** The normal at `t`: the frame's normal crossed with the tangent at
        `t`, unitized. It fails exactly when the tangent does. */
    function NormalAt(m: Math, t: real, normalized: bool): (r: Result<Vector>)
      requires Sound(m)
      reads this
      ensures TangentAt(m, t, normalized).Failure? ==> r == Failure(ZeroDivision)
      ensures TangentAt(m, t, normalized).Success? ==>
        r == Unitize(m, Cross(Normal(), TangentAt(m, t, normalized).value))
    {
      var x := TangentAt(m, Angle(m, t, normalized), false);
      if x.Failure? then Failure(x.error) else Unitize(m, Cross(frame.zaxis(), x.value))
    }

    /** With non-zero radii, a current cache and an orthonormal frame, the
        normal at `t` exists, is a unit vector in the ellipse's plane and is
        orthogonal to the tangent at `t`. */
    lemma NormalAcrossTangent(m: Math, t: real, normalized: bool)
      requires Sound(m) && Valid() && Orthonormal(frame) && major != 0.0 && minor != 0.0
      ensures NormalAt(m, t, normalized).Success?
      ensures NormalAt(m, t, normalized).value == Cross(Normal(), TangentAt(m, t, normalized).value)
      ensures Dot(NormalAt(m, t, normalized).value, NormalAt(m, t, normalized).value) == 1.0
      ensures Dot(NormalAt(m, t, normalized).value, TangentAt(m, t, normalized).value) == 0.0
      ensures Dot(NormalAt(m, t, normalized).value, Normal()) == 0.0
    {
      TangentInPlane(m, t, normalized);
      var x := TangentAt(m, t, normalized).value;
      OrthonormalZaxis(frame);
      CrossUnit(m, Normal(), x);
    }

    /** The frame at `t`: origin the point at `t`, x-axis the tangent and
        y-axis the frame's normal crossed with it. */
    function FrameAt(m: Math, t: real, normalized: bool): (r: Result<Frame>)
      requires Sound(m)
      reads this
      ensures r.Success? <==> TangentAt(m, t, normalized).Success?
      ensures r.Failure? ==> r.error == ZeroDivision
      ensures r.Success? ==> r.value.point == PointAt(m, t, normalized)
      ensures r.Success? ==> r.value.xaxis == TangentAt(m, t, normalized).value
      ensures r.Success? ==> r.value.yaxis == Cross(Normal(), r.value.xaxis)
    {
      var a := Angle(m, t, normalized);
      var x := TangentAt(m, a, false);
      if x.Failure? then Failure(x.error)
      else Success(Frame(PointAt(m, a, false), x.value, Cross(frame.zaxis(), x.value)))
    }

    /** With non-zero radii, a current cache and an orthonormal frame, the
        frame at `t` is orthonormal, its y-axis the normal at `t`. */
    lemma FrameAtOrthonormal(m: Math, t: real, normalized: bool)
      requires Sound(m) && Valid() && Orthonormal(frame) && major != 0.0 && minor != 0.0
      ensures FrameAt(m, t, normalized).Success? && Orthonormal(FrameAt(m, t, normalized).value)
      ensures FrameAt(m, t, normalized).value.yaxis == NormalAt(m, t, normalized).value
    {
      TangentInPlane(m, t, normalized);
      NormalAcrossTangent(m, t, normalized);
      var x := TangentAt(m, t, normalized).value;
      var y := Cross(Normal(), x);
      assert Dot(x, y) == Dot(y, x);
    }

    /** `Conic.transform`: the frame is transformed and the cache rebuilt;
        the radii are untouched. */
    method Transform(T: Transformation)
      modifies this
      ensures frame == TransformFrame(T, old(frame)) && transformation == FromFrame(frame)
      ensures major == old(major) && minor == old(minor)
      ensures Valid()
    {
      frame := TransformFrame(T, frame);
      transformation := FromFrame(frame);
    }

    /** The ellipse is closed: both ends of its domain, and the normalized
        parameter 1, give the same point. */
    lemma ClosedAtDomainEnds(m: Math)
      requires Sound(m)
      ensures IsClosed() && IsPeriodic()
      ensures Contains(Domain(m), 0.0) && Contains(Domain(m), 2.0 * m.pi)
      ensures PointAt(m, 2.0 * m.pi, false) == PointAt(m, 0.0, false)
      ensures PointAt(m, 1.0, true) == PointAt(m, 0.0, false)
    {
      assert Angle(m, 1.0, true) == 2.0 * m.pi;
      assert LocalPoint(m, major, minor, 2.0 * m.pi) == LocalPoint(m, major, minor, 0.0);
    }
  }
}
