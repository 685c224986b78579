/** The parabola (`Parabola` of the curve kernel): a frame, the cached map
    from that frame to the world and the focal distance `f`. Points are
    `(t, a t^2, 0)` in the frame's own coordinates with `a = 1 / (4 f)`: the
    vertex is the frame's origin, the y-axis the axis of symmetry and the
    focus lies at `(0, f)`. */
module Parabolas {
  import opened Elementary
  import opened Outcomes
  import opened Space
  import opened Curves
  import opened Lines

  /** The property `a`: `1 / (4 f)`, a division by zero for `f = 0`. */
  function CoefficientOf(focal: real): (r: Result<real>)
    ensures r.Failure? <==> focal == 0.0
    ensures r.Failure? ==> r.error == ZeroDivision
    ensures r.Success? ==> 4.0 * focal * r.value == 1.0
  {
    if 4.0 * focal == 0.0 then Failure(ZeroDivision) else Success(1.0 / (4.0 * focal))
  }

  /** The focal distance the `a` setter stores: `1 / (4 a)`. */
  function FocalOfCoefficient(a: real): (r: Result<real>)
    ensures r.Failure? <==> a == 0.0
    ensures r.Failure? ==> r.error == ZeroDivision
    ensures r.Success? ==> 4.0 * a * r.value == 1.0
  {
    if 4.0 * a == 0.0 then Failure(ZeroDivision) else Success(1.0 / (4.0 * a))
  }

  /** Setting `a` and reading it back gives the value set, for `a != 0`. */
  lemma CoefficientRoundTrip(a: real)
    requires a != 0.0
    ensures FocalOfCoefficient(a).Success?
    ensures CoefficientOf(FocalOfCoefficient(a).value) == Success(a)
  {
    var f := FocalOfCoefficient(a).value;
    assert 4.0 * a * f == 1.0;
    assert 4.0 * f * a == 1.0;
    Reciprocal(4.0 * f, a);
  }

  /** Reading `a` and setting it back restores the focal distance, for `f != 0`. */
  lemma FocalRoundTrip(focal: real)
    requires focal != 0.0
    ensures CoefficientOf(focal).Success?
    ensures FocalOfCoefficient(CoefficientOf(focal).value) == Success(focal)
  {
    var a := CoefficientOf(focal).value;
    assert 4.0 * focal * a == 1.0;
    assert 4.0 * a * focal == 1.0;
    Reciprocal(4.0 * a, focal);
  }

  lemma Reciprocal(x: real, y: real)
    requires x * y == 1.0
    ensures x != 0.0 && 1.0 / x == y
  {
  }

  /** The point at `t`, in the parabola's own frame. */
  function LocalPoint(a: real, t: real): (p: Point)
    ensures p.z == 0.0
  {
    Vec3(t, a * t * t, 0.0)
  }

  /** The derivative of the local point with respect to `t`. */
  function Derivative(a: real, t: real): (v: Vector)
    ensures v.z == 0.0 && v != Zero
  {
    Vec3(1.0, 2.0 * a * t, 0.0)
  }

  /** The derivative is the direction the curve moves in: the chord from
      `t` to `t + h` is `h` times a vector that tends to the derivative as
      `h` goes to zero. */
  lemma ChordSlope(a: real, t: real, h: real)
    ensures Sub(LocalPoint(a, t + h), LocalPoint(a, t)) == Scale(Add(Derivative(a, t), Vec3(0.0, a * h, 0.0)), h)
  {
    assert a * (t + h) * (t + h) - a * t * t == (2.0 * a * t + a * h) * h;
  }

  /** The local tangent before unitizing, as `tangent_at` builds it from the
      point `(x0, y0)` and a second point `(x, y)`. */
  function LocalTangent(a: real, t: real): (v: Vector)
    ensures v.z == 0.0
  {
    var x0, y0 := t, a * t * t;
    var x := 2.0 * t;
    var y := 2.0 * a * x0 * x - y0;
    Vec3(x - x0, y - y0, 0.0)
  }

  /** The local normal before unitizing, as `normal_at` builds it from the
      same two points. */
  function LocalNormal(a: real, t: real): (v: Vector)
    ensures v.z == 0.0
  {
    var x0, y0 := t, a * t * t;
    var x := 2.0 * t;
    var y := 2.0 * a * x0 * x - y0;
    Vec3(y0 - y, x - x0, 0.0)
  }

  /** The normal the intended tangent turns into by a quarter turn in the plane. */
  function NormalDirection(a: real, t: real): (v: Vector)
    ensures v.z == 0.0 && v != Zero
  {
    Vec3(-2.0 * a * t, 1.0, 0.0)
  }

  /** The local tangent as written is `t` times the derivative: parallel to
      it, pointing backwards for `t < 0` and zero at `t = 0`. The local
      normal is likewise `t` times the quarter-turned derivative, and the
      two are orthogonal. */
  lemma LocalFrameAsWritten(a: real, t: real)
    ensures LocalTangent(a, t) == Scale(Derivative(a, t), t)
    ensures LocalNormal(a, t) == Scale(NormalDirection(a, t), t)
    ensures LocalTangent(a, t) == Zero <==> t == 0.0
    ensures Dot(LocalTangent(a, t), Derivative(a, t)) == t * Dot(Derivative(a, t), Derivative(a, t))
    ensures Dot(LocalNormal(a, t), LocalTangent(a, t)) == 0.0
    ensures Dot(NormalDirection(a, t), Derivative(a, t)) == 0.0
  {
    assert 2.0 * a * t * (2.0 * t) - a * t * t - a * t * t == (2.0 * a * t) * t;
    DotScale(Derivative(a, t), t, Derivative(a, t));
  }

  /** The focus-directrix property in the parabola's own frame: with
      `4 a f = 1`, the point at `t` is as far from the focus `(0, f)` as from
      the line `y = -f` (stated with squared distances). */
  lemma FocusDirectrixLocal(a: real, f: real, t: real)
    requires 4.0 * f * a == 1.0
    ensures Sq(LocalPoint(a, t).x) + Sq(LocalPoint(a, t).y - f) == Sq(LocalPoint(a, t).y + f)
  {
    var y := a * t * t;
    assert Sq(y + f) - Sq(y - f) == 4.0 * f * a * (t * t);
  }

  /** The squared distance of a placed local point from the point `k`
      along the frame's y-axis is the local squared distance from `(0, k)`. */
  lemma DistanceToFocus(f: Frame, local: Point, k: real)
    requires Orthonormal(f) && local.z == 0.0
    ensures
      var d := Sub(ApplyPoint(FromFrame(f), local), Add(f.point, Scale(f.yaxis, k)));
      Dot(d, d) == Sq(local.x) + Sq(local.y - k)
  {
    var moved := f.(point := Add(f.point, Scale(f.yaxis, k)));
    var q := Vec3(local.x, local.y - k, 0.0);
    ShiftAlongY(f, local, k);
    Placed(moved, q);
  }

  /** The offset of a placed local point from the point `-k` along the
      frame's y-axis has y-coordinate `y + k`. */
  lemma DistanceToDirectrix(f: Frame, local: Point, k: real)
    requires Orthonormal(f) && local.z == 0.0
    ensures Dot(Sub(ApplyPoint(FromFrame(f), local), Add(f.point, Scale(f.yaxis, -k))), f.yaxis) == local.y + k
  {
    var moved := f.(point := Add(f.point, Scale(f.yaxis, -k)));
    var q := Vec3(local.x, local.y - -k, 0.0);
    ShiftAlongY(f, local, -k);
    LocalCoordinates(moved, q);
  }

  /** Moving a frame's origin by `k` along its y-axis and lowering a local
      point by `k` leaves the world point where it was. */
  lemma ShiftAlongY(f: Frame, local: Point, k: real)
    requires local.z == 0.0
    ensures ApplyPoint(FromFrame(f), local)
         == ApplyPoint(FromFrame(f.(point := Add(f.point, Scale(f.yaxis, k)))), Vec3(local.x, local.y - k, 0.0))
  {
    ApplyPlanar(FromFrame(f), local);
    ApplyPlanar(FromFrame(f.(point := Add(f.point, Scale(f.yaxis, k)))), Vec3(local.x, local.y - k, 0.0));
    ScaleDistributes(f.yaxis, local.y - k, k);
  }

  /** Unitizing `t v` and mapping it gives the mapped unit vector of `v`,
      turned round for `t < 0`. */
  lemma MappedScaled(m: Math, T: Transformation, v: Vector, t: real)
    requires Sound(m) && v != Zero && t != 0.0
    ensures Unitize(m, v).Success? && Unitize(m, Scale(v, t)).Success?
    ensures ApplyVector(T, Unitize(m, Scale(v, t)).value)
         == Scale(ApplyVector(T, Unitize(m, v).value), if t > 0.0 then 1.0 else -1.0)
  {
    UnitizeScaled(m, v, t);
    ApplyVectorScale(T, Unitize(m, v).value, if t > 0.0 then 1.0 else -1.0);
  }

  /** The data dictionary `{"frame": ..., "focal": ...}`. */
  datatype ParabolaData = ParabolaData(frame: Frame, focal: real)

  class Parabola {
    var frame: Frame
    var transformation: Transformation
    var focal: real

    /** The cache is the local-to-world map of the current frame. */
    predicate Valid()
      reads this
    {
      Cached(frame, transformation)
    }

    /** A missing frame means the world XY frame. */
    constructor (frame: Option<Frame>, focal: real)
      ensures this.frame == (if frame.Some? then frame.value else WorldXY)
      ensures this.focal == focal
      ensures Valid()
    {
      this.frame := if frame.Some? then frame.value else WorldXY;
      this.transformation := FromFrame(if frame.Some? then frame.value else WorldXY);
      this.focal := focal;
    }

    /** `data`; the data setter and `from_data` round-trip it. */
    function Data(): (d: ParabolaData)
      reads this
      ensures d.frame == frame && d.focal == focal
    {
      ParabolaData(frame, focal)
    }

    static method FromData(data: ParabolaData) returns (parabola: Parabola)
      ensures fresh(parabola) && parabola.Valid()
      ensures parabola.Data() == data
    {
      parabola := new Parabola(Some(data.frame), data.focal);
    }

    method SetData(data: ParabolaData)
      modifies this
      ensures Data() == data && Valid()
    {
      SetFrame(data.frame);
      SetFocal(data.focal);
    }

    /** The frame setter rebuilds the cache. */
    method SetFrame(f: Frame)
      modifies this
      ensures frame == f && transformation == FromFrame(f)
      ensures focal == old(focal)
      ensures Valid()
    {
      frame := f;
      transformation := FromFrame(f);
    }

    /** The focal setter stores any value, zero included. */
    method SetFocal(f: real)
      modifies this
      ensures focal == f
      ensures frame == old(frame) && transformation == old(transformation)
    {
      focal := f;
    }

    /** The point setter as written moves the frame's origin but keeps the
        cached transformation, which is stale once the origin has moved. */
    method SetPoint(point: Point)
      modifies this
      ensures frame == old(frame).(point := point)
      ensures transformation == old(transformation) && focal == old(focal)
      ensures old(Valid()) && point != old(frame).point ==> !Valid()
    {
      if Valid() && point != frame.point {
        MovedOriginStale(frame, point, transformation);
      }
      frame := frame.(point := point);
    }

    /** The point setter with the cache rebuilt, as the frame setter does. */
    method SetPointRebuilt(point: Point)
      modifies this
      ensures frame == old(frame).(point := point) && transformation == FromFrame(frame)
      ensures focal == old(focal)
      ensures Valid()
    {
      frame := frame.(point := point);
      transformation := FromFrame(frame);
    }

    /** The coefficient `a` of `y = a x^2`. */
    function A(): Result<real> reads this { CoefficientOf(focal) }

    /** The `a` setter: for `a = 0` the division fails before anything is
        stored; otherwise the focal distance becomes `1 / (4 a)` and reading
        `a` gives back the value set. */
    method SetA(a: real) returns (error: Option<Error>)
      modifies this
      ensures a == 0.0 ==> error == Some(ZeroDivision) && focal == old(focal)
      ensures a != 0.0 ==> error.None? && Success(focal) == FocalOfCoefficient(a) && A() == Success(a)
      ensures frame == old(frame) && transformation == old(transformation)
    {
      var f := FocalOfCoefficient(a);
      if f.Failure? {
        error := Some(f.error);
      } else {
        CoefficientRoundTrip(a);
        focal := f.value;
        error := None;
      }
    }

    function Normal(): Vector reads this { frame.zaxis() }

    function IsPeriodic(): bool { false }

    function IsClosed(): bool { false }

    function Domain(): Curves.Domain { Curves.Domain(NegInf, PosInf) }

    function Eccentricity(): real { 1.0 }

    /** `latus`: twice the focal distance. */
    function Latus(): real reads this { 2.0 * focal }

    /** The parabola is open and unbounded: its domain holds every real, it
        is neither closed nor periodic, and its eccentricity is 1. */
    lemma Measures(t: real)
      ensures Contains(Domain(), t) && !IsClosed() && !IsPeriodic() && Eccentricity() == 1.0
    {
    }

    /** `latus` is the semi-latus rectum: the points at `t = +/- latus` lie
        level with the focus, on the chord through it parallel to the
        directrix. */
    lemma LatusLevelWithFocus()
      requires focal != 0.0
      ensures LocalPoint(A().value, Latus()).y == focal && LocalPoint(A().value, -Latus()).y == focal
    {
      var a := A().value;
      assert 4.0 * focal * a == 1.0;
      assert a * Latus() * Latus() == (4.0 * focal * a) * focal;
      assert a * -Latus() * -Latus() == (4.0 * focal * a) * focal;
    }

    /** `focus`: the origin moved by `f` along the y-axis. */
    function Focus(): (p: Point)
      reads this
      ensures Sub(p, Vertex()) == Scale(frame.yaxis, focal)
    {
      Add(frame.point, Scale(frame.yaxis, focal))
    }

    /** `vertex`: the origin of the frame. */
    function Vertex(): Point reads this { frame.point }

    /** The point the directrix starts from: the origin moved by `-f` along
        the y-axis. */
    function DirectrixPoint(): (p: Point)
      reads this
      ensures Sub(Vertex(), p) == Scale(frame.yaxis, focal)
    {
      Add(frame.point, Scale(frame.yaxis, -focal))
    }

    /** `directix`: the line from `DirectrixPoint()` along the x-axis. */
    method Directix() returns (line: Line)
      ensures fresh(line) && line.start == DirectrixPoint() && line.end == Add(DirectrixPoint(), frame.xaxis)
      ensures Sub(line.end, line.start) == frame.xaxis
    {
      var p := Add(frame.point, Scale(frame.yaxis, -focal));
      line := new Line(p, Add(p, frame.xaxis));
    }

    /** The point at `t`; it fails, through `a`, for a zero focal distance. */
    function PointAt(t: real): (r: Result<Point>)
      reads this
      ensures r.Failure? <==> focal == 0.0
      ensures r.Failure? ==> r.error == ZeroDivision
    {
      var a := A();
      if a.Failure? then Failure(a.error) else Success(ApplyPoint(transformation, LocalPoint(a.value, t)))
    }

    /** The point at 0 is the vertex. */
    lemma VertexAtZero()
      requires Valid() && focal != 0.0
      ensures PointAt(0.0) == Success(Vertex())
    {
    }

    /** With a current cache and an orthonormal frame, the point at `t` lies
        in the parabola's plane, `t` along the x-axis and `a t^2` along the
        y-axis from the vertex. */
    lemma PointAtOnParabola(t: real)
      requires Valid() && Orthonormal(frame) && focal != 0.0
      ensures PointAt(t).Success?
      ensures
        var d := Sub(PointAt(t).value, Vertex());
        && Dot(d, frame.xaxis) == t
        && Dot(d, frame.yaxis) == A().value * Sq(Dot(d, frame.xaxis))
        && Dot(d, Normal()) == 0.0
    {
      var local := LocalPoint(A().value, t);
      LocalCoordinates(frame, local);
      Placed(frame, local);
    }

    /** The focus-directrix property in the world: every point is as far
        from the focus as from the directrix, whose distance is measured
        along the y-axis since the directrix runs along the x-axis. */
    lemma FocusDirectrix(t: real)
      requires Valid() && Orthonormal(frame) && focal != 0.0
      ensures PointAt(t).Success?
      ensures
        var p := PointAt(t).value;
        Dot(Sub(p, Focus()), Sub(p, Focus())) == Sq(Dot(Sub(p, DirectrixPoint()), frame.yaxis))
    {
      var a := A().value;
      var local := LocalPoint(a, t);
      DistanceToFocus(frame, local, focal);
      DistanceToDirectrix(frame, local, focal);
      FocusDirectrixLocal(a, focal, t);
    }

    /** The tangent at `t` as written: the local tangent `t (1, 2 a t)`,
        unitized, then mapped as a vector. It fails through `a` for a zero
        focal distance and, at the vertex, because that vector is zero. */
    function TangentAt(m: Math, t: real): (r: Result<Vector>)
      requires Sound(m)
      reads this
      ensures r.Failure? <==> focal == 0.0 || t == 0.0
      ensures r.Failure? ==> r.error == ZeroDivision
    {
      var a := A();
      if a.Failure? then Failure(a.error)
      else
        LocalFrameAsWritten(a.value, t);
        var u := Unitize(m, LocalTangent(a.value, t));
        if u.Failure? then Failure(u.error) else Success(ApplyVector(transformation, u.value))
    }

    /** The tangent along the derivative `(1, 2 a t)`, which exists wherever
        the point does. */
    function TangentAtIntended(m: Math, t: real): (r: Result<Vector>)
      requires Sound(m)
      reads this
      ensures r.Failure? <==> focal == 0.0
      ensures r.Failure? ==> r.error == ZeroDivision
    {
      var a := A();
      if a.Failure? then Failure(a.error)
      else
        var u := Unitize(m, Derivative(a.value, t));
        Success(ApplyVector(transformation, u.value))
    }

    /** The normal at `t` as written: the local normal `t (-2 a t, 1)`,
        unitized, then mapped as a vector. */
    function NormalAt(m: Math, t: real): (r: Result<Vector>)
      requires Sound(m)
      reads this
      ensures r.Failure? <==> focal == 0.0 || t == 0.0
      ensures r.Failure? ==> r.error == ZeroDivision
    {
      var a := A();
      if a.Failure? then Failure(a.error)
      else
        LocalFrameAsWritten(a.value, t);
        var u := Unitize(m, LocalNormal(a.value, t));
        if u.Failure? then Failure(u.error) else Success(ApplyVector(transformation, u.value))
    }

    /** The normal along `(-2 a t, 1)`, a quarter turn from the derivative. */
    function NormalAtIntended(m: Math, t: real): (r: Result<Vector>)
      requires Sound(m)
      reads this
      ensures r.Failure? <==> focal == 0.0
      ensures r.Failure? ==> r.error == ZeroDivision
    {
      var a := A();
      if a.Failure? then Failure(a.error)
      else
        var u := Unitize(m, NormalDirection(a.value, t));
        Success(ApplyVector(transformation, u.value))
    }

    /** At the vertex the evaluators as written fail, while the tangent and
        normal along the derivative exist. */
    lemma FailsAtVertex(m: Math)
      requires Sound(m) && focal != 0.0
      ensures TangentAt(m, 0.0).Failure? && NormalAt(m, 0.0).Failure?
      ensures TangentAtIntended(m, 0.0).Success? && NormalAtIntended(m, 0.0).Success?
    {
    }

    /** Away from the vertex the tangent as written is the intended one,
        turned round for `t < 0`. */
    lemma TangentTurned(m: Math, t: real)
      requires Sound(m) && focal != 0.0 && t != 0.0
      ensures TangentAt(m, t).Success? && TangentAtIntended(m, t).Success?
      ensures TangentAt(m, t).value == Scale(TangentAtIntended(m, t).value, if t > 0.0 then 1.0 else -1.0)
    {
      var a := A().value;
      var d := Derivative(a, t);
      LocalFrameAsWritten(a, t);
      MappedScaled(m, transformation, d, t);
      assert TangentAt(m, t) == Success(ApplyVector(transformation, Unitize(m, Scale(d, t)).value));
      assert TangentAtIntended(m, t) == Success(ApplyVector(transformation, Unitize(m, d).value));
    }

    /** Likewise for the normal as written. */
    lemma NormalTurned(m: Math, t: real)
      requires Sound(m) && focal != 0.0 && t != 0.0
      ensures NormalAt(m, t).Success? && NormalAtIntended(m, t).Success?
      ensures NormalAt(m, t).value == Scale(NormalAtIntended(m, t).value, if t > 0.0 then 1.0 else -1.0)
    {
      var a := A().value;
      var n := NormalDirection(a, t);
      LocalFrameAsWritten(a, t);
      MappedScaled(m, transformation, n, t);
      assert NormalAt(m, t) == Success(ApplyVector(transformation, Unitize(m, Scale(n, t)).value));
      assert NormalAtIntended(m, t) == Success(ApplyVector(transformation, Unitize(m, n).value));
    }

    /** With a current cache and an orthonormal frame, the intended tangent
        and normal are orthogonal unit vectors in the parabola's plane. */
    lemma IntendedInPlane(m: Math, t: real)
      requires Sound(m) && Valid() && Orthonormal(frame) && focal != 0.0
      ensures TangentAtIntended(m, t).Success? && NormalAtIntended(m, t).Success?
      ensures
        var x, y := TangentAtIntended(m, t).value, NormalAtIntended(m, t).value;
        && Dot(x, x) == 1.0 && Dot(y, y) == 1.0 && Dot(x, y) == 0.0
        && Dot(x, Normal()) == 0.0 && Dot(y, Normal()) == 0.0
    {
      var a := A().value;
      var d, n := Derivative(a, t), NormalDirection(a, t);
      LocalFrameAsWritten(a, t);
      UnitizeUnit(m, d);
      UnitizeUnit(m, n);
      UnitizePlanar(m, d);
      UnitizePlanar(m, n);
      var u, w := Unitize(m, d).value, Unitize(m, n).value;
      UnitizeOrthogonal(m, n, d);
      assert Dot(d, w) == 0.0;
      UnitizeOrthogonal(m, d, w);
      PlanarIsometry(frame, u, u);
      PlanarIsometry(frame, w, w);
      PlanarIsometry(frame, u, w);
      InPlane(frame, u);
      InPlane(frame, w);
    }

    /** The evaluators as written give orthogonal unit vectors in the
        parabola's plane away from the vertex. */
    lemma NormalAcrossTangent(m: Math, t: real)
      requires Sound(m) && Valid() && Orthonormal(frame) && focal != 0.0 && t != 0.0
      ensures TangentAt(m, t).Success? && NormalAt(m, t).Success?
      ensures
        var x, y := TangentAt(m, t).value, NormalAt(m, t).value;
        && Dot(x, x) == 1.0 && Dot(y, y) == 1.0 && Dot(x, y) == 0.0
        && Dot(x, Normal()) == 0.0 && Dot(y, Normal()) == 0.0
    {
      TangentTurned(m, t);
      NormalTurned(m, t);
      IntendedInPlane(m, t);
      var sign := if t > 0.0 then 1.0 else -1.0;
      var x, y := TangentAtIntended(m, t).value, NormalAtIntended(m, t).value;
      DotScaleBoth(x, sign, x, sign);
      DotScaleBoth(y, sign, y, sign);
      DotScaleBoth(x, sign, y, sign);
      DotScale(x, sign, Normal());
      DotScale(y, sign, Normal());
    }

    /** `frame_at` as written passes a `normalized` keyword that `point_at`
        and `tangent_at` do not accept, so every call fails. */
    function FrameAt(t: real): (r: Result<Frame>)
      ensures r.Failure? && r.error == BadArgument
    {
      Failure(BadArgument)
    }

    /** The frame at `t` with the keyword dropped and the intended tangent:
        origin the point at `t`, x-axis the tangent and y-axis the frame's
        normal crossed with it. */
    function FrameAtIntended(m: Math, t: real): (r: Result<Frame>)
      requires Sound(m)
      reads this
      ensures r.Success? <==> focal != 0.0
      ensures r.Failure? ==> r.error == ZeroDivision
      ensures r.Success? ==> r.value.point == PointAt(t).value && r.value.xaxis == TangentAtIntended(m, t).value
      ensures r.Success? ==> r.value.yaxis == Cross(Normal(), r.value.xaxis)
    {
      var p := PointAt(t);
      if p.Failure? then Failure(p.error)
      else
        var x := TangentAtIntended(m, t).value;
        Success(Frame(p.value, x, Cross(frame.zaxis(), x)))
    }

    /** With a current cache and an orthonormal frame, the intended frame at
        `t` is orthonormal. */
    lemma FrameAtIntendedOrthonormal(m: Math, t: real)
      requires Sound(m) && Valid() && Orthonormal(frame) && focal != 0.0
      ensures FrameAtIntended(m, t).Success? && Orthonormal(FrameAtIntended(m, t).value)
    {
      IntendedInPlane(m, t);
      var x := TangentAtIntended(m, t).value;
      OrthonormalZaxis(frame);
      CrossUnit(m, Normal(), x);
      var y := Cross(Normal(), x);
      assert Dot(x, y) == Dot(y, x);
    }

    /** `Conic.transform`: the frame is transformed and the cache rebuilt;
        the focal distance is untouched. */
    method Transform(T: Transformation)
      modifies this
      ensures frame == TransformFrame(T, old(frame)) && transformation == FromFrame(frame)
      ensures focal == old(focal)
      ensures Valid()
    {
      frame := TransformFrame(T, frame);
      transformation := FromFrame(frame);
    }
  }
}
