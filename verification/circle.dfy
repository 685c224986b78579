/** The circle (`Circle` of the curve kernel): a frame, the cached map from
    that frame to the world, and a radius. Points are computed in the
    frame's own coordinates and mapped through the cached transformation. */
module Circles {
  import opened Elementary
  import opened Outcomes
  import opened Space
  import opened Curves

  /** The point at angle `t` of a circle of radius `r`, in its own frame. */
  function LocalPoint(m: Math, r: real, t: real): (p: Point)
    requires Sound(m)
    ensures p.z == 0.0 && Dot(p, p) == r * r
  {
    Pythagoras(m, t);
    PolarNorm(r, m.Cos(t), m.Sin(t));
    Vec3(r * m.Cos(t), r * m.Sin(t), 0.0)
  }

  /** What `circle[0]` and `circle[1]` hold. */
  datatype Item = FrameItem(frame: Frame) | RadiusItem(radius: real)

  /** The data dictionary `{"frame": ..., "radius": ...}`. */
  datatype CircleData = CircleData(frame: Frame, radius: real)

  class Circle {
    var frame: Frame
    var transformation: Transformation
    var radius: real

    /** The cache is the local-to-world map of the current frame. */
    predicate Valid()
      reads this
    {
      Cached(frame, transformation)
    }

    /** A missing frame means the world XY frame. */
    constructor (frame: Option<Frame>, radius: real)
      ensures this.frame == (if frame.Some? then frame.value else WorldXY)
      ensures this.radius == radius
      ensures Valid()
    {
      this.frame := if frame.Some? then frame.value else WorldXY;
      this.transformation := FromFrame(if frame.Some? then frame.value else WorldXY);
      this.radius := radius;
    }

    /** `Circle.from_data`. */
    static method FromData(data: CircleData) returns (circle: Circle)
      ensures fresh(circle) && circle.Data() == data && circle.Valid()
    {
      circle := new Circle(Some(data.frame), data.radius);
    }

    /** The frame setter rebuilds the cache. */
    method SetFrame(f: Frame)
      modifies this
      ensures frame == f && transformation == FromFrame(f) && radius == old(radius)
      ensures Valid()
    {
      frame := f;
      transformation := FromFrame(f);
    }

    /** The radius setter stores any value: positivity is only demanded by
        the data schema. */
    method SetRadius(r: real)
      modifies this
      ensures radius == r && frame == old(frame) && transformation == old(transformation)
      ensures old(Valid()) ==> Valid()
    {
      radius := r;
    }

    /** The point setter as written: it moves the frame's origin, when a
        point is given, but leaves the cached transformation as it was. */
    method SetPoint(point: Option<Point>)
      modifies this
      ensures frame == (if point.Some? then old(frame).(point := point.value) else old(frame))
      ensures transformation == old(transformation) && radius == old(radius)
      ensures old(Valid()) && point.Some? && point.value != old(frame).point ==> !Valid()
    {
      if point.Some? {
        if Valid() && point.value != frame.point {
          MovedOriginStale(frame, point.value, transformation);
        }
        frame := frame.(point := point.value);
      }
    }

    /** The point setter with the cache rebuilt, as the frame setter does. */
    method SetPointRebuilt(point: Option<Point>)
      modifies this
      ensures frame == (if point.Some? then old(frame).(point := point.value) else old(frame))
      ensures transformation == FromFrame(frame) && radius == old(radius)
      ensures Valid()
    {
      if point.Some? {
        frame := frame.(point := point.value);
      }
      transformation := FromFrame(frame);
    }

    /** `data` and its setter. */
    function Data(): (d: CircleData)
      reads this
      ensures d.frame == frame && d.radius == radius
    {
      CircleData(frame, radius)
    }

    method SetData(data: CircleData)
      modifies this
      ensures Data() == data && Valid()
    {
      SetFrame(data.frame);
      SetRadius(data.radius);
    }

    /** The centre: the frame's origin (`circle.point`). */
    function Center(): Point
      reads this
    {
      frame.point
    }

    /** The normal of the circle's plane: the frame's z-axis. */
    function Normal(): Vector
      reads this
    {
      frame.zaxis()
    }

    function IsPeriodic(): bool { true }

    function IsClosed(): bool { true }

    function Domain(m: Math): Curves.Domain { AngularDomain(m) }

    function Eccentricity(): real { 0.0 }

    function Diameter(): real reads this { radius * 2.0 }

    function Area(m: Math): real reads this { m.pi * (radius * radius) }

    function Circumference(m: Math): real reads this { 2.0 * m.pi * radius }

    /** The start point: the centre moved by the radius along the x-axis. */
    function Start(): (s: Point)
      reads this
      ensures Sub(s, Center()) == Scale(frame.xaxis, radius)
    {
      StartOnCircle(frame, radius);
      Add(frame.point, Scale(frame.xaxis, radius))
    }

    /** With an orthonormal frame the start point lies on the circle and in
        its plane. */
    lemma StartInPlane()
      requires Orthonormal(frame)
      ensures Dot(Sub(Start(), Center()), Sub(Start(), Center())) == radius * radius
      ensures Dot(Sub(Start(), Center()), Normal()) == 0.0
    {
      StartOnCircle(frame, radius);
    }

    /** `circle[key]`: the frame, the radius, or a `KeyError`. */
    function Item(key: int): (r: Result<Item>)
      reads this
      ensures r.Success? <==> key == 0 || key == 1
      ensures r.Failure? ==> r.error == MissingKey
      ensures key == 0 ==> r == Success(FrameItem(frame))
      ensures key == 1 ==> r == Success(RadiusItem(radius))
    {
      if key == 0 then Success(FrameItem(frame))
      else if key == 1 then Success(RadiusItem(radius))
      else Failure(MissingKey)
    }

    /** `circle[key] = value` as written: key 0 assigns to the read-only
        `plane` property and fails; key 1 converts the value to a float,
        which fails for a frame; any other key is a `KeyError`. */
    method SetItem(key: int, value: Item) returns (err: Option<Error>)
      modifies this
      ensures key == 0 ==> err == Some(ReadOnly)
      ensures key == 1 && value.RadiusItem? ==> err == None && radius == value.radius
      ensures key == 1 && value.FrameItem? ==> err == Some(BadArgument)
      ensures key != 0 && key != 1 ==> err == Some(MissingKey)
      ensures frame == old(frame) && transformation == old(transformation)
      ensures err != None ==> radius == old(radius)
    {
      if key == 0 {
        err := Some(ReadOnly);
      } else if key == 1 {
        if value.RadiusItem? {
          radius := value.radius;
          err := None;
        } else {
          err := Some(BadArgument);
        }
      } else {
        err := Some(MissingKey);
      }
    }

    /** `circle[key] = value` as `__getitem__` and `__eq__` expect it: key 0
        sets the frame through its setter. What is stored is what
        `circle[key]` then returns. */
    method SetItemIntended(key: int, value: Item) returns (err: Option<Error>)
      modifies this
      ensures err == None <==> (key == 0 && value.FrameItem?) || (key == 1 && value.RadiusItem?)
      ensures err == None ==> Item(key) == Success(value)
      ensures key != 0 && key != 1 ==> err == Some(MissingKey)
      ensures old(Valid()) ==> Valid()
    {
      if key == 0 {
        if value.FrameItem? {
          SetFrame(value.frame);
          err := None;
        } else {
          err := Some(BadArgument);
        }
      } else if key == 1 {
        if value.RadiusItem? {
          SetRadius(value.radius);
          err := None;
        } else {
          err := Some(BadArgument);
        }
      } else {
        err := Some(MissingKey);
      }
    }

    /** The circle as the operand of another `__eq__`: indexing it gives
        what `Item` gives. */
    function AsOperand(): (o: Operand<Item>)
      reads this
      ensures forall key :: o.Lookup(key).Success? <==> Item(key).Success?
      ensures forall key :: o.Lookup(key).Success? ==> o.Lookup(key) == Item(key)
    {
      Indexed(map[0 := FrameItem(frame), 1 := RadiusItem(radius)])
    }

    /** `circle == other` compares `other[0]` and `other[1]` with the frame
        and the radius; if either lookup raises, the answer is false. */
    function Equals(other: Operand<Item>): (e: bool)
      reads this
      ensures e <==> other.Lookup(0).Success? && other.Lookup(1).Success?
                     && other.Lookup(0) == Item(0) && other.Lookup(1) == Item(1)
    {
      other.Indexed? && 0 in other.items && 1 in other.items
      && other.items[0] == FrameItem(frame) && other.items[1] == RadiusItem(radius)
    }

    /** The point at `t` (at `t * 2pi` when normalized): the point of the
        circle at that angle in the frame's own coordinates, mapped through
        the cached transformation. */
    function PointAt(m: Math, t: real, normalized: bool): (p: Point)
      requires Sound(m)
      reads this
    {
      ApplyPoint(transformation, LocalPoint(m, radius, Angle(m, t, normalized)))
    }

    /** With a current cache and an orthonormal frame, the point at `t` lies
        on the circle and in its plane. */
    lemma PointAtOnCircle(m: Math, t: real, normalized: bool)
      requires Sound(m) && Valid() && Orthonormal(frame)
      ensures Dot(Sub(PointAt(m, t, normalized), Center()), Sub(PointAt(m, t, normalized), Center())) == radius * radius
      ensures Dot(Sub(PointAt(m, t, normalized), Center()), Normal()) == 0.0
    {
      OnCircle(frame, transformation, LocalPoint(m, radius, Angle(m, t, normalized)));
    }

    /** The normal at `t`: the unit vector from the point at `t` towards the
        centre. It lies in the circle's plane; only a zero radius has none
        (its unitization divides by zero). */
    function NormalAt(m: Math, t: real, normalized: bool): (r: Result<Vector>)
      requires Sound(m)
      reads this
      ensures r.Failure? ==> r.error == ZeroDivision
      ensures Valid() && Orthonormal(frame) ==> (r.Failure? <==> radius == 0.0)
      ensures r.Success? ==> Dot(r.value, r.value) == 1.0
      ensures r.Success? && Valid() && Orthonormal(frame) ==> Dot(r.value, Normal()) == 0.0
    {
      var d := Sub(Center(), PointAt(m, t, normalized));
      assert d == Scale(Sub(PointAt(m, t, normalized), Center()), -1.0);
      OnCircle(frame, transformation, LocalPoint(m, radius, Angle(m, t, normalized)));
      Inward(m, d, Sub(PointAt(m, t, normalized), Center()), radius, Normal(), Valid() && Orthonormal(frame));
      Unitize(m, d)
    }

    /** Scaled by its distance to the centre, the normal at `t` is the
        vector from the point at `t` to the centre: it points inwards. */
    lemma NormalPointsInward(m: Math, t: real, normalized: bool)
      requires Sound(m)
      ensures NormalAt(m, t, normalized).Success? ==>
        Scale(NormalAt(m, t, normalized).value, Length(m, Sub(Center(), PointAt(m, t, normalized))))
        == Sub(Center(), PointAt(m, t, normalized))
    {
      var d := Sub(Center(), PointAt(m, t, normalized));
      if d != Zero {
        UnitizeUnit(m, d);
      }
    }

    /** The tangent at `t`: the normal at `t` crossed with the circle's
        normal, made unit. It exists exactly when the normal does, and is a
        unit vector in the circle's plane orthogonal to the normal at `t`. */
    function TangentAt(m: Math, t: real, normalized: bool): (r: Result<Vector>)
      requires Sound(m)
      reads this
      ensures r.Failure? ==> r.error == ZeroDivision
      ensures Valid() && Orthonormal(frame) ==> (r.Failure? <==> radius == 0.0)
      ensures r.Success? && Valid() && Orthonormal(frame) ==>
        && Dot(r.value, r.value) == 1.0
        && Dot(r.value, Normal()) == 0.0
        && Dot(r.value, NormalAt(m, t, normalized).value) == 0.0
    {
      var n := NormalAt(m, Angle(m, t, normalized), false);
      if n.Failure? then
        Failure(n.error)
      else
        TangentFacts(m, n.value, frame, Valid() && Orthonormal(frame));
        Unitize(m, Cross(n.value, frame.zaxis()))
    }

    /** The frame at `t`: its origin is the point at `t`, its y-axis the
        normal at `t` and its x-axis that normal crossed with the circle's
        normal, which is the tangent at `t`. */
    function FrameAt(m: Math, t: real, normalized: bool): (r: Result<Frame>)
      requires Sound(m)
      reads this
      ensures r.Success? <==> NormalAt(m, t, normalized).Success?
      ensures r.Failure? ==> r.error == ZeroDivision
      ensures r.Success? ==> r.value.point == PointAt(m, t, normalized) && r.value.yaxis == NormalAt(m, t, normalized).value
      ensures r.Success? && Valid() && Orthonormal(frame) ==>
        Orthonormal(r.value) && TangentAt(m, t, normalized) == Success(r.value.xaxis)
    {
      var n := NormalAt(m, Angle(m, t, normalized), false);
      if n.Failure? then
        Failure(n.error)
      else
        TangentFacts(m, n.value, frame, Valid() && Orthonormal(frame));
        Success(Frame(PointAt(m, Angle(m, t, normalized), false), Cross(n.value, frame.zaxis()), n.value))
    }

    /** `Conic.transform`: the frame is transformed and the cache rebuilt. */
    method Transform(T: Transformation)
      modifies this
      ensures frame == TransformFrame(T, old(frame)) && transformation == FromFrame(frame)
      ensures radius == old(radius)
      ensures Valid()
    {
      frame := TransformFrame(T, frame);
      transformation := FromFrame(frame);
    }

    /** With a current cache, the start point is the point at parameter 0. */
    lemma StartIsPointAtZero(m: Math)
      requires Sound(m) && Valid()
      ensures Start() == PointAt(m, 0.0, false)
    {
      PointAtZero(m, frame, radius);
    }

    /** The circle is closed: both ends of its domain, and the normalized
        parameter 1, give the same point as parameter 0. */
    lemma ClosedAtDomainEnds(m: Math)
      requires Sound(m)
      ensures IsClosed() && IsPeriodic()
      ensures Contains(Domain(m), 0.0) && Contains(Domain(m), 2.0 * m.pi)
      ensures PointAt(m, 2.0 * m.pi, false) == PointAt(m, 0.0, false)
      ensures PointAt(m, 1.0, true) == PointAt(m, 0.0, false)
    {
      assert Angle(m, 1.0, true) == 2.0 * m.pi;
      assert LocalPoint(m, radius, 2.0 * m.pi) == LocalPoint(m, radius, 0.0);
    }

    /** The measures agree with each other: the circumference is pi times
        the diameter, twice the area is the circumference times the radius,
        and a circle has eccentricity 0. */
    lemma Measures(m: Math)
      ensures Diameter() == 2.0 * radius
      ensures Circumference(m) == m.pi * Diameter()
      ensures 2.0 * Area(m) == Circumference(m) * radius
      ensures Eccentricity() == 0.0
    {
    }

    /** What the point setter as written leaves behind: the centre of a
        circle whose cache was current for the frame `before` has moved to a
        different point. The cache no longer matches the frame, and the point
        at 0 is still the old start point, no longer the start point. */
    lemma MovedCenterStale(m: Math, before: Frame)
      requires Sound(m)
      requires Cached(before, transformation) && frame == before.(point := frame.point)
      requires frame.point != before.point
      ensures !Valid()
      ensures PointAt(m, 0.0, false) == Add(before.point, Scale(frame.xaxis, radius))
      ensures PointAt(m, 0.0, false) != Start()
    {
      PointAtZero(m, before, radius);
      assert FromFrame(frame).translation != transformation.translation;
    }
  }

  /** Two circles are equal exactly when their data are; the comparison is
      symmetric. */
  lemma EqualCircles(a: Circle, b: Circle)
    ensures a.Equals(b.AsOperand()) <==> a.Data() == b.Data()
    ensures a.Equals(b.AsOperand()) <==> b.Equals(a.AsOperand())
  {
    assert b.AsOperand().Lookup(0) == b.Item(0) && b.AsOperand().Lookup(1) == b.Item(1);
    assert a.AsOperand().Lookup(0) == a.Item(0) && a.AsOperand().Lookup(1) == a.Item(1);
  }

  /** A circle equals the list `[frame, radius]` exactly when that is its
      data; an operand that cannot be indexed is never equal. */
  lemma EqualsPair(c: Circle, f: Frame, r: real)
    ensures c.Equals(Indexed(map[0 := FrameItem(f), 1 := RadiusItem(r)])) <==> c.Data() == CircleData(f, r)
    ensures !c.Equals(NotIndexable)
  {
  }

  /** The point at angle 0 of a circle of radius `r` placed by `f` is the
      origin of `f` moved by `r` along its x-axis. */
  lemma PointAtZero(m: Math, f: Frame, r: real)
    requires Sound(m)
    ensures ApplyPoint(FromFrame(f), LocalPoint(m, r, Angle(m, 0.0, false))) == Add(f.point, Scale(f.xaxis, r))
  {
    assert LocalPoint(m, r, 0.0) == Vec3(r, 0.0, 0.0);
    ApplyPlanar(FromFrame(f), Vec3(r, 0.0, 0.0));
  }

  /** The normal `n` at a point of the circle is a unit vector orthogonal to
      the z-axis of the circle's frame; when that frame is orthonormal (and
      the cache current), their cross product is already a unit vector
      orthogonal to both. */
  lemma TangentFacts(m: Math, n: Vector, f: Frame, placed: bool)
    requires Sound(m)
    requires placed ==> Orthonormal(f) && Dot(n, n) == 1.0 && Dot(n, f.zaxis()) == 0.0
    ensures placed ==>
      && Unitize(m, Cross(n, f.zaxis())) == Success(Cross(n, f.zaxis()))
      && Dot(Cross(n, f.zaxis()), Cross(n, f.zaxis())) == 1.0
      && Dot(Cross(n, f.zaxis()), n) == 0.0
      && Dot(Cross(n, f.zaxis()), f.zaxis()) == 0.0
  {
    if placed {
      OrthonormalZaxis(f);
      CrossUnit(m, n, f.zaxis());
    }
  }


  lemma OnCircle(f: Frame, T: Transformation, local: Point)
    requires local.z == 0.0
    ensures Cached(f, T) && Orthonormal(f) ==>
      && Dot(Sub(ApplyPoint(T, local), f.point), Sub(ApplyPoint(T, local), f.point)) == Dot(local, local)
      && Dot(Sub(ApplyPoint(T, local), f.point), f.zaxis()) == 0.0
  {
    if Cached(f, T) && Orthonormal(f) {
      Placed(f, local);
    }
  }

  /** The vector `d` from a point of the circle towards its centre, the
      opposite of the offset `e` of the point from the centre: when `placed`
      (the point is at distance `r` from the centre, in the plane of normal
      `n`), it is zero exactly for a zero radius, and its unitization is
      orthogonal to `n`. */
  lemma Inward(m: Math, d: Vector, e: Vector, r: real, n: Vector, placed: bool)
    requires Sound(m) && d == Scale(e, -1.0)
    requires placed ==> Dot(e, e) == r * r && Dot(e, n) == 0.0
    ensures d != Zero ==> Unitize(m, d).Success? && Dot(Unitize(m, d).value, Unitize(m, d).value) == 1.0
    ensures placed ==> (d == Zero <==> r == 0.0)
    ensures placed && d != Zero ==> Dot(Unitize(m, d).value, n) == 0.0
  {
    if d != Zero {
      UnitizeUnit(m, d);
    }
    if placed {
      InwardPlaced(m, d, e, r, n);
    }
  }

  lemma InwardPlaced(m: Math, d: Vector, e: Vector, r: real, n: Vector)
    requires Sound(m) && d == Scale(e, -1.0)
    requires Dot(e, e) == r * r && Dot(e, n) == 0.0
    ensures d == Zero <==> r == 0.0
    ensures d != Zero ==> Unitize(m, d).Success? && Dot(Unitize(m, d).value, n) == 0.0
  {
    Opposite(d, e, r, n);
    if d != Zero {
      UnitizeOrthogonal(m, d, n);
    }
  }

  /** The start point's offset from the centre is the x-axis scaled by the
      radius. */
  lemma StartOnCircle(f: Frame, r: real)
    ensures Sub(Add(f.point, Scale(f.xaxis, r)), f.point) == Scale(f.xaxis, r)
    ensures Orthonormal(f) ==>
      && Dot(Scale(f.xaxis, r), Scale(f.xaxis, r)) == r * r
      && Dot(Scale(f.xaxis, r), f.zaxis()) == 0.0
  {
    if Orthonormal(f) {
      OrthonormalZaxis(f);
      DotScaleBoth(f.xaxis, r, f.xaxis, r);
      DotScale(f.xaxis, r, f.zaxis());
      assert Dot(f.xaxis, f.zaxis()) == 0.0;
    }
  }

  /** The vector towards the centre is minus the vector from it: it is zero
      exactly for a zero radius and is orthogonal to what that one is
      orthogonal to. */
  lemma Opposite(d: Vector, e: Vector, r: real, n: Vector)
    requires d == Scale(e, -1.0)
    requires Dot(e, e) == r * r && Dot(e, n) == 0.0
    ensures d == Zero <==> r == 0.0
    ensures Dot(d, n) == 0.0
  {
    NegatedZero(e);
    ZeroRadius(e, r);
    DotScale(e, -1.0, n);
  }

  lemma NegatedZero(e: Vector)
    ensures Scale(e, -1.0) == Zero <==> e == Zero
  {
  }

  lemma ZeroRadius(e: Vector, r: real)
    requires Dot(e, e) == r * r
    ensures e == Zero <==> r == 0.0
  {
    DotSelfZero(e);
    Square(r);
    assert Sq(r) == Dot(e, e);
  }
}
