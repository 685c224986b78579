/** The straight line through two points (`Line` of the curve kernel): a
    class whose start and end are updated in place by the setters and by
    `transform`. */
module Lines {
  import opened Elementary
  import opened Outcomes
  import opened Space
  import opened Curves

  class Line {
    var start: Point
    var end: Point

    constructor (p1: Point, p2: Point)
      ensures start == p1 && end == p2
    {
      start := p1;
      end := p2;
    }

    /** `Line.from_point_and_vector`: the line from `point` to `point + vector`. */
    static method FromPointAndVector(point: Point, vector: Vector) returns (line: Line)
      ensures fresh(line)
      ensures line.start == point && line.Vector() == vector
    {
      line := new Line(point, Add(point, vector));
    }

    method SetStart(point: Point)
      modifies this
      ensures start == point && end == old(end)
    {
      start := point;
    }

    method SetEnd(point: Point)
      modifies this
      ensures end == point && start == old(start)
    {
      end := point;
    }

    /** The domain as the code returns it: both bounds are `+inf`, so it
        holds no parameter, although `PointAt` is defined everywhere. */
    function Domain(): (d: Domain)
      ensures forall t :: !Contains(d, t)
    {
      Curves.Domain(PosInf, PosInf)
    }

    /** The domain an unbounded line evidently has. */
    function IntendedDomain(): (d: Domain)
      ensures forall t :: Contains(d, t)
    {
      Curves.Domain(NegInf, PosInf)
    }

    /** The vector from start to end. */
    function Vector(): (v: Vector)
      reads this
      ensures Add(start, v) == end
    {
      Sub(end, start)
    }

    /** The distance between the endpoints. */
    function Length(m: Math): (l: real)
      requires Sound(m)
      reads this
      ensures 0.0 <= l && l * l == Dot(Vector(), Vector())
      ensures l == 0.0 <==> start == end
    {
      LengthZero(m, Vector());
      LengthSquared(m, Vector());
      Space.Length(m, Vector())
    }

    /** The unit vector from start to end; `1 / length` divides by zero
        when the endpoints coincide. */
    function Direction(m: Math): (r: Result<Vector>)
      requires Sound(m)
      reads this
      ensures r.Failure? <==> start == end
      ensures r.Failure? ==> r.error == ZeroDivision
      ensures r.Success? ==> Dot(r.value, r.value) == 1.0 && Scale(r.value, Length(m)) == Vector()
    {
      if start != end then
        UnitizeUnit(m, Vector());
        Unitize(m, Vector())
      else
        Unitize(m, Vector())
    }

    /** The point halfway between the endpoints. */
    function Midpoint(): (p: Point)
      reads this
      ensures Sub(p, start) == Sub(end, p)
      ensures p == PointAt(0.5)
    {
      Scale(Add(start, end), 0.5)
    }

    /** `line[key]`: index 0 is the start, index 1 the end, any other key is
        a `KeyError`. */
    function Item(key: int): (r: Result<Point>)
      reads this
      ensures r.Success? <==> key == 0 || key == 1
      ensures r.Failure? ==> r.error == MissingKey
      ensures r.Success? ==> r.value == PointAt(key as real)
    {
      if key == 0 then Success(start)
      else if key == 1 then Success(end)
      else Failure(MissingKey)
    }

    /** `line[key] = value`; `err` is the `KeyError` of any other key. */
    method SetItem(key: int, value: Point) returns (err: Option<Error>)
      modifies this
      ensures err == None <==> key == 0 || key == 1
      ensures err != None ==> err == Some(MissingKey)
      ensures key == 0 ==> start == value && end == old(end)
      ensures key == 1 ==> end == value && start == old(start)
      ensures err != None ==> start == old(start) && end == old(end)
      ensures err == None ==> Item(key) == Success(value)
    {
      if key == 0 {
        start := value;
        return None;
      }
      if key == 1 {
        end := value;
        return None;
      }
      return Some(MissingKey);
    }

    /** The line as the operand of another `__eq__`: indexing it gives
        what `Item` gives. */
    function AsOperand(): (o: Operand<Point>)
      reads this
      ensures forall key :: o.Lookup(key).Success? <==> Item(key).Success?
      ensures forall key :: o.Lookup(key).Success? ==> o.Lookup(key) == Item(key)
    {
      Indexed(map[0 := start, 1 := end])
    }

    /** `line == other`: `other[0]` and `other[1]` are compared with the
        endpoints; if either lookup raises, the answer is false. */
    function Equals(other: Operand<Point>): (e: bool)
      reads this
      ensures e <==> other.Lookup(0).Success? && other.Lookup(1).Success?
                     && other.Lookup(0) == Item(0) && other.Lookup(1) == Item(1)
    {
      other.Indexed? && 0 in other.items && 1 in other.items
      && other.items[0] == start && other.items[1] == end
    }

    /** The point at parameter `t`: the endpoints at 0 and 1, and the affine
        combination `start + t * vector` everywhere, including the two
        short-cut cases. */
    function PointAt(t: real): (p: Point)
      reads this
      ensures p == Add(start, Scale(Vector(), t))
      ensures t == 0.0 ==> p == start
      ensures t == 1.0 ==> p == end
    {
      if t == 0.0 then start
      else if t == 1.0 then end
      else Add(start, Scale(Vector(), t))
    }

    /** The frame at `t`: its origin is the point at `t`, its x-axis the
        line's vector and its y-axis the world z-axis crossed with it, which
        is horizontal and orthogonal to the line. */
    function FrameAt(t: real): (f: Frame)
      reads this
      ensures f.point == PointAt(t) && f.xaxis == Vector()
      ensures f.yaxis == Vec3(-Vector().y, Vector().x, 0.0)
      ensures Dot(f.yaxis, f.xaxis) == 0.0 && f.yaxis.z == 0.0
      ensures f.yaxis == Zero <==> Vector().x == 0.0 && Vector().y == 0.0
    {
      CrossOrthogonal(Zaxis, Vector());
      ZCross(Vector());
      Frame(PointAt(t), Vector(), Cross(Zaxis, Vector()))
    }

    /** The frame's y-axis, made unit, is the normal at the same parameter:
        both fail for a vertical line. */
    lemma FrameAtNormal(m: Math, t: real)
      requires Sound(m)
      ensures Unitize(m, FrameAt(t).yaxis) == NormalAt(m, t)
    {
    }

    /** The tangent at any parameter is the direction. */
    function TangentAt(m: Math, t: real): (r: Result<Vector>)
      requires Sound(m)
      reads this
      ensures r.Failure? <==> start == end
      ensures r.Failure? ==> r.error == ZeroDivision
      ensures r.Success? ==> Dot(r.value, r.value) == 1.0 && Scale(r.value, Length(m)) == Vector()
    {
      Direction(m)
    }

    /** The normal at any parameter: the unit vector orthogonal to the line
        and to the world z-axis; a vertical or degenerate line has none
        (its unitization divides by zero). */
    function NormalAt(m: Math, t: real): (r: Result<Vector>)
      requires Sound(m)
      reads this
      ensures r.Failure? <==> Vector().x == 0.0 && Vector().y == 0.0
      ensures r.Failure? ==> r.error == ZeroDivision
      ensures r.Success? ==> Dot(r.value, r.value) == 1.0 && r.value.z == 0.0
      ensures r.Success? ==> Dot(r.value, Vector()) == 0.0
    {
      HorizontalNormal(m, Vector());
      Unitize(m, Cross(Zaxis, Vector()))
    }

    /** Transforming a line maps both endpoints, and with them every point
        of the line, through `T`. */
    method Transform(T: Transformation)
      modifies this
      ensures start == ApplyPoint(T, old(start)) && end == ApplyPoint(T, old(end))
      ensures forall t :: PointAt(t) == ApplyPoint(T, old(PointAt(t)))
    {
      ghost var s, e := start, end;
      start := ApplyPoint(T, start);
      end := ApplyPoint(T, end);
      forall t: real
        ensures PointAt(t) == ApplyPoint(T, old(PointAt(t)))
      {
        ApplyInterpolation(T, s, e, t);
      }
    }
  }

  /** Two lines are equal exactly when they have the same endpoints; then
      they give the same point at every parameter, and the comparison is
      symmetric. */
  lemma EqualLines(a: Line, b: Line)
    ensures a.Equals(b.AsOperand()) <==> a.start == b.start && a.end == b.end
    ensures a.Equals(b.AsOperand()) <==> b.Equals(a.AsOperand())
    ensures a.Equals(b.AsOperand()) ==> forall t :: a.PointAt(t) == b.PointAt(t)
  {
    assert b.AsOperand().Lookup(0) == b.Item(0) && b.AsOperand().Lookup(1) == b.Item(1);
    assert a.AsOperand().Lookup(0) == a.Item(0) && a.AsOperand().Lookup(1) == a.Item(1);
  }

  /** A line equals a pair or a longer list exactly when its first two items
      are the endpoints; an operand that cannot be indexed, or lacks one of
      the keys 0 and 1, is never equal. */
  lemma EqualsList(l: Line, items: seq<Point>)
    ensures l.Equals(Indexed(map k | 0 <= k < |items| :: items[k]))
        <==> |items| >= 2 && items[0] == l.start && items[1] == l.end
    ensures !l.Equals(NotIndexable)
  {
  }

  /** The world z-axis crossed with `v`, made unit, exists exactly when
      `v` is not vertical. */
  lemma HorizontalNormalExists(m: Math, v: Vector)
    requires Sound(m)
    ensures Unitize(m, Cross(Zaxis, v)).Failure? <==> v.x == 0.0 && v.y == 0.0
  {
    ZCross(v);
    var y := Cross(Zaxis, v);
    assert y == Zero <==> v.x == 0.0 && v.y == 0.0;
    assert Unitize(m, y).Failure? <==> y == Zero;
  }

  /** The normal of a line of direction `v`, when it exists, is a
      horizontal unit vector orthogonal to `v`. */
  lemma HorizontalNormal(m: Math, v: Vector)
    requires Sound(m)
    ensures Unitize(m, Cross(Zaxis, v)).Failure? <==> v.x == 0.0 && v.y == 0.0
    ensures Unitize(m, Cross(Zaxis, v)).Success? ==>
      && Dot(Unitize(m, Cross(Zaxis, v)).value, Unitize(m, Cross(Zaxis, v)).value) == 1.0
      && Unitize(m, Cross(Zaxis, v)).value.z == 0.0
      && Dot(Unitize(m, Cross(Zaxis, v)).value, v) == 0.0
  {
    HorizontalNormalExists(m, v);
    var y := Cross(Zaxis, v);
    if y != Zero {
      ZCross(v);
      CrossOrthogonal(Zaxis, v);
      UnitizeHorizontal(m, y, v);
      UnitizeUnit(m, y);
    }
  }

  /** Unitizing a horizontal vector orthogonal to `v` keeps both facts. */
  lemma UnitizeHorizontal(m: Math, y: Vector, v: Vector)
    requires Sound(m) && y != Zero && y.z == 0.0 && Dot(y, v) == 0.0
    ensures Unitize(m, y).Success?
    ensures Unitize(m, y).value.z == 0.0 && Dot(Unitize(m, y).value, v) == 0.0
  {
    UnitizeOrthogonal(m, y, v);
  }

  lemma ZCross(v: Vector)
    ensures Cross(Zaxis, v) == Vec3(-v.y, v.x, 0.0)
  {
  }

  /** The example of the class documentation: the line from the origin to
      (1, 1, 1) has its midpoint at (0.5, 0.5, 0.5) and length sqrt(3). */
  method DiagonalExample(m: Math) returns (midpoint: Point, length: real)
    requires Sound(m)
    ensures midpoint == Vec3(0.5, 0.5, 0.5)
    ensures length == m.Sqrt(3.0)
  {
    var line := new Line(Zero, Vec3(1.0, 1.0, 1.0));
    assert line.Vector() == Vec3(1.0, 1.0, 1.0);
    assert Dot(line.Vector(), line.Vector()) == 3.0;
    midpoint := line.Midpoint();
    length := line.Length(m);
  }

  /** Its direction is (1, 1, 1) divided by that length. */
  method DiagonalDirectionExample(m: Math) returns (direction: Result<Vector>)
    requires Sound(m)
    ensures direction.Success? && Scale(direction.value, m.Sqrt(3.0)) == Vec3(1.0, 1.0, 1.0)
  {
    var line := new Line(Zero, Vec3(1.0, 1.0, 1.0));
    assert line.Vector() == Vec3(1.0, 1.0, 1.0);
    assert Dot(line.Vector(), line.Vector()) == 3.0;
    direction := line.Direction(m);
  }

  /** The example of `transform`: a quarter turn about the world z-axis
      takes the end (1, 0, 0) of a line to (0, 1, 0). */
  method QuarterTurnExample(m: Math) returns (end: Point)
    requires Sound(m)
    ensures end == Vec3(0.0, 1.0, 0.0)
  {
    var c, s := m.Cos(m.pi / 2.0), m.Sin(m.pi / 2.0);
    var R := Transformation(Zero, Vec3(c, s, 0.0), Vec3(-s, c, 0.0), Zaxis);
    var line := new Line(Zero, Xaxis);
    line.Transform(R);
    end := line.end;
  }
}
