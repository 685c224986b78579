# compas_future curve kernel and mesh edge split, in Dafny

This project models two parts of `compas_future`.

**The analytic curve kernel** (`geometry/curves/`):
- `Line`: a pair of endpoints with affine interpolation.
- The conics on the `Conic` base: `Circle`, `Ellipse`, `Hyperbola` and `Parabola`.
- Each conic is a class with a frame, a cached transformation and its shape scalars (radius; major and minor; focal).
- The evaluators `point_at`, `tangent_at`, `normal_at` and `frame_at` build a point or vector in the conic's own coordinates, in closed form, and map it through the cached transformation.
- The invariant that matters is that the cache is the local-to-world map of the current frame (`Curves.Cached`, each class's `Valid()`). The frame setter and `Conic.transform` keep it. The `point` setters break it. `Hyperbola.transform` keeps it only because it changes nothing: it transforms a fresh `Plane` and drops it, so the curve does not move (`Hyperbolas.Hyperbola.TranslationMisses`).

**`mesh_split_edge`** (`datastructures/mesh/operations/split.py`) inserts a vertex on the edge `(u, v)` of a halfedge mesh:
- it adds a vertex;
- it redirects the halfedges `u -> v` and `v -> u` through that vertex;
- it inserts the vertex into the two faces.

The mesh is a class holding:
- `halfedge: map<int, map<int, Option<int>>>`;
- `face: map<int, seq<int>>`;
- the vertex coordinates;
- the largest vertex key.

Modules:
- `Outcomes` (outcomes.dfy): `Result`/`Option` and the Python exceptions the code can raise. `ZeroDivision` is `ZeroDivisionError`, `MathDomain` is the `ValueError` of `math.sqrt`, `MissingKey` is `KeyError`, `BadValue` is `ValueError`, and `BadArgument` and `ReadOnly` are the `TypeError` and `AttributeError` of the broken paths.
- `Elementary` (elementary.dfy): `sin`, `cos`, `sqrt` and `pi` as tables. `Sound(m)` states the facts the proofs use: the Pythagorean identity, the values at 0, pi/2 and 2pi, and the square-root law.
- `Space` (space.dfy): points and vectors as one `Vec3` datatype, frames, planes and affine transformations. `FromFrame(f)` is the local-to-world map `origin + x X + y Y + z Z`, with vectors mapped without the translation.
- `Curves` (curves.dfy): parameter domains, the `normalized` flag and the cache invariant. It also holds the facts shared by the conics: points placed through an orthonormal frame, the foci, and the effect of `Conic.transform`.
- `Lines`, `Circles`, `Ellipses`, `Hyperbolas` and `Parabolas`: one module per curve file.
- `MeshSplit` (split.dfy): the halfedge and face updates as functions, their specification lemmas, and the `Mesh` class whose `SplitEdge` is proved against them.

Where a docstring and the code disagree, the model follows the code:
- The hyperbola's docstring calls it periodic and closed. The code says neither, and the model follows the code.
- `mesh_split_edge` documents a `ValueError` for vertices that are not neighbours. The code indexes `mesh.halfedge[u][v]` directly, which raises `KeyError`. The model returns `Failure(MissingKey)` on that path, instead of requiring adjacency of the caller.
- The parabola's docstring copies the ellipse's (major, minor, "major / eccentricity"). The model follows the code's `focal`.
- `Parabola.latus` is `2 * focal`. That is the semi-latus rectum, half the latus rectum. `Parabolas.Parabola.LatusLevelWithFocus` proves that the points at `t = +/- latus` are level with the focus.

## Model

Source paths are relative to the repository root.

| member | source | states |
|---|---|---|
| Curves.ConicEccentricity | src/compas_future/geometry/curves/conic.py:10-12 | the base conic has no eccentricity: it is always `NotImplementedError` |
| Curves.TransformPlanar | src/compas_future/geometry/curves/conic.py:14-29 | after transforming the frame and rebuilding the cache, every in-plane local point lands where `T` sends its old world position, so the whole conic moves with `T` |
| Curves.MovedOriginStale | src/compas_future/geometry/curves/ellipse.py:177-179 | moving the origin of a frame whose cache was current leaves the cache describing the old frame |
| Curves.FociSymmetric | src/compas_future/geometry/curves/ellipse.py:225-231 | centre +/- c x-axis: the foci are symmetric about the centre and, with a unit x-axis, `2c` apart |
| Lines.Line.constructor | src/compas_future/geometry/curves/line.py:55-60 | the line stores its two endpoints |
| Lines.Line.FromPointAndVector | src/compas_future/geometry/curves/line.py:106-108 | the new line starts at `point` and its vector is `vector` |
| Lines.Line.SetStart | src/compas_future/geometry/curves/line.py:130-132 | the start is replaced, the end kept |
| Lines.Line.SetEnd | src/compas_future/geometry/curves/line.py:138-140 | the end is replaced, the start kept |
| Lines.Line.Domain | src/compas_future/geometry/curves/line.py:122-124 | the domain as written, `(inf, inf)`, contains no parameter at all |
| Lines.Line.IntendedDomain | src/compas_future/geometry/curves/line.py:122-124 | the unbounded domain `(-inf, inf)` contains every parameter |
| Lines.Line.Vector | src/compas_future/geometry/curves/line.py:150-152 | start plus the vector is the end |
| Lines.Line.Length | src/compas_future/geometry/curves/line.py:154-156 | the length is non-negative, its square is the vector's squared norm, and it is 0 exactly when start equals end |
| Lines.Line.Direction | src/compas_future/geometry/curves/line.py:158-160 | fails with a zero division exactly when start equals end; otherwise a unit vector which, scaled by the length, is the line's vector |
| Lines.Line.Midpoint | src/compas_future/geometry/curves/line.py:162-164 | equidistant from both ends along the line, and equal to the point at 1/2 |
| Lines.Line.Item | src/compas_future/geometry/curves/line.py:176-181 | keys 0 and 1 give the points at parameters 0 and 1; any other key is a `KeyError` |
| Lines.Line.SetItem | src/compas_future/geometry/curves/line.py:183-190 | keys 0 and 1 replace one endpoint and keep the other, and reading the key back gives the value; other keys fail and change nothing |
| Lines.Line.Equals | src/compas_future/geometry/curves/line.py:195-201 | for any operand: true exactly when `other[0]` and `other[1]` both exist and equal the line's own items 0 and 1; a lookup that raises gives false |
| Lines.Line.AsOperand | src/compas_future/geometry/curves/line.py:176-181 | indexing a line as an operand gives exactly what `line[key]` gives, failures included |
| Lines.EqualLines | src/compas_future/geometry/curves/line.py:195-201 | two lines are equal exactly when their endpoints are; the comparison is symmetric, and equal lines give the same point at every parameter |
| Lines.EqualsList | src/compas_future/geometry/curves/line.py:195-201 | a line equals a list exactly when the list has at least two items and the first two are the endpoints; an object that cannot be indexed is never equal |
| Lines.Line.PointAt | src/compas_future/geometry/curves/line.py:211-229 | `start + t vector` at every `t`, with no range check; exactly `start` at 0 and exactly `end` at 1 |
| Lines.Line.FrameAt | src/compas_future/geometry/curves/line.py:231-248 | origin at the point at `t`, x-axis the line's vector `v`, y-axis exactly z x v = (-vy, vx, 0): horizontal, orthogonal to `v`, and zero exactly for a vertical line |
| Lines.Line.FrameAtNormal | src/compas_future/geometry/curves/line.py:231-284 | the frame's y-axis, made unit, is the normal at the same parameter, failures included |
| Lines.Line.TangentAt | src/compas_future/geometry/curves/line.py:250-263 | the direction at every `t`: fails exactly for coincident endpoints, otherwise a unit vector along the line |
| Lines.Line.NormalAt | src/compas_future/geometry/curves/line.py:265-284 | fails exactly for a line parallel to z; otherwise a horizontal unit vector orthogonal to the line |
| Lines.HorizontalNormalExists | src/compas_future/geometry/curves/line.py:279-283 | unitizing z x v fails exactly when `v` has no horizontal component |
| Lines.HorizontalNormal | src/compas_future/geometry/curves/line.py:267-284 | when it exists, the unitized z x v is a horizontal unit vector orthogonal to `v` |
| Lines.Line.Transform | src/compas_future/geometry/curves/line.py:286-310 | both endpoints, and with them every point of the line, are mapped through `T` |
| Lines.DiagonalExample | src/compas_future/geometry/curves/line.py:39-47 | the line (0,0,0)-(1,1,1) has midpoint (0.5, 0.5, 0.5) and length sqrt(3) |
| Lines.DiagonalDirectionExample | src/compas_future/geometry/curves/line.py:48-49 | its direction, scaled by sqrt(3), is (1, 1, 1) |
| Lines.QuarterTurnExample | src/compas_future/geometry/curves/line.py:300-306 | a quarter turn about z takes the end (1, 0, 0) to (0, 1, 0) |
| Circles.LocalPoint | src/compas_future/geometry/curves/circle.py:259-262 | the local point is in the frame's plane, at distance `r` from the origin |
| Circles.Circle.constructor | src/compas_future/geometry/curves/circle.py:65-71 | a missing frame means the world XY frame; the cache starts current |
| Circles.Circle.SetFrame | src/compas_future/geometry/curves/circle.py:145-148 | the frame is replaced and the cache rebuilt; the radius is kept |
| Circles.Circle.SetRadius | src/compas_future/geometry/curves/circle.py:163-165 | only the radius changes; a current cache stays current |
| Circles.Circle.SetPoint | src/compas_future/geometry/curves/circle.py:154-157 | a given point moves the frame's origin; the cache is kept, so a real move breaks the invariant |
| Circles.Circle.SetPointRebuilt | src/compas_future/geometry/curves/circle.py:154-157 | the same move with the cache rebuilt keeps the invariant |
| Circles.Circle.MovedCenterStale | src/compas_future/geometry/curves/circle.py:154-157 | after the point setter as written, the point at 0 is still the old start point, and no longer the start point |
| Circles.Circle.Data | src/compas_future/geometry/curves/circle.py:94-97 | the data holds the frame and the radius |
| Circles.Circle.SetData | src/compas_future/geometry/curves/circle.py:99-102 | reading the data back gives what was set, with a current cache |
| Circles.Circle.FromData | src/compas_future/geometry/curves/circle.py:104-119 | the new circle's data is the data it was built from |
| Circles.Circle.Start | src/compas_future/geometry/curves/circle.py:179-181 | the start point is the centre moved by the radius along the x-axis |
| Circles.Circle.StartInPlane | src/compas_future/geometry/curves/circle.py:179-181 | with an orthonormal frame, the start point is on the circle and in its plane |
| Circles.Circle.StartIsPointAtZero | src/compas_future/geometry/curves/circle.py:179-181 | with a current cache, the start point is the point at parameter 0 |
| Circles.Circle.Item | src/compas_future/geometry/curves/circle.py:209-215 | key 0 is the frame, key 1 the radius, any other key a `KeyError` |
| Circles.Circle.SetItem | src/compas_future/geometry/curves/circle.py:217-223 | key 0 fails on the read-only `plane`; key 1 stores a radius; other keys are a `KeyError`; the frame and cache never change |
| Circles.Circle.SetItemIntended | src/compas_future/geometry/curves/circle.py:209-223 | what is stored under a key is what `circle[key]` then returns; a current cache stays current |
| Circles.Circle.Equals | src/compas_future/geometry/curves/circle.py:228-234 | for any operand: true exactly when `other[0]` and `other[1]` both exist and equal the frame and the radius items; a lookup that raises gives false |
| Circles.Circle.AsOperand | src/compas_future/geometry/curves/circle.py:209-215 | indexing a circle as an operand gives exactly what `circle[key]` gives, failures included |
| Circles.EqualCircles | src/compas_future/geometry/curves/circle.py:228-234 | two circles are equal exactly when their data are, and the comparison is symmetric |
| Circles.EqualsPair | src/compas_future/geometry/curves/circle.py:228-234 | a circle equals the list `[frame, radius]` exactly when that is its data; an object that cannot be indexed is never equal |
| Circles.Circle.PointAtOnCircle | src/compas_future/geometry/curves/circle.py:244-264 | with a current cache and an orthonormal frame, the point at `t` is at distance `radius` from the centre and in the circle's plane |
| Circles.Circle.NormalAt | src/compas_future/geometry/curves/circle.py:287-307 | a unit vector in the circle's plane; it fails, with a zero division, exactly for radius 0 |
| Circles.Circle.NormalPointsInward | src/compas_future/geometry/curves/circle.py:303-306 | scaled by the distance to the centre, the normal is the vector from the point to the centre |
| Circles.Circle.TangentAt | src/compas_future/geometry/curves/circle.py:266-285 | fails exactly when the normal does; otherwise a unit vector in the plane, orthogonal to the normal at `t` |
| Circles.Circle.FrameAt | src/compas_future/geometry/curves/circle.py:309-328 | origin the point at `t`, y-axis the normal at `t`, x-axis the tangent at `t`; orthonormal |
| Circles.Circle.Transform | src/compas_future/geometry/curves/conic.py:14-29 | the frame is transformed and the cache rebuilt; the radius is kept |
| Circles.Circle.ClosedAtDomainEnds | src/compas_future/geometry/curves/circle.py:125-135 | closed and periodic: both ends of (0, 2pi), and the normalized parameter 1, give the point at 0 |
| Circles.Circle.Measures | src/compas_future/geometry/curves/circle.py:187-197 | circumference is pi times the diameter and twice the area is circumference times radius; with the eccentricity 0 of lines 137-139 |
| Ellipses.LocalPoint | src/compas_future/geometry/curves/ellipse.py:315-318 | the local point is in the frame's plane |
| Ellipses.OnEllipse | src/compas_future/geometry/curves/ellipse.py:315-318 | the local point satisfies `(x/a)^2 + (y/b)^2 = 1` |
| Ellipses.LocalTangent | src/compas_future/geometry/curves/ellipse.py:338-343 | the local tangent is in the frame's plane |
| Ellipses.TangentAlongEllipse | src/compas_future/geometry/curves/ellipse.py:338-343 | the local tangent is orthogonal to the gradient of the ellipse's equation at the local point |
| Ellipses.TangentNonZero | src/compas_future/geometry/curves/ellipse.py:338-343 | with non-zero radii the local tangent never vanishes |
| Ellipses.EccentricityOf | src/compas_future/geometry/curves/ellipse.py:160-162 | fails with a zero division for major 0, and with a math domain error when `(b/a)^2 > 1` |
| Ellipses.EccentricityRange | src/compas_future/geometry/curves/ellipse.py:160-162 | for `0 < b <= a` the eccentricity exists, lies in [0, 1), and is 0 exactly for a circle |
| Ellipses.SemifocalOf | src/compas_future/geometry/curves/ellipse.py:243-245 | fails with a math domain error exactly when `a^2 < b^2` |
| Ellipses.FocalOf | src/compas_future/geometry/curves/ellipse.py:247-249 | exists exactly when the semifocal distance does, and is twice it |
| Ellipses.EccentricityTimesMajor | src/compas_future/geometry/curves/ellipse.py:160-162 | eccentricity times major is the semifocal distance |
| Ellipses.DirectrixDistance | src/compas_future/geometry/curves/ellipse.py:63-70 | the documented distance `a / e` exists exactly for a non-zero eccentricity, and times `e` it is `a` |
| Ellipses.DirectrixThroughFocusIsNotDocumented | src/compas_future/geometry/curves/ellipse.py:233-241 | for `0 < b < a` the directrices as written, at the semifocal distance, are strictly closer to the centre than `a / e` |
| Ellipses.FocusDirectrix | src/compas_future/geometry/curves/ellipse.py:63-70 | every point is `e` times as far from the focus as from the documented directrix |
| Ellipses.Ellipse.constructor | src/compas_future/geometry/curves/ellipse.py:84-92 | a missing frame means the world XY frame; the radii are stored; the cache starts current |
| Ellipses.Ellipse.FromData | src/compas_future/geometry/curves/ellipse.py:127-142 | the minor radius is used for both radii, so the data round-trip exactly when major equals minor |
| Ellipses.Ellipse.FromDataIntended | src/compas_future/geometry/curves/ellipse.py:127-142 | the new ellipse's data is the data it was built from |
| Ellipses.Ellipse.Data | src/compas_future/geometry/curves/ellipse.py:116-119 | the data holds the frame and both radii |
| Ellipses.Ellipse.SetData | src/compas_future/geometry/curves/ellipse.py:121-125 | reading the data back gives what was set, with a current cache |
| Ellipses.Ellipse.SetFrame | src/compas_future/geometry/curves/ellipse.py:168-171 | the frame is replaced and the cache rebuilt; the radii are kept |
| Ellipses.Ellipse.SetPoint | src/compas_future/geometry/curves/ellipse.py:177-179 | the origin moves but the cache is kept; a real move breaks the invariant |
| Ellipses.Ellipse.SetPointRebuilt | src/compas_future/geometry/curves/ellipse.py:177-179 | the same move with the cache rebuilt keeps the invariant |
| Ellipses.Ellipse.SetMajor | src/compas_future/geometry/curves/ellipse.py:185-187 | only the major radius changes |
| Ellipses.Ellipse.SetMinor | src/compas_future/geometry/curves/ellipse.py:193-195 | only the minor radius changes |
| Ellipses.Ellipse.Area | src/compas_future/geometry/curves/ellipse.py:251-253 | always `NotImplementedError` |
| Ellipses.Ellipse.Circumference | src/compas_future/geometry/curves/ellipse.py:255-257 | always `NotImplementedError` |
| Ellipses.Ellipse.Focus1 | src/compas_future/geometry/curves/ellipse.py:225-227 | exists exactly when the semifocal distance does; the centre moved by it along the x-axis |
| Ellipses.Ellipse.Focus2 | src/compas_future/geometry/curves/ellipse.py:229-231 | the same, along the negative x-axis |
| Ellipses.Ellipse.FociAboutCenter | src/compas_future/geometry/curves/ellipse.py:225-231 | the foci are symmetric about the centre and, with a unit x-axis, the focal distance apart |
| Ellipses.Ellipse.Directix1 | src/compas_future/geometry/curves/ellipse.py:233-236 | the line from the first focus along the y-axis; it fails exactly when the semifocal distance does |
| Ellipses.Ellipse.Directix2 | src/compas_future/geometry/curves/ellipse.py:238-241 | the line from the second focus along the y-axis |
| Ellipses.Ellipse.Directix1Intended | src/compas_future/geometry/curves/ellipse.py:63-66 | the line along the y-axis at `a / e` on the positive x-axis |
| Ellipses.Ellipse.Directix2Intended | src/compas_future/geometry/curves/ellipse.py:67-70 | the line along the y-axis at `a / e` on the negative x-axis |
| Ellipses.Ellipse.PointAtOnEllipse | src/compas_future/geometry/curves/ellipse.py:300-320 | with a current cache and an orthonormal frame, the point's coordinates along the axes satisfy the ellipse's equation, and the point is in its plane |
| Ellipses.Ellipse.TangentAt | src/compas_future/geometry/curves/ellipse.py:322-346 | fails, with a zero division, exactly when the local tangent is zero |
| Ellipses.Ellipse.TangentInPlane | src/compas_future/geometry/curves/ellipse.py:322-346 | with non-zero radii, a current cache and an orthonormal frame, the tangent exists and is a unit vector in the plane |
| Ellipses.Ellipse.NormalAt | src/compas_future/geometry/curves/ellipse.py:348-367 | the frame's normal crossed with the tangent, unitized; it fails when the tangent does |
| Ellipses.Ellipse.NormalAcrossTangent | src/compas_future/geometry/curves/ellipse.py:364-367 | the normal is a unit vector in the plane, orthogonal to the tangent |
| Ellipses.Ellipse.FrameAt | src/compas_future/geometry/curves/ellipse.py:369-388 | origin the point at `t`, x-axis the tangent, y-axis the frame's normal crossed with it; fails exactly when the tangent does |
| Ellipses.Ellipse.FrameAtOrthonormal | src/compas_future/geometry/curves/ellipse.py:369-388 | that frame is orthonormal and its y-axis is the normal at `t` |
| Ellipses.Ellipse.Transform | src/compas_future/geometry/curves/conic.py:14-29 | the frame is transformed and the cache rebuilt; the radii are kept |
| Ellipses.Ellipse.ClosedAtDomainEnds | src/compas_future/geometry/curves/ellipse.py:148-158 | closed and periodic: both ends of (0, 2pi), and the normalized parameter 1, give the same point |
| Hyperbolas.LocalPoint | src/compas_future/geometry/curves/hyperbola.py:303-306 | fails, with a zero division, exactly when `cos t = 0`; otherwise the point is in the frame's plane |
| Hyperbolas.OnHyperbola | src/compas_future/geometry/curves/hyperbola.py:303-306 | where it exists, the local point satisfies `(x/a)^2 - (y/b)^2 = 1` |
| Hyperbolas.SemifocalBeyondVertex | src/compas_future/geometry/curves/hyperbola.py:237-239 | `c^2 = a^2 + b^2`, and `c > a` for `b != 0` and `a >= 0` |
| Hyperbolas.EccentricityOf | src/compas_future/geometry/curves/hyperbola.py:152-154 | fails, with a zero division, exactly for major 0 |
| Hyperbolas.EccentricityAboveOne | src/compas_future/geometry/curves/hyperbola.py:39-40 | for positive major and non-zero minor the eccentricity exceeds 1, and times major it is the semifocal distance |
| Hyperbolas.FocalOf | src/compas_future/geometry/curves/hyperbola.py:241-243 | non-negative, with square `4 (a^2 + b^2)` |
| Hyperbolas.Hyperbola.constructor | src/compas_future/geometry/curves/hyperbola.py:76-84 | a missing frame means the world XY frame; the radii are stored; the cache starts current |
| Hyperbolas.Hyperbola.FromData | src/compas_future/geometry/curves/hyperbola.py:119-134 | the minor radius is used for both radii, so the data round-trip exactly when major equals minor |
| Hyperbolas.Hyperbola.FromDataIntended | src/compas_future/geometry/curves/hyperbola.py:119-134 | the new hyperbola's data is the data it was built from |
| Hyperbolas.Hyperbola.Data | src/compas_future/geometry/curves/hyperbola.py:108-111 | the data holds the frame and both radii |
| Hyperbolas.Hyperbola.SetData | src/compas_future/geometry/curves/hyperbola.py:113-117 | reading the data back gives what was set, with a current cache |
| Hyperbolas.Hyperbola.SetFrame | src/compas_future/geometry/curves/hyperbola.py:160-163 | the frame is replaced and the cache rebuilt; the radii are kept |
| Hyperbolas.Hyperbola.SetPoint | src/compas_future/geometry/curves/hyperbola.py:169-171 | the origin moves but the cache is kept; a real move breaks the invariant |
| Hyperbolas.Hyperbola.SetPointRebuilt | src/compas_future/geometry/curves/hyperbola.py:169-171 | the same move with the cache rebuilt keeps the invariant |
| Hyperbolas.Hyperbola.SetMajor | src/compas_future/geometry/curves/hyperbola.py:177-179 | only the major radius changes |
| Hyperbolas.Hyperbola.SetMinor | src/compas_future/geometry/curves/hyperbola.py:185-187 | only the minor radius changes |
| Hyperbolas.Hyperbola.Focus1 | src/compas_future/geometry/curves/hyperbola.py:221-223 | the centre moved by the semifocal distance along the x-axis |
| Hyperbolas.Hyperbola.Focus2 | src/compas_future/geometry/curves/hyperbola.py:225-227 | the centre moved by the semifocal distance along the negative x-axis |
| Hyperbolas.Hyperbola.FociAboutCenter | src/compas_future/geometry/curves/hyperbola.py:221-227 | the foci are symmetric about the centre and, with a unit x-axis, the focal distance apart |
| Hyperbolas.Hyperbola.Asymptote1 | src/compas_future/geometry/curves/hyperbola.py:229-231 | always `None` |
| Hyperbolas.Hyperbola.Asymptote2 | src/compas_future/geometry/curves/hyperbola.py:233-235 | always `None` |
| Hyperbolas.Hyperbola.PointAt | src/compas_future/geometry/curves/hyperbola.py:288-308 | fails, with a zero division, exactly where the cosine of the angle is 0 |
| Hyperbolas.Hyperbola.PointAtOnHyperbola | src/compas_future/geometry/curves/hyperbola.py:288-308 | with a current cache and an orthonormal frame, an existing point's coordinates along the axes satisfy the hyperbola's equation, and the point is in its plane |
| Hyperbolas.Hyperbola.DomainEnds | src/compas_future/geometry/curves/hyperbola.py:140-150 | neither closed nor periodic; the domain (0, 2pi) contains pi/2, where the point fails, and both ends give the same point |
| Hyperbolas.Hyperbola.TangentAt | src/compas_future/geometry/curves/hyperbola.py:310-326 | always `NotImplementedError` |
| Hyperbolas.Hyperbola.NormalAt | src/compas_future/geometry/curves/hyperbola.py:328-344 | always `NotImplementedError` |
| Hyperbolas.Hyperbola.FrameAt | src/compas_future/geometry/curves/hyperbola.py:346-365 | always fails: with the point's zero division where the cosine is 0, otherwise with the tangent's `NotImplementedError` |
| Hyperbolas.Hyperbola.Transform | src/compas_future/geometry/curves/hyperbola.py:367-391 | as written the transformed plane is a fresh object, so the frame, the cache and the radii are unchanged |
| Hyperbolas.Hyperbola.TransformIntended | src/compas_future/geometry/curves/conic.py:14-29 | the frame is transformed and the cache rebuilt; the radii are kept |
| Hyperbolas.Hyperbola.TranslationMisses | src/compas_future/geometry/curves/hyperbola.py:391 | under a translation by `v != 0`, the intended transform moves every existing point by `v`, while the transform as written leaves it where it was |
| Parabolas.CoefficientOf | src/compas_future/geometry/curves/parabola.py:203-205 | `a` fails, with a zero division, exactly for focal 0; otherwise `4 f a = 1` |
| Parabolas.FocalOfCoefficient | src/compas_future/geometry/curves/parabola.py:207-209 | the setter's `1 / (4 a)` fails exactly for `a = 0`; otherwise `4 a f = 1` |
| Parabolas.CoefficientRoundTrip | src/compas_future/geometry/curves/parabola.py:203-209 | setting `a != 0` and reading it back gives `a` |
| Parabolas.FocalRoundTrip | src/compas_future/geometry/curves/parabola.py:203-209 | reading `a` and setting it back restores a non-zero focal distance |
| Parabolas.LocalPoint | src/compas_future/geometry/curves/parabola.py:261-264 | the local point is in the frame's plane |
| Parabolas.Derivative | src/compas_future/geometry/curves/parabola.py:261-264 | the derivative of `(t, a t^2, 0)` is in the plane and never zero |
| Parabolas.ChordSlope | src/compas_future/geometry/curves/parabola.py:261-264 | the chord from `t` to `t + h` is `h` times the derivative plus a term of order `h` |
| Parabolas.LocalTangent | src/compas_future/geometry/curves/parabola.py:282-286 | the local tangent as built is in the plane |
| Parabolas.LocalNormal | src/compas_future/geometry/curves/parabola.py:305-309 | the local normal as built is in the plane |
| Parabolas.NormalDirection | src/compas_future/geometry/curves/parabola.py:305-309 | `(-2 a t, 1, 0)` is in the plane and never zero |
| Parabolas.LocalFrameAsWritten | src/compas_future/geometry/curves/parabola.py:282-309 | the tangent as built is `t` times the derivative, so zero exactly at `t = 0`; the normal as built is `t` times the quarter-turned derivative and orthogonal to the tangent |
| Parabolas.FocusDirectrixLocal | src/compas_future/geometry/curves/parabola.py:190-201 | in the parabola's own frame, every point is as far from the focus `(0, f)` as from the line `y = -f` |
| Parabolas.Parabola.constructor | src/compas_future/geometry/curves/parabola.py:69-75 | a missing frame means the world XY frame; the focal distance is stored; the cache starts current |
| Parabolas.Parabola.Data | src/compas_future/geometry/curves/parabola.py:98-101 | the data holds the frame and the focal distance |
| Parabolas.Parabola.FromData | src/compas_future/geometry/curves/parabola.py:108-123 | the new parabola's data is the data it was built from |
| Parabolas.Parabola.SetData | src/compas_future/geometry/curves/parabola.py:103-106 | reading the data back gives what was set, with a current cache |
| Parabolas.Parabola.SetFrame | src/compas_future/geometry/curves/parabola.py:149-152 | the frame is replaced and the cache rebuilt; the focal distance is kept |
| Parabolas.Parabola.SetFocal | src/compas_future/geometry/curves/parabola.py:158-160 | only the focal distance changes, zero included |
| Parabolas.Parabola.SetPoint | src/compas_future/geometry/curves/parabola.py:170-172 | the origin moves but the cache is kept; a real move breaks the invariant |
| Parabolas.Parabola.SetPointRebuilt | src/compas_future/geometry/curves/parabola.py:170-172 | the same move with the cache rebuilt keeps the invariant |
| Parabolas.Parabola.SetA | src/compas_future/geometry/curves/parabola.py:207-209 | `a = 0` fails with a zero division and changes nothing; otherwise `a` reads back as the value set |
| Parabolas.Parabola.Measures | src/compas_future/geometry/curves/parabola.py:129-143 | the domain holds every real, the curve is neither closed nor periodic, and its eccentricity is 1 |
| Parabolas.Parabola.LatusLevelWithFocus | src/compas_future/geometry/curves/parabola.py:162-164 | the points at `t = +/- latus` are level with the focus: `latus` is the semi-latus rectum |
| Parabolas.Parabola.Focus | src/compas_future/geometry/curves/parabola.py:190-192 | the focus is the origin moved by the focal distance along the y-axis |
| Parabolas.Parabola.DirectrixPoint | src/compas_future/geometry/curves/parabola.py:198-200 | the directrix point is the origin moved back by the focal distance along the y-axis |
| Parabolas.Parabola.Directix | src/compas_future/geometry/curves/parabola.py:198-201 | the line from that point along the x-axis |
| Parabolas.Parabola.PointAt | src/compas_future/geometry/curves/parabola.py:248-266 | fails, through `a`, with a zero division exactly for focal 0 |
| Parabolas.Parabola.VertexAtZero | src/compas_future/geometry/curves/parabola.py:194-196 | with a current cache, the point at 0 is the vertex |
| Parabolas.Parabola.PointAtOnParabola | src/compas_future/geometry/curves/parabola.py:248-266 | with a current cache and an orthonormal frame, the point's coordinates along the axes satisfy `y = a x^2`, and the point is in the plane |
| Parabolas.Parabola.FocusDirectrix | src/compas_future/geometry/curves/parabola.py:190-201 | every point of the parabola is as far from the focus as from the directrix line |
| Parabolas.Parabola.TangentAt | src/compas_future/geometry/curves/parabola.py:268-289 | as written it fails, with a zero division, at focal 0 and also at the vertex `t = 0` |
| Parabolas.Parabola.TangentAtIntended | src/compas_future/geometry/curves/parabola.py:268-289 | along the derivative it fails only at focal 0 |
| Parabolas.Parabola.NormalAt | src/compas_future/geometry/curves/parabola.py:291-312 | as written it fails, with a zero division, at focal 0 and also at `t = 0` |
| Parabolas.Parabola.NormalAtIntended | src/compas_future/geometry/curves/parabola.py:291-312 | along the quarter-turned derivative it fails only at focal 0 |
| Parabolas.Parabola.FailsAtVertex | src/compas_future/geometry/curves/parabola.py:282-286 | at `t = 0` the evaluators as written fail where the intended ones succeed |
| Parabolas.Parabola.TangentTurned | src/compas_future/geometry/curves/parabola.py:282-286 | away from the vertex the tangent as written is the intended one, reversed for `t < 0` |
| Parabolas.Parabola.NormalTurned | src/compas_future/geometry/curves/parabola.py:305-309 | the same for the normal |
| Parabolas.Parabola.IntendedInPlane | src/compas_future/geometry/curves/parabola.py:268-312 | with a current cache and an orthonormal frame, the intended tangent and normal are orthogonal unit vectors in the plane |
| Parabolas.Parabola.NormalAcrossTangent | src/compas_future/geometry/curves/parabola.py:268-312 | away from the vertex, the tangent and normal as written are orthogonal unit vectors in the plane |
| Parabolas.Parabola.FrameAt | src/compas_future/geometry/curves/parabola.py:314-331 | as written the call fails on the unexpected `normalized` keyword |
| Parabolas.Parabola.FrameAtIntended | src/compas_future/geometry/curves/parabola.py:314-331 | origin the point at `t`, x-axis the intended tangent, y-axis the frame's normal crossed with it; fails exactly for focal 0 |
| Parabolas.Parabola.FrameAtIntendedOrthonormal | src/compas_future/geometry/curves/parabola.py:314-331 | that frame is orthonormal |
| Parabolas.Parabola.Transform | src/compas_future/geometry/curves/conic.py:14-29 | the frame is transformed and the cache rebuilt; the focal distance is kept |
| MeshSplit.FirstIndex | src/compas_future/datastructures/mesh/operations/split.py:66 | `list.index`: the position of the first occurrence |
| MeshSplit.InsertBeforeSpec | src/compas_future/datastructures/mesh/operations/split.py:66-67 | the face grows by one, `w` sits right before the first `x`, removing it restores the list in order, and the multiset gains exactly `w` |
| MeshSplit.InsertIntoKeeps | src/compas_future/datastructures/mesh/operations/split.py:64-67 | inserting keeps every face and vertex; a boundary (`None`) face is skipped |
| MeshSplit.SplitHalfedgesSpec | src/compas_future/datastructures/mesh/operations/split.py:59-72 | `u -> v` is replaced by `u -> w` and `w -> v` with its face, `v -> u` likewise, and every other vertex's map is unchanged |
| MeshSplit.SplitFacesSpec | src/compas_future/datastructures/mesh/operations/split.py:64-77 | each of the two faces gains `w` before its first `v` or `u`; every other face is unchanged |
| MeshSplit.FacesGrow | src/compas_future/datastructures/mesh/operations/split.py:64-77 | no face loses a vertex, and both faces of the edge hold `w` |
| MeshSplit.SplitKeepsWellFormed | src/compas_future/datastructures/mesh/operations/split.py:54-77 | splitting with a fresh vertex keeps the mesh well formed (keys, no self-loops, every halfedge's face holds its end) |
| MeshSplit.SplitNeighbours | src/compas_future/datastructures/mesh/operations/split.py:57-72 | after the split every vertex, `w` included, has a neighbour map over existing vertices, without itself |
| MeshSplit.SplitFacesHold | src/compas_future/datastructures/mesh/operations/split.py:59-77 | after the split the face of every halfedge exists and holds its end |
| MeshSplit.Mesh.AddVertex | src/compas_future/datastructures/mesh/operations/split.py:57 | the new key is one past the largest, fresh, with the given point and no neighbours |
| MeshSplit.Mesh.SplitAt | src/compas_future/datastructures/mesh/operations/split.py:54-77 | the mesh becomes exactly the split halfedges and faces, with the new vertex, and stays well formed |
| MeshSplit.Mesh.SplitEdge | src/compas_future/datastructures/mesh/operations/split.py:6-79 | `t` outside [0, 1] is a `ValueError`; 0 and 1 return `u` and `v`; non-neighbours are a `KeyError`; an unallowed boundary returns `None`; otherwise the split with the fresh key; the mesh is unchanged unless split, and stays well formed |

## Left out

- Floating point: all arithmetic is on reals. `sin`, `cos` and `sqrt` are tables constrained by `Sound`. So `cos(pi/2)` is exactly 0 here, and the hyperbola's point there is a division by zero; in floating point it is a very large finite point.
- `Vector.unitize` belongs to the geometry library, which is not part of this model. `Unitize` assumes it divides each component by the length, so it fails with `ZeroDivisionError` exactly on the zero vector. Every "fails exactly when" contract of the tangents and normals rests on this assumption, including the parabola's failure at `t = 0`.
- Point, Vector, Frame, Plane and Transformation belong to the geometry library, which is not part of this model. They are value records. `Transformation.from_frame` is assumed to be the local-to-world map, and `Frame.transform` to map the origin as a point and the axes as vectors. The normalisation the `Frame` constructor performs is not modelled, so orthonormality is a hypothesis of the lemmas that need it.
- Aliasing: frames and points are values. The source shares and mutates `Frame` and `Point` objects in place (`self.frame.point = point`, `self.start.transform(T)`). A frame shared by two conics, or a point shared with the caller, is not modelled.
- `DATASCHEMA`, `JSONSCHEMANAME`, `__repr__`, `__len__` and `__iter__` of every curve: serialisation and plumbing. This includes `Parabola.__iter__`, which reads the missing `major`/`minor`. The schemas' positivity requirements appear as lemma hypotheses (`0 < b <= a`, non-zero radii).
- `__getitem__`/`__setitem__` of the ellipse, hyperbola and parabola are not modelled; only the circle's are. The ellipse and the hyperbola read `plane` under key 0, `major` under key 1 and `minor` under key 2. Setting key 0 fails as the circle's does, because `plane` has no setter. The parabola's keys are 0 for `frame` and 1 for `focal`, and both can be set; setting the frame rebuilds the cache.
- Line `data`, `from_data` and `point`: the data is the endpoint pair, `from_data` is the constructor, and `point` is `start`. The constant `is_periodic`/`is_closed` of the line are not modelled either.
- The scalar properties without a contract of their own are plain functions used by the lemmas above. They are `center` of the ellipse and the hyperbola; `normal`, `plane`, `xaxis` and `yaxis` of every conic; `diameter` and `area` of the circle; `vertex` and `latus` of the parabola; and `a`.
- curve.py is an abstract interface; each class declares its own evaluators.
- `mesh.edge_point` is a parameter of `SplitEdge`. `mesh.add_vertex` is modelled as the next key after the largest, with an empty neighbour map and only coordinates as attributes. The rest of the mesh library is not part of this model.
- Lines.Line.Equals, Circles.Circle.Equals: the operand's items have the curve's own item type (points for a line; frames and radii for a circle). An operand whose items have another type, such as a circle compared with a line, is not represented; the source compares such items as unequal. Python's `==` on points and frames is taken as exact equality.
- MeshSplit.Mesh.SplitEdge: it requires the mesh invariant `WellFormed`. A mesh where a halfedge's face lacks the halfedge's end would make `list.index` raise `ValueError`; that path is not modelled.
- Circles.Circle.NormalAt, Circles.Circle.TangentAt, Ellipses.Ellipse.TangentInPlane and the other placement facts hold under a current cache and an orthonormal frame. Without them the source promises nothing either.

## Findings

| source | as written | input that shows it | evidently intended | confidence | as-written member | corrected member |
|---|---|---|---|---|---|---|
| src/compas_future/geometry/curves/line.py:122-124 | `domain` is `(inf, inf)` | any `t`: no parameter lies in it, although `point_at(t)` is defined everywhere | `(-inf, inf)` | not executed | Lines.Line.Domain | Lines.Line.IntendedDomain |
| src/compas_future/geometry/curves/circle.py:217-223 | `circle[0] = frame` assigns to the read-only `plane` | `circle[0] = Frame.worldXY()` raises `AttributeError` | set the frame, so `circle[0]` returns what was stored | not executed | Circles.Circle.SetItem | Circles.Circle.SetItemIntended |
| src/compas_future/geometry/curves/circle.py:154-157 | the `point` setter moves `frame.point` without rebuilding the cache | move the centre of a circle at the origin to (1, 0, 0): `point_at(0)` stays at the old start point | rebuild the cache, as the frame setter does | not executed | Circles.Circle.MovedCenterStale | Circles.Circle.SetPointRebuilt |
| src/compas_future/geometry/curves/ellipse.py:177-179 | the `point` setter keeps the stale cache | any move of the origin: the cache no longer matches the frame | rebuild the cache | not executed | Ellipses.Ellipse.SetPoint | Ellipses.Ellipse.SetPointRebuilt |
| src/compas_future/geometry/curves/hyperbola.py:169-171 | the `point` setter keeps the stale cache | any move of the origin: the cache no longer matches the frame | rebuild the cache | not executed | Hyperbolas.Hyperbola.SetPoint | Hyperbolas.Hyperbola.SetPointRebuilt |
| src/compas_future/geometry/curves/parabola.py:170-172 | the `point` setter keeps the stale cache | any move of the origin: the cache no longer matches the frame | rebuild the cache | not executed | Parabolas.Parabola.SetPoint | Parabolas.Parabola.SetPointRebuilt |
| src/compas_future/geometry/curves/ellipse.py:142 | `from_data` passes `data["minor"]` for both radii | `{"major": 2.0, "minor": 1.0}` gives an ellipse with major 1.0 | pass `data["major"]` as the major radius | not executed | Ellipses.Ellipse.FromData | Ellipses.Ellipse.FromDataIntended |
| src/compas_future/geometry/curves/hyperbola.py:134 | `from_data` passes `data["minor"]` for both radii | `{"major": 8.0, "minor": 5.0}` gives a hyperbola with major 5.0 | pass `data["major"]` as the major radius | not executed | Hyperbolas.Hyperbola.FromData | Hyperbolas.Hyperbola.FromDataIntended |
| src/compas_future/geometry/curves/ellipse.py:233-241 | the directrices pass through the foci | major 5, minor 3: the line is at 4 from the centre, the documented `a / e` is 6.25 | the line at `a / e`, where the focus-directrix property holds | not executed | Ellipses.DirectrixThroughFocusIsNotDocumented | Ellipses.FocusDirectrix |
| src/compas_future/geometry/curves/hyperbola.py:391 | `transform` transforms a fresh `Plane` and drops it | a translation by (1, 0, 0): every point stays where it was | transform the frame and rebuild the cache, as `Conic.transform` does | not executed | Hyperbolas.Hyperbola.TranslationMisses | Hyperbolas.Hyperbola.TransformIntended |
| src/compas_future/geometry/curves/parabola.py:282-286 | the tangent is built as `t (1, 2 a t)` | `t = 0` unitizes the zero vector; `t = -1` gives the reversed tangent | the derivative `(1, 2 a t)` | not executed | Parabolas.Parabola.TangentTurned | Parabolas.Parabola.TangentAtIntended |
| src/compas_future/geometry/curves/parabola.py:305-309 | the normal is built as `t (-2 a t, 1)` | `t = 0` unitizes the zero vector; `t = -1` gives the reversed normal | the quarter-turned derivative `(-2 a t, 1)` | not executed | Parabolas.Parabola.NormalTurned | Parabolas.Parabola.NormalAtIntended |
| src/compas_future/geometry/curves/parabola.py:328-329 | `frame_at` passes `normalized=False` to `point_at` and `tangent_at`, which do not take it | any `t`: `TypeError` | call them without the keyword | not executed | Parabolas.Parabola.FrameAt | Parabolas.Parabola.FrameAtIntendedOrthonormal |
