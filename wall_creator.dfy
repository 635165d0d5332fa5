/**
 * The wall creator's geometry (ifcCreator/creators/wall_creator.py): the
 * centre of the corners, the padding of a three-corner wall, the face
 * normal by Newell's method, the face's local coordinate system, the
 * corners in local 2D coordinates, and the placement and extrusion of the
 * openings.
 *
 * Vector lengths are square roots; the length function is the parameter
 * `norm`. IFC entities are not built: a wall is the data its entities are
 * made from. Whether an IFC file is set is the parameter `hasFile`.
 */
module WallCreator {
  import opened Wrappers
  import opened Values
  import opened Vectors
  import opened StructuralSection
  import V = Validator

  // ---------------------------------------------------------------- corners

  /** The sum of the points, component by component. */
  function SumPoints(ps: seq<Vec3>): Vec3
  {
    if ps == [] then Zero else Add(SumPoints(ps[..|ps| - 1]), ps[|ps| - 1])
  }

  /** `q * n == a` for `q == a / n`. */
  lemma DivTimes(a: real, n: real)
    requires n != 0.0
    ensures (a / n) * n == a
  {
  }

  /**
   * `_calculate_center_from_corners`: the mean of the corners; an empty list
   * raises a ValueError.
   */
  function CenterFromCorners(ps: seq<Vec3>): (r: Result<Vec3>)
    ensures r.Err? <==> ps == []
    ensures r.Ok? ==> Scale(|ps| as real, r.value) == SumPoints(ps)
  {
    if ps == [] then Err(ValueError("corner list is empty"))
    else
      var s := SumPoints(ps);
      var n := |ps| as real;
      DivTimes(s.x, n);
      DivTimes(s.y, n);
      DivTimes(s.z, n);
      Ok(Vec3(s.x / n, s.y / n, s.z / n))
  }

  /** n copies of one point sum to n times it. */
  lemma {:induction false} SumOfCopies(ps: seq<Vec3>, p: Vec3)
    requires forall i :: 0 <= i < |ps| ==> ps[i] == p
    ensures SumPoints(ps) == Scale(|ps| as real, p)
  {
    if ps != [] {
      SumOfCopies(ps[..|ps| - 1], p);
    }
  }

  /** The centre of corners that all coincide is that point. */
  lemma CenterOfCoincidentCorners(ps: seq<Vec3>, p: Vec3)
    requires ps != [] && forall i :: 0 <= i < |ps| ==> ps[i] == p
    ensures CenterFromCorners(ps) == Ok(p)
  {
    SumOfCopies(ps, p);
    var n := |ps| as real;
    var c := CenterFromCorners(ps).value;
    assert n * c.x == n * p.x && n * c.y == n * p.y && n * c.z == n * p.z;
  }

  /**
   * The corner check of `_create_wall_geometry`: fewer than three corners
   * are refused; three are closed to four by repeating the first.
   */
  function PadCorners(ps: seq<Vec3>): (r: Option<seq<Vec3>>)
    ensures r.None? <==> |ps| < 3
    ensures r.Some? ==> |r.value| >= 4 && |ps| <= |r.value| && r.value[..|ps|] == ps
    ensures r.Some? && |ps| == 3 ==> r.value == ps + [ps[0]]
    ensures r.Some? && |ps| > 3 ==> r.value == ps
  {
    if |ps| < 3 then None
    else if |ps| == 3 then Some(ps + [ps[0]])
    else Some(ps)
  }

  // ---------------------------------------------------------------- face normal

  /** Newell's contribution of the edge from p1 to p2. */
  function NewellTerm(p1: Vec3, p2: Vec3): Vec3
  {
    Vec3((p1.y - p2.y) * (p1.z + p2.z), (p1.z - p2.z) * (p1.x + p2.x), (p1.x - p2.x) * (p1.y + p2.y))
  }

  /** The sum of Newell's terms over the first k edges of the closed polygon `ns` (the last edge returns to the first node). */
  function NewellPartial(ns: seq<Vec3>, k: nat): Vec3
    requires k <= |ns|
  {
    if k == 0 then Zero else Add(NewellPartial(ns, k - 1), NewellTerm(ns[k - 1], ns[if k < |ns| then k else 0]))
  }

  /** The unnormalised Newell normal of the closed polygon `ns`. */
  function NewellSum(ns: seq<Vec3>): Vec3
  {
    NewellPartial(ns, |ns|)
  }

  /** The unit Z axis, the normal used when none can be computed. */
  const UnitZ := Vec3(0.0, 0.0, 1.0)

  /** Lengths below this are treated as zero. */
  const Epsilon: real := 0.000000001

  /**
   * `_calculate_face_normal`: the Newell sum divided by its length, or the
   * unit Z axis for fewer than three nodes or a sum of (near) zero length.
   */
  function FaceNormal(ns: seq<Vec3>, norm: Vec3 -> real): (r: Vec3)
    ensures |ns| < 3 || norm(NewellSum(ns)) <= Epsilon ==> r == UnitZ
    ensures |ns| >= 3 && norm(NewellSum(ns)) > Epsilon ==> Scale(norm(NewellSum(ns)), r) == NewellSum(ns)
  {
    if |ns| < 3 then UnitZ
    else
      var s := NewellSum(ns);
      var len := norm(s);
      if len > Epsilon then Unit(s, len) else UnitZ
  }

  /** `v` divided by its length `len`. */
  function Unit(v: Vec3, len: real): (u: Vec3)
    requires len != 0.0
    ensures Scale(len, u) == v
  {
    DivTimes(v.x, len);
    DivTimes(v.y, len);
    DivTimes(v.z, len);
    Vec3(v.x / len, v.y / len, v.z / len)
  }

  /** `k % n` for the successor index of a closed polygon's edge loop. */
  lemma ModWrap(k: int, n: int)
    requires 0 < k <= n
    ensures k % n == if k < n then k else 0
  {
    if k == n {
      assert k % n == 0;
    }
  }

  /** The loop of `_calculate_face_normal`, accumulating Newell's terms edge by edge. */
  method CalculateFaceNormal(ns: seq<Vec3>, norm: Vec3 -> real) returns (r: Vec3)
    ensures r == FaceNormal(ns, norm)
  {
    if |ns| < 3 {
      return UnitZ;
    }
    var normal := Zero;
    var i := 0;
    while i < |ns|
      invariant 0 <= i <= |ns|
      invariant normal == NewellPartial(ns, i)
    {
      ModWrap(i + 1, |ns|);
      normal := Add(normal, NewellTerm(ns[i], ns[(i + 1) % |ns|]));
      i := i + 1;
    }
    var len := norm(normal);
    r := if len > Epsilon then Unit(normal, len) else UnitZ;
  }

  /** `m (a - b) + (b - d) m == m (a - d)`. */
  lemma Telescope(m: real, a: real, b: real, d: real)
    ensures m * (a - b) + m * (b - d) == m * (a - d)
  {
  }

  /** Over the first k edges of a polygon at height c, the x part is `2c (y0 - yk)` and the y part vanishes. */
  /** The Newell term of two points at height `c` has no Y part and an X part of `2c` times their Y difference. */
  lemma LevelTerm(p1: Vec3, p2: Vec3, c: real)
    requires p1.z == c && p2.z == c
    ensures NewellTerm(p1, p2).x == (c + c) * (p1.y - p2.y)
    ensures NewellTerm(p1, p2).y == 0.0
  {
  }

  lemma {:induction false} LevelNewellPartial(ns: seq<Vec3>, c: real, k: nat)
    requires 0 < k < |ns|
    requires forall i :: 0 <= i < |ns| ==> ns[i].z == c
    ensures NewellPartial(ns, k).x == (c + c) * (ns[0].y - ns[k].y)
    ensures NewellPartial(ns, k).y == 0.0
  {
    var m := c + c;
    var t := NewellTerm(ns[k - 1], ns[k]);
    LevelTerm(ns[k - 1], ns[k], c);
    assert NewellPartial(ns, k) == Add(NewellPartial(ns, k - 1), t);
    if k > 1 {
      LevelNewellPartial(ns, c, k - 1);
      Telescope(m, ns[0].y, ns[k - 1].y, ns[k].y);
    }
  }

  /** A polygon lying in a horizontal plane has a vertical Newell normal. */
  lemma LevelPolygonNormalIsVertical(ns: seq<Vec3>, c: real)
    requires |ns| >= 2
    requires forall i :: 0 <= i < |ns| ==> ns[i].z == c
    ensures NewellSum(ns).x == 0.0 && NewellSum(ns).y == 0.0
  {
    var n := |ns|;
    LevelNewellPartial(ns, c, n - 1);
    var t := NewellTerm(ns[n - 1], ns[0]);
    assert t.x == (ns[n - 1].y - ns[0].y) * (c + c);
    assert t.y == 0.0 * (ns[n - 1].x + ns[0].x);
    Telescope(c + c, ns[0].y, ns[n - 1].y, ns[0].y);
  }

  // ---------------------------------------------------------------- local coordinates

  /** A face coordinate system: an origin and three axes. */
  datatype CoordSystem = CoordSystem(origin: Vec3, xAxis: Vec3, yAxis: Vec3, zAxis: Vec3)

  const UnitX := Vec3(1.0, 0.0, 0.0)
  const UnitY := Vec3(0.0, 1.0, 0.0)

  /** The global axes at the given origin, the system used when no Y axis can be found. */
  function GlobalAxes(origin: Vec3): CoordSystem
  {
    CoordSystem(origin, UnitX, UnitY, UnitZ)
  }

  function Abs(x: real): real { if x < 0.0 then -x else x }

  /**
   * The Y axis: Z crossed with the first edge, or, when that vanishes, Z
   * crossed with the global X axis (the global Y axis when Z is parallel to
   * X); `None` when that vanishes too.
   */
  function YAxis(ns: seq<Vec3>, z: Vec3, norm: Vec3 -> real): (r: Option<Vec3>)
    requires |ns| >= 2
    ensures r.Some? ==> norm(r.value) >= Epsilon
    ensures norm(Cross(z, Sub(ns[1], ns[0]))) >= Epsilon ==> r == Some(Cross(z, Sub(ns[1], ns[0])))
    ensures r.Some? ==> r.value == Cross(z, Sub(ns[1], ns[0])) || r.value == Cross(z, UnitX) || r.value == Cross(z, UnitY)
  {
    var y := Cross(z, Sub(ns[1], ns[0]));
    if norm(y) >= Epsilon then Some(y)
    else
      var up := if Abs(Abs(Dot(UnitX, z)) - 1.0) < Epsilon then UnitY else UnitX;
      var y2 := Cross(z, up);
      if norm(y2) >= Epsilon then Some(y2) else None
  }

  /**
   * `_create_face_local_coordinate_system`: at least three nodes; the origin
   * is the given centre (else the centroid), Z the face normal, Y the unit
   * vector of `YAxis`, and X is Y crossed with Z; without a Y axis, the
   * global axes.
   */
  function FaceCoordinateSystem(ns: seq<Vec3>, center: Option<Vec3>, norm: Vec3 -> real): (r: Result<CoordSystem>)
    ensures r.Err? <==> |ns| < 3
    ensures r.Ok? && center.Some? ==> r.value.origin == center.value
    ensures r.Ok? && center.None? ==> r.value.origin == CenterFromCorners(ns).value
    ensures r.Ok? && YAxis(ns, FaceNormal(ns, norm), norm).None? ==> r.value == GlobalAxes(r.value.origin)
    ensures r.Ok? && YAxis(ns, FaceNormal(ns, norm), norm).Some? ==>
      r.value.zAxis == FaceNormal(ns, norm) && r.value.xAxis == Cross(r.value.yAxis, r.value.zAxis)
  {
    if |ns| < 3 then Err(ValueError("at least three nodes are needed"))
    else
      var origin := if center.Some? then center.value else CenterFromCorners(ns).value;
      var z := FaceNormal(ns, norm);
      match YAxis(ns, z, norm)
      case None => Ok(GlobalAxes(origin))
      case Some(y0) =>
        var y := Scale(1.0 / norm(y0), y0);
        Ok(CoordSystem(origin, Cross(y, z), y, z))
  }

  /** `a x b` is orthogonal to both `a` and `b`. */
  lemma CrossOrthogonal(a: Vec3, b: Vec3)
    ensures Dot(Cross(a, b), a) == 0.0 && Dot(Cross(a, b), b) == 0.0
  {
  }

  /** Scaling a vector scales its dot products. */
  lemma DotScale(k: real, a: Vec3, b: Vec3)
    ensures Dot(Scale(k, a), b) == k * Dot(a, b)
  {
  }

  /** When a Y axis is found, the three axes of the face system are mutually orthogonal. */
  lemma FaceAxesOrthogonal(ns: seq<Vec3>, center: Option<Vec3>, norm: Vec3 -> real)
    requires |ns| >= 3 && YAxis(ns, FaceNormal(ns, norm), norm).Some?
    ensures var cs := FaceCoordinateSystem(ns, center, norm).value;
      Dot(cs.yAxis, cs.zAxis) == 0.0 && Dot(cs.xAxis, cs.yAxis) == 0.0 && Dot(cs.xAxis, cs.zAxis) == 0.0
  {
    var z := FaceNormal(ns, norm);
    var y0 := YAxis(ns, z, norm).value;
    var y := Scale(1.0 / norm(y0), y0);
    var cs := FaceCoordinateSystem(ns, center, norm).value;
    assert cs.yAxis == y && cs.zAxis == z && cs.xAxis == Cross(y, z);
    if y0 == Cross(z, Sub(ns[1], ns[0])) {
      CrossOrthogonal(z, Sub(ns[1], ns[0]));
    } else if y0 == Cross(z, UnitX) {
      CrossOrthogonal(z, UnitX);
    } else {
      CrossOrthogonal(z, UnitY);
    }
    DotScale(1.0 / norm(y0), y0, z);
    CrossOrthogonal(y, z);
  }

  /** `_transform_to_local_2d`: the offset from the origin projected on the X and Y axes. */
  function ToLocal2D(p: Vec3, cs: CoordSystem): (real, real)
  {
    var v := Sub(p, cs.origin);
    (Dot(v, cs.xAxis), Dot(v, cs.yAxis))
  }

  /** The origin of a face system is at (0, 0) in it. */
  lemma OriginIsLocalZero(cs: CoordSystem)
    ensures ToLocal2D(cs.origin, cs) == (0.0, 0.0)
  {
    assert Sub(cs.origin, cs.origin) == Zero;
  }

  /** With the global axes a point keeps its plan offset from the origin. */
  lemma GlobalAxesKeepPlan(p: Vec3, cs: CoordSystem)
    requires cs.xAxis == UnitX && cs.yAxis == UnitY
    ensures ToLocal2D(p, cs) == (p.x - cs.origin.x, p.y - cs.origin.y)
  {
  }

  /** The profile points of the nodes, in order. */
  function Profile(ns: seq<Vec3>, cs: CoordSystem): (r: seq<(real, real)>)
    ensures |r| == |ns|
    ensures forall i :: 0 <= i < |ns| ==> r[i] == ToLocal2D(ns[i], cs)
  {
    seq(|ns|, i requires 0 <= i < |ns| => ToLocal2D(ns[i], cs))
  }

  // ---------------------------------------------------------------- openings

  /** Python arithmetic on a value: a float, or a bool as 1 or 0; anything else raises a TypeError. */
  function Arith(v: Value): Result<real>
  {
    if V.Numeric(v) then Ok(V.NumValue(v)) else Err(TypeError("unsupported operand type"))
  }

  /** An opening as built: its size, its centre in the wall's local system and its extrusion through the wall. */
  datatype Opening = Opening(id: Value, width: real, height: real, position: Vec3, start: real, depth: real)

  /** What one entry of `openings` gives: an opening, a caught failure, or a failure the handler itself raises. */
  datatype OpeningOutcome = Built(opening: Opening) | Skipped | Aborted

  /** The figures an opening is computed from: width, height, offsets, wall length, height and thickness. */
  datatype Figures = Figures(width: real, height: real, relX: real, relZ: real, wallLength: real, wallHeight: real, thickness: real)

  /** The opening's dimensions and position dicts (missing ones are empty) and the numbers read from them and from the wall section. */
  function ReadFigures(o: Dict, props: Dict): Result<Figures>
  {
    var dims := LookupOr(o, "dimensions", Dict(map[]));
    var rel := LookupOr(o, "relative_position", Dict(map[]));
    if !dims.Dict? || !rel.Dict? then Err(AttributeError("object has no attribute 'get'"))
    else
      match (ToFloat(LookupOr(dims.m, "width", Num(1000.0))), ToFloat(LookupOr(dims.m, "height", Num(2000.0))))
      case (Ok(w), Ok(h)) =>
        (match (Arith(LookupOr(props, "thickness", Num(250.0))), ToFloat(LookupOr(rel.m, "x", Num(0.0))), ToFloat(LookupOr(rel.m, "y", Num(0.0))))
         case (Ok(t), Ok(rx), Ok(rz)) =>
           (match (Arith(LookupOr(props, "length", Num(6000.0))), Arith(LookupOr(props, "height", Num(4500.0))))
            case (Ok(l), Ok(wh)) => Ok(Figures(w, h, rx, rz, l, wh, t))
            case _ => Err(TypeError("unsupported operand type")))
         case _ => Err(TypeError("unsupported operand type")))
      case _ => Err(ValueError("could not convert to float"))
  }

  /** The clearance on each side of the wall. */
  const Clearance: real := 1.0

  /**
   * One opening: its centre is its lower-left offset, taken from the wall's
   * centre, plus half its size; it is extruded from `-t/2 - 1` over `t + 2`.
   */
  function OpeningFrom(id: Value, f: Figures): (op: Opening)
    ensures op.position.x - f.width / 2.0 == f.relX - f.wallLength / 2.0
    ensures op.position.y - f.height / 2.0 == f.relZ - f.wallHeight / 2.0
    ensures op.position.z == 0.0
    ensures op.start == -(f.thickness / 2.0) - Clearance && op.start + op.depth == f.thickness / 2.0 + Clearance
  {
    var centerOffsetX := f.relX - f.wallLength / 2.0;
    var centerOffsetZ := f.relZ - f.wallHeight / 2.0;
    Opening(id, f.width, f.height, Vec3(centerOffsetX + f.width / 2.0, centerOffsetZ + f.height / 2.0, 0.0),
            -f.thickness / 2.0 - Clearance, f.thickness + 2.0 * Clearance)
  }

  /** An opening the size of the wall placed at its lower-left corner is centred on the wall. */
  lemma FullOpeningIsCentred(id: Value, f: Figures)
    requires f.relX == 0.0 && f.relZ == 0.0 && f.width == f.wallLength && f.height == f.wallHeight
    ensures OpeningFrom(id, f).position == Zero
  {
  }

  /** One iteration of the opening loop: a non-dict entry makes the handler's own `.get` raise. */
  function OpeningOutcomeOf(o: Value, props: Dict): (r: OpeningOutcome)
    ensures r == Aborted <==> !o.Dict?
    ensures r.Built? ==> o.Dict? && ReadFigures(o.m, props).Ok? && r.opening == OpeningFrom(LookupOr(o.m, "id", Str("Unknown")), ReadFigures(o.m, props).value)
    ensures o.Dict? ==> (r.Built? <==> ReadFigures(o.m, props).Ok?)
  {
    if !o.Dict? then Aborted
    else
      match ReadFigures(o.m, props)
      case Ok(f) => Built(OpeningFrom(LookupOr(o.m, "id", Str("Unknown")), f))
      case Err(_) => Skipped
  }

  /** The openings of the list, skipping failures; `Err` once an entry aborts the loop. */
  function OpeningsOf(items: seq<Value>, props: Dict): (r: Result<seq<Opening>>)
    ensures r.Ok? <==> forall i :: 0 <= i < |items| ==> items[i].Dict?
    ensures r.Ok? ==> |r.value| <= |items|
  {
    if items == [] then Ok([])
    else
      match OpeningsOf(items[..|items| - 1], props)
      case Err(e) => Err(e)
      case Ok(prev) =>
        (match OpeningOutcomeOf(items[|items| - 1], props)
         case Built(op) => Ok(prev + [op])
         case Skipped => Ok(prev)
         case Aborted => Err(AttributeError("object has no attribute 'get'")))
  }

  /** `_create_wall_openings`: the loop over the openings, each in its own handler. */
  method CreateWallOpenings(items: seq<Value>, props: Dict) returns (r: Result<seq<Opening>>)
    ensures r == OpeningsOf(items, props)
  {
    var built: seq<Opening> := [];
    var i := 0;
    while i < |items|
      invariant 0 <= i <= |items|
      invariant OpeningsOf(items[..i], props) == Ok(built)
    {
      assert items[..i + 1][..i] == items[..i];
      var outcome := OpeningOutcomeOf(items[i], props);
      if outcome.Aborted? {
        assert OpeningsOf(items[..i + 1], props).Err?;
        ErrorSticks(items, props, i + 1);
        assert items[..|items|] == items;
        return Err(AttributeError("object has no attribute 'get'"));
      }
      if outcome.Built? {
        built := built + [outcome.opening];
      }
      i := i + 1;
    }
    assert items[..i] == items;
    r := Ok(built);
  }

  /** Once a prefix fails, every longer prefix fails the same way. */
  lemma {:induction false} ErrorSticks(items: seq<Value>, props: Dict, k: nat)
    requires 0 < k <= |items|
    requires OpeningsOf(items[..k], props).Err?
    ensures OpeningsOf(items, props) == OpeningsOf(items[..k], props)
    decreases |items| - k
  {
    if k < |items| {
      assert items[..k + 1][..k] == items[..k];
      ErrorSticks(items, props, k + 1);
    } else {
      assert items[..k] == items;
    }
  }

  /** The openings value of a definition: falsy means none, a list is looped over, anything else makes the loop raise. */
  function OpeningsValue(openings: Value, props: Dict): (r: Result<seq<Opening>>)
    ensures !Truthy(openings) ==> r == Ok([])
    ensures Truthy(openings) && openings.List? ==> r == OpeningsOf(openings.items, props)
  {
    if !Truthy(openings) then Ok([])
    else if openings.List? then OpeningsOf(openings.items, props)
    else Err(TypeError("openings are not a list of dicts"))
  }

  // ---------------------------------------------------------------- the wall

  /** A wall as created: its centre, local system, profile, thickness and openings. */
  datatype Wall = Wall(name: Value, tag: Value, center: Vec3, cs: CoordSystem, profile: seq<(real, real)>, thickness: real, openings: seq<Opening>)

  /**
   * `_create_wall_geometry`: the padded corners, of which the first four
   * make the profile in the face's local system, and the wall thickness
   * (250 when the section has none).
   */
  function WallGeometry(corners: seq<Vec3>, props: Dict, center: Vec3, norm: Vec3 -> real): (r: Option<(CoordSystem, seq<(real, real)>, real)>)
    ensures r.Some? ==> |corners| >= 3 && |r.value.1| == 4
    ensures r.Some? ==> forall i :: 0 <= i < 4 && i < |corners| ==> r.value.1[i] == ToLocal2D(corners[i], r.value.0)
    ensures r.Some? && |corners| == 3 ==> r.value.1[3] == r.value.1[0]
    ensures r.Some? ==> r.value.0.origin == center
  {
    match PadCorners(corners)
    case None => None
    case Some(padded) =>
      var nodes := padded[..4];
      match FaceCoordinateSystem(nodes, Some(center), norm)
      case Err(_) => None
      case Ok(cs) =>
        PaddedProfile(corners, padded, cs);
        match Arith(LookupOr(props, "thickness", Num(250.0)))
        case Err(_) => None
        case Ok(t) => Some((cs, Profile(nodes, cs), t))
  }

  /** The profile of the first four padded corners: the corners' own local points, the first again for a triangle. */
  lemma PaddedProfile(corners: seq<Vec3>, padded: seq<Vec3>, cs: CoordSystem)
    requires PadCorners(corners) == Some(padded)
    ensures |Profile(padded[..4], cs)| == 4
    ensures forall i :: 0 <= i < 4 && i < |corners| ==> Profile(padded[..4], cs)[i] == ToLocal2D(corners[i], cs)
    ensures |corners| == 3 ==> Profile(padded[..4], cs)[3] == Profile(padded[..4], cs)[0]
  {
    var nodes := padded[..4];
    assert forall i :: 0 <= i < 4 && i < |corners| ==> nodes[i] == corners[i];
  }

  /** Only the first four corners shape a wall whose centre is given. */
  lemma OnlyFourCornersCount(c1: seq<Vec3>, c2: seq<Vec3>, props: Dict, center: Vec3, norm: Vec3 -> real)
    requires |c1| >= 4 && |c2| >= 4 && c1[..4] == c2[..4]
    ensures WallGeometry(c1, props, center, norm) == WallGeometry(c2, props, center, norm)
  {
  }

  /**
   * `create_wall`: nothing without an IFC file; the centre is the one given
   * or the mean of the (unpadded) corners; then the geometry and the
   * openings, a failure of either giving nothing.
   */
  function CreateWall(corners: seq<Vec3>, props: Dict, center: Option<Vec3>, openings: Value, name: Value, tag: Value,
                      hasFile: bool, norm: Vec3 -> real): (r: Option<Wall>)
    ensures r.Some? ==> hasFile && |corners| >= 3
    ensures r.Some? && center.Some? ==> r.value.center == center.value
    ensures r.Some? && center.None? ==> r.value.center == CenterFromCorners(corners).value
    ensures r.Some? ==> OpeningsValue(openings, props) == Ok(r.value.openings)
  {
    if !hasFile then None
    else
      var c := if center.Some? then Ok(center.value) else CenterFromCorners(corners);
      match c
      case Err(_) => None
      case Ok(ctr) =>
        match WallGeometry(corners, props, ctr, norm)
        case None => None
        case Some((cs, profile, t)) =>
          match OpeningsValue(openings, props)
          case Err(_) => None
          case Ok(ops) => Some(Wall(name, tag, ctr, cs, profile, t, ops))
  }

  /** The properties of the section object built from a section dict: all keys but stb_name and section_type. */
  function SectionProperties(section: Dict): (p: Dict)
    ensures forall k :: k in p <==> k in section && k != "stb_name" && k != "section_type"
  {
    map k | k in section && k != "stb_name" && k != "section_type" :: section[k]
  }

  /** The point of a checked corner node. */
  function PointOf(v: Value): Vec3
    requires V.PointValid(Plain(v))
  {
    var (x, y, z) := V.Coords(Plain(v));
    Vec3(x, y, z)
  }

  /** The corner points of checked corner nodes. */
  function CornerPoints(items: seq<Value>): (ps: seq<Vec3>)
    requires forall i :: 0 <= i < |items| ==> V.PointValid(Plain(items[i]))
    ensures |ps| == |items|
  {
    seq(|items|, i requires 0 <= i < |items| => PointOf(items[i]))
  }

  /**
   * `create_element`: the definition must pass `validate_wall_definition`;
   * the section dict becomes a section object (a property called "name"
   * clashes with the keyword and raises); a truthy centre must be a point.
   */
  function CreateElement(d: Dict, hasFile: bool, norm: Vec3 -> real): (r: Option<Wall>)
    ensures r.Some? ==> V.ValidateWall(V.Lift(d)).Ok?
    ensures r.Some? ==> |d["corner_nodes"].items| >= 3
    ensures r.Some? ==> r.value.name == LookupOr(d, "name", Str("Wall"))
  {
    if V.ValidateWall(V.Lift(d)).Err? then None
    else
      var props := SectionProperties(d["section"].m);
      if "name" in props then None
      else
        var items := d["corner_nodes"].items;
        assert forall i :: 0 <= i < |items| ==> V.PointValid(Plain(items[i]));
        var cp := LookupOr(d, "center_point", Null);
        if Truthy(cp) && !V.PointValid(Plain(cp)) then None
        else
          var center := if Truthy(cp) then Some(PointOf(cp)) else None;
          CreateWall(CornerPoints(items), props, center, LookupOr(d, "openings", List([])),
                     LookupOr(d, "name", Str("Wall")), LookupOr(d, "tag", Str("W001")), hasFile, norm)
  }

  /** A wall of two corners passes the wall check but is never built. */
  lemma TwoCornerWallNotBuilt(d: Dict, hasFile: bool, norm: Vec3 -> real)
    requires V.ValidateWall(V.Lift(d)).Ok?
    requires |d["corner_nodes"].items| == 2
    ensures CreateElement(d, hasFile, norm).None?
  {
  }
}
