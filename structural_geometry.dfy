/**
 * The shared geometry of linear members (ifcCreator/geometry/structural_geometry.py):
 * the centre, span and unit direction from the two end points, and the
 * reference direction that orients the cross-section, chosen per kind of
 * member (beam, column, brace).
 *
 * The Euclidean length is a square root; it is the parameter `norm`.
 */
module StructuralGeometry {
  import opened Vectors

  datatype ElementType = BEAM | COLUMN | BRACE

  /** What `_calculate_base_geometry` and the per-kind calculators return. */
  datatype Geometry = Geometry(center: Vec3, span: real, direction: Vec3, referenceDirection: Vec3, elementType: ElementType)

  const UnitX := Vec3(1.0, 0.0, 0.0)
  const UnitY := Vec3(0.0, 1.0, 0.0)
  const UnitZ := Vec3(0.0, 0.0, 1.0)

  /** The tolerance below which a component counts as zero. */
  const Tolerance: real := 0.000001

  function Abs(x: real): real { if x < 0.0 then -x else x }

  /** The direction used for a member of zero span: X for beams, the diagonal of XZ for braces, Z for columns. */
  function DefaultDirection(t: ElementType): Vec3
  {
    match t
    case BEAM => UnitX
    case BRACE => Vec3(1.0, 0.0, 1.0)
    case COLUMN => UnitZ
  }

  /** The point halfway between two points. */
  function Midpoint(a: Vec3, b: Vec3): (c: Vec3)
    ensures Sub(c, a) == Sub(b, c)
  {
    Vec3((a.x + b.x) / 2.0, (a.y + b.y) / 2.0, (a.z + b.z) / 2.0)
  }

  /** `q * n == a` for `q == a / n`. */
  lemma DivTimes(a: real, n: real)
    requires n != 0.0
    ensures (a / n) * n == a
  {
  }

  /**
   * `_calculate_base_geometry`: the centre is the midpoint, the span the
   * length of the member, the direction the member divided by its span, or
   * the kind's default when the span is not positive; the reference
   * direction starts as X.
   */
  function BaseGeometry(start: Vec3, end: Vec3, t: ElementType, norm: Vec3 -> real): (g: Geometry)
    ensures Sub(g.center, start) == Sub(end, g.center)
    ensures g.span == norm(Sub(end, start)) && g.elementType == t
    ensures g.span > 0.0 ==> Scale(g.span, g.direction) == Sub(end, start)
    ensures g.span <= 0.0 ==> g.direction == DefaultDirection(t)
    ensures g.referenceDirection == UnitX
  {
    var d := Sub(end, start);
    var span := norm(d);
    var direction := if span > 0.0 then Divided(d, span) else DefaultDirection(t);
    Geometry(Midpoint(start, end), span, direction, UnitX, t)
  }

  /** Each component divided by `k`. */
  function Divided(v: Vec3, k: real): (u: Vec3)
    requires k != 0.0
    ensures Scale(k, u) == v
  {
    DivTimes(v.x, k);
    DivTimes(v.y, k);
    DivTimes(v.z, k);
    Vec3(v.x / k, v.y / k, v.z / k)
  }

  /**
   * The horizontal direction perpendicular to `d`: `(-d.y, d.x, 0)`
   * normalised, or X when that is (nearly) zero.
   */
  function HorizontalPerpendicular(d: Vec3, norm: Vec3 -> real): (r: Vec3)
    ensures norm(Vec3(-d.y, d.x, 0.0)) > Tolerance ==>
      r.z == 0.0 && Dot(r, d) == 0.0 && Scale(norm(Vec3(-d.y, d.x, 0.0)), r) == Vec3(-d.y, d.x, 0.0)
    ensures norm(Vec3(-d.y, d.x, 0.0)) <= Tolerance ==> r == UnitX
  {
    var p := Vec3(-d.y, d.x, 0.0);
    var len := norm(p);
    if len > Tolerance then
      var r := Divided(p, len);
      PerpendicularDot(d, len);
      r
    else UnitX
  }

  /** `(-d.y, d.x, 0) / len` is orthogonal to `d`. */
  lemma PerpendicularDot(d: Vec3, len: real)
    requires len != 0.0
    ensures Dot(Vec3(-d.y / len, d.x / len, 0.0 / len), d) == 0.0
  {
    assert -d.y / len * d.x == -(d.y * d.x) / len;
    assert d.x / len * d.y == (d.x * d.y) / len;
  }

  /** `_calculate_beam_reference_direction`: X for a vertical beam, else the horizontal perpendicular. */
  function BeamReference(d: Vec3, norm: Vec3 -> real): (r: Vec3)
    ensures Abs(d.x) < Tolerance && Abs(d.y) < Tolerance ==> r == UnitX
    ensures !(Abs(d.x) < Tolerance && Abs(d.y) < Tolerance) ==> r == HorizontalPerpendicular(d, norm)
  {
    if Abs(d.x) < Tolerance && Abs(d.y) < Tolerance then UnitX else HorizontalPerpendicular(d, norm)
  }

  /** `_calculate_column_reference_direction`: X for a (nearly) vertical column, else the horizontal perpendicular. */
  function ColumnReference(d: Vec3, norm: Vec3 -> real): (r: Vec3)
    ensures Abs(d.z) > 0.9 ==> r == UnitX
    ensures Abs(d.z) <= 0.9 ==> r == HorizontalPerpendicular(d, norm)
  {
    if Abs(d.z) > 0.9 then UnitX else HorizontalPerpendicular(d, norm)
  }

  /** `_calculate_brace_reference_direction`: Y for a horizontal brace, X for a vertical one, else the horizontal perpendicular. */
  function BraceReference(d: Vec3, norm: Vec3 -> real): (r: Vec3)
    ensures Abs(d.z) < Tolerance ==> r == UnitY
    ensures Abs(d.z) >= Tolerance && Abs(d.x) < Tolerance && Abs(d.y) < Tolerance ==> r == UnitX
    ensures Abs(d.z) >= Tolerance && !(Abs(d.x) < Tolerance && Abs(d.y) < Tolerance) ==> r == HorizontalPerpendicular(d, norm)
  {
    if Abs(d.z) < Tolerance then UnitY
    else if Abs(d.x) < Tolerance && Abs(d.y) < Tolerance then UnitX
    else HorizontalPerpendicular(d, norm)
  }

  /** The reference direction of a kind of member. */
  function ReferenceFor(t: ElementType, d: Vec3, norm: Vec3 -> real): Vec3
  {
    match t
    case BEAM => BeamReference(d, norm)
    case COLUMN => ColumnReference(d, norm)
    case BRACE => BraceReference(d, norm)
  }

  /** `calculate_beam_geometry`, `calculate_column_geometry` and `calculate_brace_geometry`. */
  function MemberGeometry(start: Vec3, end: Vec3, t: ElementType, norm: Vec3 -> real): (g: Geometry)
    ensures var b := BaseGeometry(start, end, t, norm);
      g == b.(referenceDirection := ReferenceFor(t, b.direction, norm))
  {
    var b := BaseGeometry(start, end, t, norm);
    b.(referenceDirection := ReferenceFor(t, b.direction, norm))
  }

  /** Swapping the ends keeps the centre. */
  lemma CenterSymmetric(a: Vec3, b: Vec3, t: ElementType, norm: Vec3 -> real)
    ensures MemberGeometry(a, b, t, norm).center == MemberGeometry(b, a, t, norm).center
  {
  }

  /**
   * A member of zero length points along its kind's default direction; its
   * reference direction is then Y for beams and braces and X for columns.
   */
  lemma ZeroSpanDefaults(p: Vec3, t: ElementType, norm: Vec3 -> real)
    requires norm(Zero) == 0.0 && norm(UnitY) == 1.0
    ensures MemberGeometry(p, p, t, norm).direction == DefaultDirection(t)
    ensures t != COLUMN ==> MemberGeometry(p, p, t, norm).referenceDirection == UnitY
    ensures t == COLUMN ==> MemberGeometry(p, p, t, norm).referenceDirection == UnitX
  {
    assert Sub(p, p) == Zero;
    var b := BaseGeometry(p, p, t, norm);
    assert b.direction == DefaultDirection(t);
    if t != COLUMN {
      PerpendicularOfX(b.direction, norm);
    }
  }

  /** A direction along X, raised or not, has Y as its horizontal perpendicular. */
  lemma PerpendicularOfX(d: Vec3, norm: Vec3 -> real)
    requires d.x == 1.0 && d.y == 0.0 && norm(UnitY) == 1.0
    ensures HorizontalPerpendicular(d, norm) == UnitY
  {
    assert Vec3(-d.y, d.x, 0.0) == UnitY;
    var r := HorizontalPerpendicular(d, norm);
    assert Scale(1.0, r) == UnitY;
    assert Scale(1.0, r) == r;
  }

  /** A non-zero factor cancels. */
  lemma Cancel(h: real, a: real, b: real)
    requires h != 0.0 && h * a == h * b
    ensures a == b
  {
    assert h * (a - b) == 0.0;
  }

  /**
   * A column whose top is straight above its bottom (its length being its
   * rise) gets the X axis as reference direction.
   */
  lemma PlumbColumnReference(bottom: Vec3, top: Vec3, norm: Vec3 -> real)
    requires top.x == bottom.x && top.y == bottom.y && top.z > bottom.z
    requires norm(Sub(top, bottom)) == top.z - bottom.z
    ensures MemberGeometry(bottom, top, COLUMN, norm).direction == UnitZ
    ensures MemberGeometry(bottom, top, COLUMN, norm).referenceDirection == UnitX
  {
    var g := BaseGeometry(bottom, top, COLUMN, norm);
    var h := top.z - bottom.z;
    var s := Scale(h, g.direction);
    assert s == Vec3(0.0, 0.0, h);
    assert s.x == h * g.direction.x && s.y == h * g.direction.y && s.z == h * g.direction.z;
    Cancel(h, g.direction.x, 0.0);
    Cancel(h, g.direction.y, 0.0);
    Cancel(h, g.direction.z, 1.0);
  }

  /** A level brace (both ends at one height) of positive length takes Y as its reference direction. */
  lemma LevelBraceReference(start: Vec3, end: Vec3, norm: Vec3 -> real)
    requires start.z == end.z && norm(Sub(end, start)) > 0.0
    ensures MemberGeometry(start, end, BRACE, norm).referenceDirection == UnitY
  {
    var g := BaseGeometry(start, end, BRACE, norm);
    if g.span > 0.0 {
      assert g.span * g.direction.z == 0.0;
    }
  }

  /**
   * A beam that is not vertical gets a horizontal reference direction
   * perpendicular to its axis whenever that perpendicular has a length.
   */
  lemma BeamReferencePerpendicular(start: Vec3, end: Vec3, norm: Vec3 -> real)
    requires var d := MemberGeometry(start, end, BEAM, norm).direction;
      !(Abs(d.x) < Tolerance && Abs(d.y) < Tolerance) && norm(Vec3(-d.y, d.x, 0.0)) > Tolerance
    ensures var g := MemberGeometry(start, end, BEAM, norm);
      g.referenceDirection.z == 0.0 && Dot(g.referenceDirection, g.direction) == 0.0
  {
  }
}
