/**
 * The column creator's own logic (ifcCreator/creators/column_creator.py):
 * which sections a column definition yields, when a column is tapered,
 * which dimensions each steel family has, the linear interpolation of those
 * dimensions between the bottom and the top section, and the ten-segment
 * approximation of a tapered column.
 *
 * IFC entities are values of `Profile` and `Solid`; the profile a full
 * section gives (`_create_section_profile`) is not modelled beyond whether
 * it can be built, which is a parameter. The column height is the
 * Euclidean distance of the end points, a square root, and is passed in.
 */
module ColumnCreator {
  import opened Wrappers
  import opened Values
  import opened Vectors
  import opened StructuralSection
  import V = Validator

  /** `None` as a processed definition holds it. */
  const NoObj: Obj := Plain(Null)

  // ---------------------------------------------------------------------------
  // Sections of a definition and taper detection
  // ---------------------------------------------------------------------------

  /**
   * The bottom and top sections `create_element` passes on: both end points
   * and a section (`section` or `sec_bottom`) are required; a plain `section`
   * without `sec_bottom` becomes the bottom section with no top section.
   */
  function SelectSections(bottomPoint: Obj, topPoint: Obj, section: Obj, secBottom: Obj, secTop: Obj): (r: Option<(Obj, Obj)>)
    ensures r.None? <==> !ObjTruthy(bottomPoint) || !ObjTruthy(topPoint) || (!ObjTruthy(section) && !ObjTruthy(secBottom))
    ensures r.Some? ==> ObjTruthy(r.value.0)
    ensures r.Some? && ObjTruthy(secBottom) ==> r.value == (secBottom, secTop)
    ensures r.Some? && !ObjTruthy(secBottom) ==> r.value == (section, NoObj)
  {
    if !(ObjTruthy(bottomPoint) && ObjTruthy(topPoint)) || !(ObjTruthy(section) || ObjTruthy(secBottom)) then None
    else if ObjTruthy(section) && !ObjTruthy(secBottom) then Some((section, NoObj))
    else Some((secBottom, secTop))
  }

  /** `sec_top or sec_bottom`. */
  function EffectiveTop(secBottom: Obj, secTop: Obj): (r: Obj)
    ensures ObjTruthy(secTop) ==> r == secTop
    ensures !ObjTruthy(secTop) ==> r == secBottom
  {
    if ObjTruthy(secTop) then secTop else secBottom
  }

  /** `sec_top is not None and sec_bottom != effective_top`. */
  function IsTapered(secBottom: Obj, secTop: Obj): bool
  {
    secTop != NoObj && secBottom != EffectiveTop(secBottom, secTop)
  }

  /** A column is tapered exactly when a top section is given and differs from the bottom one. */
  lemma TaperedIff(secBottom: Obj, secTop: Obj)
    ensures IsTapered(secBottom, secTop) <==> ObjTruthy(secTop) && secTop != secBottom
  {
  }

  /** A plain section never makes a tapered column. */
  lemma PlainSectionNotTapered(bottomPoint: Obj, topPoint: Obj, section: Obj, secTop: Obj)
    requires SelectSections(bottomPoint, topPoint, section, NoObj, secTop).Some?
    ensures !IsTapered(SelectSections(bottomPoint, topPoint, section, NoObj, secTop).value.0,
                       SelectSections(bottomPoint, topPoint, section, NoObj, secTop).value.1)
  {
  }

  // ---------------------------------------------------------------------------
  // Section dimensions
  // ---------------------------------------------------------------------------

  /** The dimension names of a steel family, by shape name; other shapes have none. */
  function DimensionKeys(shape: Value): (ks: seq<string>)
    ensures shape in [Str("H"), Str("HW"), Str("HM"), Str("HN")] ==> ks == ["height", "width", "web_thickness", "flange_thickness"]
    ensures shape in [Str("BOX"), Str("BCR"), Str("L")] ==> ks == ["height", "width", "thickness"]
    ensures shape in [Str("PIPE"), Str("P")] ==> ks == ["diameter", "thickness"]
    ensures shape !in [Str("H"), Str("HW"), Str("HM"), Str("HN"), Str("BOX"), Str("BCR"), Str("PIPE"), Str("P"), Str("L")] ==> ks == []
  {
    if shape in [Str("H"), Str("HW"), Str("HM"), Str("HN")] then ["height", "width", "web_thickness", "flange_thickness"]
    else if shape in [Str("BOX"), Str("BCR")] then ["height", "width", "thickness"]
    else if shape in [Str("PIPE"), Str("P")] then ["diameter", "thickness"]
    else if shape in [Str("L")] then ["height", "width", "thickness"]
    else []
  }

  /** The `shape_name` attribute of a section object, when it has one. */
  function ShapeName(o: Obj): Option<Value>
  {
    match o
    case Section(s) => if "shape_name" in s.properties then Some(s.properties["shape_name"]) else None
    case _ => None
  }

  /**
   * `_get_section_dimensions`: the family's dimensions, each the section's
   * property of that name or 0.0; a section without a shape name (the
   * attribute error is caught) or of another family gives `{}`.
   */
  function SectionDimensions(o: Obj): (d: Dict)
    ensures ShapeName(o).None? ==> d == map[]
    ensures ShapeName(o).Some? ==> forall k :: k in d <==> k in DimensionKeys(ShapeName(o).value)
    ensures forall k :: k in d ==> o.Section? && d[k] == LookupOr(o.s.properties, k, Num(0.0))
  {
    match ShapeName(o)
    case None => map[]
    case Some(shape) => map k | k in DimensionKeys(shape) :: LookupOr(o.s.properties, k, Num(0.0))
  }

  /** A section with dimensions has a shape name of a steel family. */
  lemma DimensionsPresent(o: Obj)
    requires SectionDimensions(o) != map[]
    ensures ShapeName(o).Some? && DimensionKeys(ShapeName(o).value) != []
  {
  }

  // ---------------------------------------------------------------------------
  // Interpolation
  // ---------------------------------------------------------------------------

  /** Every dimension both sections have is a number in each. */
  predicate AllNumeric(bottom: Dict, top: Dict)
  {
    forall k :: k in bottom && k in top ==> V.Numeric(bottom[k]) && V.Numeric(top[k])
  }

  /**
   * The interpolation loop: for each dimension of the bottom section that
   * the top section also has, `bottom + (top - bottom) * ratio`; a value that
   * is not a number (a float, or a bool as 1 or 0) raises a TypeError.
   */
  function Interpolate(bottom: Dict, top: Dict, ratio: real): (r: Result<Dict>)
    ensures r.Ok? <==> AllNumeric(bottom, top)
    ensures r.Ok? ==> forall k :: k in r.value <==> k in bottom && k in top
    ensures r.Ok? ==> forall k :: k in r.value ==>
      r.value[k] == Num(V.NumValue(bottom[k]) + (V.NumValue(top[k]) - V.NumValue(bottom[k])) * ratio)
  {
    if AllNumeric(bottom, top) then
      Ok(map k | k in bottom && k in top :: Num(V.NumValue(bottom[k]) + (V.NumValue(top[k]) - V.NumValue(bottom[k])) * ratio))
    else Err(TypeError("unsupported operand type"))
  }

  /** At ratio 0 the bottom dimensions come back, at ratio 1 the top ones. */
  lemma InterpolateEndpoints(bottom: Dict, top: Dict, k: string)
    requires AllNumeric(bottom, top) && k in bottom && k in top
    ensures Interpolate(bottom, top, 0.0).value[k] == Num(V.NumValue(bottom[k]))
    ensures Interpolate(bottom, top, 1.0).value[k] == Num(V.NumValue(top[k]))
  {
  }

  /** The profiles of interpolated dimensions, one per family. */
  datatype Profile =
    | IShape(depth: real, width: real, webThickness: real, flangeThickness: real)
    | RectangleHollow(yDim: real, xDim: real, wallThickness: real)
    | CircleHollow(radius: real, wallThickness: real)
    | LShape(lDepth: real, lWidth: real, lThickness: real)
    | SectionProfile(section: Obj)

  /** `dimensions.get(k, 0.0)` on interpolated dimensions. */
  function Dim(d: Dict, k: string): real
  {
    if k in d && d[k].Num? then d[k].r else 0.0
  }

  /** `_create_interpolated_profile`: the profile of the base section's family with the given dimensions. */
  function InterpolatedProfile(base: Obj, d: Dict): (r: Option<Profile>)
    ensures r.Some? <==> ShapeName(base).Some? && DimensionKeys(ShapeName(base).value) != []
  {
    match ShapeName(base)
    case None => None
    case Some(shape) =>
      if shape in [Str("H"), Str("HW"), Str("HM"), Str("HN")] then
        Some(IShape(Dim(d, "height"), Dim(d, "width"), Dim(d, "web_thickness"), Dim(d, "flange_thickness")))
      else if shape in [Str("BOX"), Str("BCR")] then
        Some(RectangleHollow(Dim(d, "height"), Dim(d, "width"), Dim(d, "thickness")))
      else if shape in [Str("PIPE"), Str("P")] then
        Some(CircleHollow(Dim(d, "diameter") / 2.0, Dim(d, "thickness")))
      else if shape in [Str("L")] then
        Some(LShape(Dim(d, "height"), Dim(d, "width"), Dim(d, "thickness")))
      else None
  }

  /** Both sections have dimensions and every shared one is a number in each. */
  predicate Interpolable(bottom: Obj, top: Obj)
  {
    SectionDimensions(bottom) != map[] && SectionDimensions(top) != map[]
    && AllNumeric(SectionDimensions(bottom), SectionDimensions(top))
  }

  /**
   * `_interpolate_section_profiles`: `None` when either section has no
   * dimensions or a shared dimension is not a number; otherwise the bottom
   * family's profile with the interpolated dimensions.
   */
  function InterpolateSectionProfiles(bottom: Obj, top: Obj, ratio: real): (r: Option<Profile>)
    ensures r.Some? <==> Interpolable(bottom, top)
  {
    var bd := SectionDimensions(bottom);
    var td := SectionDimensions(top);
    if bd == map[] || td == map[] then None
    else
      match Interpolate(bd, td, ratio)
      case Err(_) => None
      case Ok(d) =>
        DimensionsPresent(bottom);
        InterpolatedProfile(bottom, d)
  }

  // ---------------------------------------------------------------------------
  // Solids
  // ---------------------------------------------------------------------------

  /** The solids a column shape is made of. */
  datatype Solid =
    | Extruded(profile: Profile, z: real, extent: real)
    | Sectioned(bottomProfile: Profile, topProfile: Profile, height: real)
    | Union(first: Solid, second: Solid)

  /** Number of segments of the tapered fallback. */
  const Segments: nat := 10

  /** The depth of one segment, `height / 10`. */
  function Depth(height: real): real
  {
    height / Segments as real
  }

  /** The interpolation ratio of segment i, `i / 10`. */
  function Ratio(i: nat): real
  {
    i as real / Segments as real
  }

  /** The height at which segment i starts, `i * segment_height`. */
  function Offset(i: nat, height: real): real
  {
    i as real * Depth(height)
  }

  /** Segment i ends where segment i + 1 starts. */
  lemma OffsetStep(i: nat, height: real)
    ensures Offset(i, height) + Depth(height) == Offset(i + 1, height)
  {
    assert (i + 1) as real * Depth(height) == i as real * Depth(height) + Depth(height);
  }

  /** Segment i of the fallback: the profile at ratio `i/10` extruded from `Offset(i)` by `Depth`, when the profile exists. */
  function SegmentAt(bottom: Obj, top: Obj, height: real, i: nat): (r: Option<Solid>)
    ensures r.Some? <==> Interpolable(bottom, top)
    ensures r.Some? ==> r.value == Extruded(InterpolateSectionProfiles(bottom, top, Ratio(i)).value, Offset(i, height), Depth(height))
  {
    match InterpolateSectionProfiles(bottom, top, Ratio(i))
    case Some(p) => Some(Extruded(p, Offset(i, height), Depth(height)))
    case None => None
  }

  /** The entries `f(0) .. f(n-1)` that are present, in order. */
  function Built<T>(f: nat -> Option<T>, n: nat): (r: seq<T>)
    ensures |r| <= n
  {
    if n == 0 then []
    else Built(f, n - 1) + (if f(n - 1).Some? then [f(n - 1).value] else [])
  }

  /**
   * When either every entry is present or none is, so is every built entry;
   * entry k of the list is `f(k)`.
   */
  lemma {:induction false} BuiltLayout<T>(f: nat -> Option<T>, n: nat, present: bool)
    requires forall i: nat :: f(i).Some? == present
    ensures !present ==> Built(f, n) == []
    ensures present ==> |Built(f, n)| == n
    ensures forall k :: 0 <= k < |Built(f, n)| ==> f(k) == Some(Built(f, n)[k])
  {
    if n > 0 {
      BuiltLayout(f, n - 1, present);
      var prev := Built(f, n - 1);
      var all := Built(f, n);
      forall k | 0 <= k < |all|
        ensures f(k) == Some(all[k])
      {
        if k < |prev| {
          assert all[k] == prev[k];
        }
      }
    }
  }

  /** The segments as a function of their index. */
  function SegmentFn(bottom: Obj, top: Obj, height: real): nat -> Option<Solid>
  {
    (k: nat) => SegmentAt(bottom, top, height, k)
  }

  /** The segments `0 .. n-1` of the fallback that have a profile, in order. */
  function SegmentsOf(bottom: Obj, top: Obj, height: real, n: nat): (r: seq<Solid>)
    ensures |r| <= n
  {
    Built(SegmentFn(bottom, top, height), n)
  }

  /**
   * Either every segment is built or none is; when they are, segment k is
   * the one `SegmentAt` gives, a tenth of the height deep.
   */
  lemma SegmentLayout(bottom: Obj, top: Obj, height: real, n: nat)
    ensures !Interpolable(bottom, top) ==> SegmentsOf(bottom, top, height, n) == []
    ensures Interpolable(bottom, top) ==> |SegmentsOf(bottom, top, height, n)| == n
    ensures forall k :: 0 <= k < |SegmentsOf(bottom, top, height, n)| ==>
      SegmentAt(bottom, top, height, k) == Some(SegmentsOf(bottom, top, height, n)[k])
    ensures forall k :: 0 <= k < |SegmentsOf(bottom, top, height, n)| ==>
      SegmentsOf(bottom, top, height, n)[k].Extruded? && SegmentsOf(bottom, top, height, n)[k].extent == Depth(height)
  {
    var f := SegmentFn(bottom, top, height);
    forall i: nat
      ensures f(i).Some? == Interpolable(bottom, top)
    {
    }
    BuiltLayout(f, n, Interpolable(bottom, top));
  }

  /** One more index appends segment i when its profile exists. */
  lemma SegmentsOfStep(bottom: Obj, top: Obj, height: real, i: nat)
    ensures SegmentsOf(bottom, top, height, i + 1) == SegmentsOf(bottom, top, height, i) +
      (match InterpolateSectionProfiles(bottom, top, Ratio(i))
       case Some(p) => [Extruded(p, Offset(i, height), Depth(height))]
       case None => [])
  {
    var f := SegmentFn(bottom, top, height);
    assert f(i) == SegmentAt(bottom, top, height, i);
  }

  /** Consecutive segments touch, the first starts at the bottom and the last of the ten ends at the top of the column. */
  lemma SegmentsStack(bottom: Obj, top: Obj, height: real)
    requires Interpolable(bottom, top)
    ensures |SegmentsOf(bottom, top, height, Segments)| == Segments
    ensures forall k :: 0 <= k < Segments ==> SegmentsOf(bottom, top, height, Segments)[k].Extruded?
    ensures SegmentsOf(bottom, top, height, Segments)[0].z == 0.0
    ensures forall k :: 0 <= k < Segments - 1 ==>
      SegmentsOf(bottom, top, height, Segments)[k].z + SegmentsOf(bottom, top, height, Segments)[k].extent
      == SegmentsOf(bottom, top, height, Segments)[k + 1].z
    ensures SegmentsOf(bottom, top, height, Segments)[Segments - 1].z + SegmentsOf(bottom, top, height, Segments)[Segments - 1].extent == height
  {
    var ss := SegmentsOf(bottom, top, height, Segments);
    SegmentLayout(bottom, top, height, Segments);
    forall k | 0 <= k < Segments - 1
      ensures ss[k].z + ss[k].extent == ss[k + 1].z
    {
      assert SegmentAt(bottom, top, height, k) == Some(ss[k]);
      assert SegmentAt(bottom, top, height, k + 1) == Some(ss[k + 1]);
      OffsetStep(k, height);
    }
    assert SegmentAt(bottom, top, height, 0) == Some(ss[0]);
    assert SegmentAt(bottom, top, height, Segments - 1) == Some(ss[Segments - 1]);
    OffsetStep(Segments - 1, height);
  }

  /** The left fold of `UNION` over a non-empty list of solids. */
  function UnionFold(solids: seq<Solid>): Solid
    requires solids != []
  {
    if |solids| == 1 then solids[0] else Union(UnionFold(solids[..|solids| - 1]), solids[|solids| - 1])
  }

  /** The operands of nested unions, left to right. */
  function Leaves(s: Solid): seq<Solid>
  {
    match s
    case Union(a, b) => Leaves(a) + Leaves(b)
    case _ => [s]
  }

  /** The union of the segments keeps every segment, in order. */
  lemma {:induction false} UnionKeepsSolids(solids: seq<Solid>)
    requires solids != []
    requires forall i :: 0 <= i < |solids| ==> !solids[i].Union?
    ensures Leaves(UnionFold(solids)) == solids
  {
    if |solids| > 1 {
      UnionKeepsSolids(solids[..|solids| - 1]);
      assert solids[..|solids| - 1] + [solids[|solids| - 1]] == solids;
    }
  }

  /** The fallback result: no segment gives `None`, one gives it alone, more give their union. */
  function Fallback(bottom: Obj, top: Obj, height: real): (r: Option<Solid>)
    ensures r.Some? <==> Interpolable(bottom, top)
  {
    SegmentLayout(bottom, top, height, Segments);
    var solids := SegmentsOf(bottom, top, height, Segments);
    if solids == [] then None else Some(UnionFold(solids))
  }

  /** Folding one more solid into the union. */
  lemma UnionFoldStep(solids: seq<Solid>, j: nat)
    requires 0 < j < |solids|
    ensures UnionFold(solids[..j + 1]) == Union(UnionFold(solids[..j]), solids[j])
  {
    assert solids[..j + 1][..j] == solids[..j];
  }

  /** The fallback of a list of ten segments: none, the one alone, or their union. */
  lemma FallbackOf(bottom: Obj, top: Obj, height: real, solids: seq<Solid>)
    requires solids == SegmentsOf(bottom, top, height, Segments)
    ensures Fallback(bottom, top, height) == if solids == [] then None else Some(UnionFold(solids))
  {
  }

  /** The ten-segment approximation of a tapered column, by the source's two loops. */
  method TaperedFallback(bottom: Obj, top: Obj, height: real) returns (r: Option<Solid>)
    ensures r == Fallback(bottom, top, height)
  {
    var solids := BuildSegments(bottom, top, height);
    FallbackOf(bottom, top, height, solids);
    r := UnionOfSegments(solids);
  }

  /** The first loop of the fallback: one extruded segment per interpolable tenth of the column. */
  method BuildSegments(bottom: Obj, top: Obj, height: real) returns (solids: seq<Solid>)
    ensures solids == SegmentsOf(bottom, top, height, Segments)
  {
    solids := [];
    for i := 0 to Segments
      invariant solids == SegmentsOf(bottom, top, height, i)
    {
      SegmentsOfStep(bottom, top, height, i);
      var profile := InterpolateSectionProfiles(bottom, top, Ratio(i));
      if profile.Some? {
        solids := solids + [Extruded(profile.value, Offset(i, height), Depth(height))];
      }
    }
  }

  /** The fallback's result from its segments: none, the single one, or their union. */
  method UnionOfSegments(solids: seq<Solid>) returns (r: Option<Solid>)
    ensures r == if solids == [] then None else Some(UnionFold(solids))
  {
    if |solids| > 1 {
      var result := UnionAll(solids);
      r := Some(result);
    } else if |solids| == 1 {
      r := Some(solids[0]);
    } else {
      r := None;
    }
  }

  /** The second loop of the fallback: `UNION` of each further segment with the result so far. */
  method UnionAll(solids: seq<Solid>) returns (result: Solid)
    requires |solids| > 1
    ensures result == UnionFold(solids)
  {
    result := solids[0];
    for j := 1 to |solids|
      invariant result == UnionFold(solids[..j])
    {
      UnionFoldStep(solids, j);
      result := Union(result, solids[j]);
    }
    assert solids[..|solids|] == solids;
  }

  // ---------------------------------------------------------------------------
  // Column geometry
  // ---------------------------------------------------------------------------

  /**
   * `_create_tapered_column_shape` with the IFC file of the project builder:
   * both section profiles must exist; the sectioned solid is used unless the
   * IFC schema refuses it, in which case the segment fallback is.
   */
  function TaperedShape(bottom: Obj, top: Obj, height: real, canProfile: Obj -> bool, sectionedFails: bool): (r: Option<Solid>)
    ensures !canProfile(bottom) || !canProfile(top) ==> r.None?
    ensures canProfile(bottom) && canProfile(top) && !sectionedFails ==> r == Some(Sectioned(SectionProfile(bottom), SectionProfile(top), height))
    ensures canProfile(bottom) && canProfile(top) && sectionedFails ==> r == Fallback(bottom, top, height)
  {
    if !canProfile(bottom) || !canProfile(top) then None
    else if !sectionedFails then Some(Sectioned(SectionProfile(bottom), SectionProfile(top), height))
    else Fallback(bottom, top, height)
  }

  /** The attributes a `ColumnCreator` object has: those its constructor and its bases' constructors set. */
  const CreatorAttributes: set<string> := {"project_builder", "logger", "_element_count", "element_type", "validator"}

  /**
   * `_create_tapered_column_shape` as written: after the two profiles it
   * reads `self.ifc`, an attribute no constructor sets; the AttributeError is
   * caught and the shape is `None`.
   */
  function TaperedShapeAsWritten(bottom: Obj, top: Obj, height: real, canProfile: Obj -> bool): (r: Option<Solid>)
    ensures !canProfile(bottom) || !canProfile(top) ==> r == None
    ensures r.Some? ==> r.value == Sectioned(SectionProfile(bottom), SectionProfile(top), height)
  {
    if !canProfile(bottom) || !canProfile(top) then None
    else if "ifc" in CreatorAttributes then Some(Sectioned(SectionProfile(bottom), SectionProfile(top), height))
    else None
  }

  /** As written, no tapered column ever gets a shape. */
  lemma TaperedShapeNeverBuilt(bottom: Obj, top: Obj, height: real, canProfile: Obj -> bool)
    ensures TaperedShapeAsWritten(bottom, top, height, canProfile) == None
  {
  }

  /**
   * `_create_column_geometry`: a height of 0 or less gives nothing; equal
   * sections are extruded as one profile, different ones are tapered; the
   * centre is the midpoint of the end points.
   */
  function ColumnGeometry(bottomPoint: Vec3, topPoint: Vec3, bottom: Obj, top: Obj, height: real,
                          hasFile: bool, canProfile: Obj -> bool, sectionedFails: bool): (r: Option<(Option<Solid>, Vec3)>)
    ensures r.None? <==> height <= 0.0
    ensures r.Some? ==> Sub(r.value.1, bottomPoint) == Sub(topPoint, r.value.1)
    ensures r.Some? && bottom == top ==>
      r.value.0 == (if hasFile && canProfile(bottom) then Some(Extruded(SectionProfile(bottom), 0.0, height)) else None)
    ensures r.Some? && bottom != top ==> r.value.0 == TaperedShape(bottom, top, height, canProfile, sectionedFails)
  {
    if height <= 0.0 then None
    else
      var shape :=
        if bottom == top then
          (if hasFile && canProfile(bottom) then Some(Extruded(SectionProfile(bottom), 0.0, height)) else None)
        else TaperedShape(bottom, top, height, canProfile, sectionedFails);
      var centre := Vec3((bottomPoint.x + topPoint.x) / 2.0, (bottomPoint.y + topPoint.y) / 2.0, (bottomPoint.z + topPoint.z) / 2.0);
      Some((shape, centre))
  }

  /** The column `create_column` builds: its shape and whether it is tapered. */
  datatype Column = Column(name: Value, tag: Value, shape: Solid, tapered: bool)

  /**
   * `create_column`: nothing without an IFC file or without a shape;
   * otherwise a column whose shape comes from the bottom section and the
   * effective top section.
   */
  function CreateColumn(bottomPoint: Vec3, topPoint: Vec3, secBottom: Obj, secTop: Obj, name: Value, tag: Value,
                        height: real, hasFile: bool, canProfile: Obj -> bool, sectionedFails: bool): (r: Option<Column>)
    ensures r.Some? ==> hasFile && height > 0.0
    ensures r.Some? ==> (r.value.tapered <==> ObjTruthy(secTop) && secTop != secBottom)
    ensures r.Some? && !r.value.tapered ==> r.value.shape == Extruded(SectionProfile(secBottom), 0.0, height)
  {
    if !hasFile then None
    else
      var top := EffectiveTop(secBottom, secTop);
      match ColumnGeometry(bottomPoint, topPoint, secBottom, top, height, hasFile, canProfile, sectionedFails)
      case None => None
      case Some((shape, _)) =>
        if shape.None? then None
        else Some(Column(name, tag, shape.value, IsTapered(secBottom, secTop)))
  }

  /** With the shape as written, a column is created only when it is not tapered. */
  function CreateColumnAsWritten(bottomPoint: Vec3, topPoint: Vec3, secBottom: Obj, secTop: Obj, name: Value, tag: Value,
                                 height: real, hasFile: bool, canProfile: Obj -> bool): (r: Option<Column>)
    ensures r.Some? ==> hasFile && height > 0.0
    ensures r.Some? ==> !r.value.tapered && r.value.shape == Extruded(SectionProfile(secBottom), 0.0, height)
  {
    if !hasFile || height <= 0.0 then None
    else
      var top := EffectiveTop(secBottom, secTop);
      var shape :=
        if secBottom == top then (if canProfile(secBottom) then Some(Extruded(SectionProfile(secBottom), 0.0, height)) else None)
        else TaperedShapeAsWritten(secBottom, top, height, canProfile);
      if shape.None? then None else Some(Column(name, tag, shape.value, IsTapered(secBottom, secTop)))
  }

  /** As written, a tapered column is never created. */
  lemma TaperedColumnNeverCreated(bottomPoint: Vec3, topPoint: Vec3, secBottom: Obj, secTop: Obj, name: Value, tag: Value,
                                  height: real, hasFile: bool, canProfile: Obj -> bool)
    requires IsTapered(secBottom, secTop)
    ensures CreateColumnAsWritten(bottomPoint, topPoint, secBottom, secTop, name, tag, height, hasFile, canProfile).None?
  {
  }

  /** The correction changes only tapered columns: a column with one section is created alike either way. */
  lemma AsWrittenAgreesUntapered(bottomPoint: Vec3, topPoint: Vec3, secBottom: Obj, secTop: Obj, name: Value, tag: Value,
                                 height: real, hasFile: bool, canProfile: Obj -> bool, sectionedFails: bool)
    requires !IsTapered(secBottom, secTop)
    ensures CreateColumnAsWritten(bottomPoint, topPoint, secBottom, secTop, name, tag, height, hasFile, canProfile)
      == CreateColumn(bottomPoint, topPoint, secBottom, secTop, name, tag, height, hasFile, canProfile, sectionedFails)
  {
  }

  /** Corrected, a tapered column with both profiles and a positive height is created, tapered. */
  lemma TaperedColumnCreatedFixed(bottomPoint: Vec3, topPoint: Vec3, secBottom: Obj, secTop: Obj, name: Value, tag: Value,
                                  height: real, canProfile: Obj -> bool)
    requires IsTapered(secBottom, secTop) && height > 0.0
    requires canProfile(secBottom) && canProfile(secTop)
    ensures CreateColumn(bottomPoint, topPoint, secBottom, secTop, name, tag, height, true, canProfile, false).Some?
    ensures CreateColumn(bottomPoint, topPoint, secBottom, secTop, name, tag, height, true, canProfile, false).value.tapered
  {
  }
}
