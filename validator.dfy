/**
 * The definition checks the creators run before building an IFC element
 * (ifcCreator/utils/validator.py). Each check either passes (`Ok(true)`) or
 * raises ValueError; the model returns the error as `Err`.
 *
 * Definitions hold plain values, `Point3D`s and section objects (`Obj`);
 * a raw extractor dictionary is lifted with `Lift`.
 */
module Validator {
  import opened Wrappers
  import opened Values
  import opened StructuralSection
  import opened DefinitionProcessor

  type Def = map<string, Obj>

  /** A raw definition dictionary as the checks see it. */
  function Lift(d: Dict): (r: Def)
    ensures r.Keys == d.Keys
    ensures forall k :: k in d ==> r[k] == Plain(d[k])
  {
    map k | k in d :: Plain(d[k])
  }

  /** `d.get(k)` on a definition. */
  function GetObj(d: Def, k: string): (o: Obj)
    ensures k !in d ==> o == Plain(Null)
  {
    if k in d then d[k] else Plain(Null)
  }

  /** The per-axis tolerance of `_points_are_identical`. */
  const Tolerance: real := 0.000001

  function Fail(msg: string): Result<bool> { Err(ValueError(msg)) }

  /** `isinstance(v, (int, float))`; a Python bool is an int. */
  predicate Numeric(v: Value) { v.Num? || v.Bool? }

  function NumValue(v: Value): real
  {
    match v
    case Num(r) => r
    case Bool(b) => if b then 1.0 else 0.0
    case _ => 0.0
  }

  predicate IsDict(o: Obj) { o.Plain? && o.v.Dict? }

  /** `_validate_point`: a `Point3D` with numeric coordinates, or a dict with numeric x, y and z. */
  predicate PointValid(o: Obj)
  {
    match o
    case Point3(x, y, z) => Numeric(x) && Numeric(y) && Numeric(z)
    case Plain(v) => v.Dict? && "x" in v.m && "y" in v.m && "z" in v.m && Numeric(v.m["x"]) && Numeric(v.m["y"]) && Numeric(v.m["z"])
    case Section(_) => false
  }

  /** The coordinates `_points_are_identical` reads from a checked point. */
  function Coords(o: Obj): (real, real, real)
    requires PointValid(o)
  {
    match o
    case Point3(x, y, z) => (NumValue(x), NumValue(y), NumValue(z))
    case Plain(v) => (NumValue(v.m["x"]), NumValue(v.m["y"]), NumValue(v.m["z"]))
  }

  function Abs(x: real): real { if x < 0.0 then -x else x }

  /** `_points_are_identical`: every coordinate within the tolerance. */
  predicate Identical(p: Obj, q: Obj)
    requires PointValid(p) && PointValid(q)
  {
    var (x1, y1, z1) := Coords(p);
    var (x2, y2, z2) := Coords(q);
    Abs(x1 - x2) <= Tolerance && Abs(y1 - y2) <= Tolerance && Abs(z1 - z2) <= Tolerance
  }

  /** A required field is absent or None. */
  predicate Missing(d: Def, k: string) { k !in d || d[k] == Plain(Null) }

  /** A section dict that names its type. */
  predicate TypedDict(o: Obj) { IsDict(o) && "section_type" in o.v.m }

  // ---------------------------------------------------------------- beam

  /**
   * The section part of `validate_beam_definition`: a truthy `section`
   * must be a dict with section_type; otherwise both tapered sections must
   * be truthy dicts with section_type.
   */
  predicate BeamSectionOk(d: Def)
  {
    if ObjTruthy(GetObj(d, "section")) then TypedDict(GetObj(d, "section"))
    else (ObjTruthy(GetObj(d, "section_start")) && ObjTruthy(GetObj(d, "section_end"))
      && TypedDict(GetObj(d, "section_start")) && TypedDict(GetObj(d, "section_end")))
  }

  /** `validate_beam_definition`. */
  function ValidateBeam(d: Def): (r: Result<bool>)
    ensures r.Ok? ==> r.value
    ensures r.Ok? <==> (!Missing(d, "start_point") && !Missing(d, "end_point") && BeamSectionOk(d)
      && PointValid(d["start_point"]) && PointValid(d["end_point"]) && !Identical(d["start_point"], d["end_point"]))
  {
    if Missing(d, "start_point") || Missing(d, "end_point") then Fail("beam definition lacks start_point or end_point")
    else if !BeamSectionOk(d) then Fail("beam definition lacks a typed section")
    else if !PointValid(d["start_point"]) || !PointValid(d["end_point"]) then Fail("beam end point is not a point")
    else if Identical(d["start_point"], d["end_point"]) then Fail("beam start and end points coincide")
    else Ok(true)
  }

  /** End points within 1e-6 on every axis are rejected. */
  lemma BeamZeroLengthRejected(d: Def)
    requires !Missing(d, "start_point") && !Missing(d, "end_point")
    requires PointValid(d["start_point"]) && PointValid(d["end_point"])
    requires Coords(d["start_point"]) == Coords(d["end_point"])
    ensures ValidateBeam(d).Err?
  {
  }

  // -------------------------------------------------------------- column

  /** A section value the column check admits: a dict or an object with `section_type`. */
  predicate SectionLike(o: Obj) { IsDict(o) || o.Section? }

  /** The first section part of `validate_column_definition`. */
  predicate ColumnSectionsOk(d: Def)
  {
    if ObjTruthy(GetObj(d, "section")) then SectionLike(GetObj(d, "section"))
    else (ObjTruthy(GetObj(d, "sec_bottom")) && SectionLike(GetObj(d, "sec_bottom"))
      && (ObjTruthy(GetObj(d, "sec_top")) ==> SectionLike(GetObj(d, "sec_top"))))
  }

  /** The check on `definition['section']` itself, which must be present. */
  predicate SectionTyped(o: Obj)
  {
    match o
    case Section(s) => Truthy(s.sectionType)
    case Plain(v) => v.Dict? && "section_type" in v.m
    case Point3(_, _, _) => false
  }

  /** The z a column check reads: a `Point3D`'s z or a dict's z (default 0). */
  function ZOf(o: Obj): real
    requires PointValid(o)
  {
    Coords(o).2
  }

  /** `validate_column_definition` as written: `definition['section']` is checked even when it is None. */
  function ValidateColumn(d: Def): (r: Result<bool>)
    ensures r.Ok? ==> r.value
    ensures r.Ok? ==> "section" in d && SectionTyped(d["section"])
    ensures r.Ok? <==> (!Missing(d, "bottom_point") && !Missing(d, "top_point") && ColumnSectionsOk(d)
      && PointValid(d["bottom_point"]) && PointValid(d["top_point"]) && "section" in d && SectionTyped(d["section"])
      && !Identical(d["bottom_point"], d["top_point"]) && ZOf(d["top_point"]) > ZOf(d["bottom_point"]))
  {
    if Missing(d, "bottom_point") || Missing(d, "top_point") then Fail("column definition lacks bottom_point or top_point")
    else if !ColumnSectionsOk(d) then Fail("column definition lacks section, sec_bottom or sec_top")
    else if !PointValid(d["bottom_point"]) || !PointValid(d["top_point"]) then Fail("column end point is not a point")
    else if "section" !in d then Err(KeyError("section"))
    else if !SectionTyped(d["section"]) then Fail("column section must be a dict or section object with section_type")
    else if Identical(d["bottom_point"], d["top_point"]) then Fail("column bottom and top points coincide")
    else if ZOf(d["top_point"]) <= ZOf(d["bottom_point"]) then Fail("column top is not above its bottom")
    else Ok(true)
  }

  /** A column whose top is not above its bottom is rejected. */
  lemma ColumnTopMustBeAbove(d: Def)
    requires !Missing(d, "bottom_point") && !Missing(d, "top_point")
    requires PointValid(d["bottom_point"]) && PointValid(d["top_point"])
    requires ZOf(d["top_point"]) <= ZOf(d["bottom_point"])
    ensures ValidateColumn(d).Err?
  {
  }

  /** As written, a definition whose `section` is None (a tapered column) never passes. */
  lemma TaperedColumnRejected(d: Def)
    requires "section" in d && d["section"] == Plain(Null)
    ensures ValidateColumn(d).Err?
  {
  }

  /**
   * So every tapered column that the definition processor accepts is then
   * rejected: `section` is None whenever bottom and top sections are given.
   */
  lemma ProcessedTaperedColumnRejected(raw: Dict, index: nat)
    requires PointDict(Lookup(raw, "bottom_point")) && PointDict(Lookup(raw, "top_point"))
    requires Truthy(Lookup(raw, "section_bottom")) && SectionDict(Lookup(raw, "section_bottom"))
    requires Truthy(Lookup(raw, "section_top")) && SectionDict(Lookup(raw, "section_top"))
    ensures ProcessVertical(raw, index, "column", DefaultVerticalKeys).Ok?
    ensures ValidateColumn(ProcessVertical(raw, index, "column", DefaultVerticalKeys).value).Err?
  {
    VerticalTaperedSections(raw, index, "column");
  }

  /** The evidently intended check: `definition['section']` is examined only when it is the section in use. */
  function ValidateColumnFixed(d: Def): (r: Result<bool>)
    ensures r.Ok? ==> r.value
    ensures r.Ok? <==> (!Missing(d, "bottom_point") && !Missing(d, "top_point") && ColumnSectionsOk(d)
      && PointValid(d["bottom_point"]) && PointValid(d["top_point"])
      && (ObjTruthy(GetObj(d, "section")) ==> SectionTyped(d["section"]))
      && !Identical(d["bottom_point"], d["top_point"]) && ZOf(d["top_point"]) > ZOf(d["bottom_point"]))
  {
    if Missing(d, "bottom_point") || Missing(d, "top_point") then Fail("column definition lacks bottom_point or top_point")
    else if !ColumnSectionsOk(d) then Fail("column definition lacks section, sec_bottom or sec_top")
    else if !PointValid(d["bottom_point"]) || !PointValid(d["top_point"]) then Fail("column end point is not a point")
    else if ObjTruthy(GetObj(d, "section")) && !SectionTyped(d["section"]) then Fail("column section must be a dict or section object with section_type")
    else if Identical(d["bottom_point"], d["top_point"]) then Fail("column bottom and top points coincide")
    else if ZOf(d["top_point"]) <= ZOf(d["bottom_point"]) then Fail("column top is not above its bottom")
    else Ok(true)
  }

  /** With the fix, a tapered column (no `section`, both end sections) with its top above its bottom passes. */
  lemma TaperedColumnAcceptedFixed(d: Def, bottom: SectionData, top: SectionData)
    requires "section" in d && d["section"] == Plain(Null)
    requires "sec_bottom" in d && d["sec_bottom"] == Section(bottom) && "sec_top" in d && d["sec_top"] == Section(top)
    requires "bottom_point" in d && d["bottom_point"].Point3? && PointValid(d["bottom_point"])
    requires "top_point" in d && d["top_point"].Point3? && PointValid(d["top_point"])
    requires ZOf(d["top_point"]) - ZOf(d["bottom_point"]) > Tolerance
    ensures ValidateColumnFixed(d) == Ok(true)
    ensures ValidateColumn(d).Err?
  {
  }

  // ----------------------------------------------------------- slab, wall

  /** `validate_slab_definition` (at least 3 corners) and `validate_wall_definition` (at least 2). */
  function ValidateSurface(d: Def, minCorners: nat): (r: Result<bool>)
    ensures r.Ok? ==> r.value
    ensures r.Ok? <==> (!Missing(d, "corner_nodes") && !Missing(d, "section")
      && IsDict(d["section"]) && "section_type" in d["section"].v.m
      && d["corner_nodes"].Plain? && d["corner_nodes"].v.List? && |d["corner_nodes"].v.items| >= minCorners
      && (forall i :: 0 <= i < |d["corner_nodes"].v.items| ==> PointValid(Plain(d["corner_nodes"].v.items[i]))))
  {
    if Missing(d, "corner_nodes") || Missing(d, "section") then Fail("definition lacks corner_nodes or section")
    else
      var c := d["corner_nodes"];
      if !(c.Plain? && c.v.List? && |c.v.items| >= minCorners) then Fail("too few corner nodes")
      else if !(forall i :: 0 <= i < |c.v.items| ==> PointValid(Plain(c.v.items[i]))) then Fail("corner node is not a point")
      else if !IsDict(d["section"]) then Fail("section must be a dict")
      else if "section_type" !in d["section"].v.m then Fail("section lacks section_type")
      else Ok(true)
  }

  function ValidateSlab(d: Def): Result<bool> { ValidateSurface(d, 3) }

  function ValidateWall(d: Def): Result<bool> { ValidateSurface(d, 2) }

  /** A slab needs three corner nodes where a wall needs two. */
  lemma TwoCornersWallNotSlab(d: Def)
    requires !Missing(d, "corner_nodes") && !Missing(d, "section") && IsDict(d["section"]) && "section_type" in d["section"].v.m
    requires d["corner_nodes"].Plain? && d["corner_nodes"].v.List? && |d["corner_nodes"].v.items| == 2
    requires forall i :: 0 <= i < 2 ==> PointValid(Plain(d["corner_nodes"].v.items[i]))
    ensures ValidateWall(d) == Ok(true) && ValidateSlab(d).Err?
  {
  }

  // --------------------------------------------------------------- taper

  /** The section type pairs a tapered beam may join. */
  predicate CompatiblePair(a: Value, b: Value)
  {
    (a, b) in {(Str("H"), Str("H")), (Str("RECT"), Str("RECT")), (Str("BOX"), Str("BOX")), (Str("PIPE"), Str("PIPE"))}
  }

  /**
   * `validate_tapered_beam`: both sections must exist; when both carry a
   * section type the pair must be one of the four same-type pairs.
   */
  function ValidateTaperedBeam(start: Option<Obj>, end: Option<Obj>): (r: Result<bool>)
    ensures r.Ok? ==> r.value
    ensures r.Ok? <==> (start.Some? && end.Some?
      && (start.value.Section? && end.value.Section? ==> CompatiblePair(start.value.s.sectionType, end.value.s.sectionType)))
  {
    if start.None? || end.None? then Fail("a tapered beam needs start and end sections")
    else if start.value.Section? && end.value.Section? && !CompatiblePair(start.value.s.sectionType, end.value.s.sectionType) then
      Fail("incompatible section types")
    else Ok(true)
  }

  /** Only H, RECT, BOX and PIPE pairs of the same type pass. */
  lemma TaperPairs(a: SectionData, b: SectionData)
    ensures ValidateTaperedBeam(Some(Section(a)), Some(Section(b))).Ok? <==>
      (a.sectionType == b.sectionType && a.sectionType in {Str("H"), Str("RECT"), Str("BOX"), Str("PIPE")})
  {
  }
}
