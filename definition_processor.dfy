/**
 * The definition processor shared by the creators
 * (common/definition_processor.py): it turns the point dictionaries of an
 * element definition into `Point3D` objects and its section dictionaries
 * into section objects, chooses the start/end or bottom/top sections, and
 * raises ValueError naming every missing parameter.
 */
module DefinitionProcessor {
  import opened Wrappers
  import opened Values
  import Strs
  import opened StructuralSection

  /** `_convert_point_dict`: a non-empty dict becomes a `Point3D` (its x, y, z must exist); anything else is kept. */
  function ConvertPoint(v: Value): (r: Result<Obj>)
    ensures !(Truthy(v) && v.Dict?) ==> r == Ok(Plain(v))
    ensures Truthy(v) && v.Dict? ==> (r.Ok? <==> "x" in v.m && "y" in v.m && "z" in v.m)
    ensures r.Ok? ==> (ObjTruthy(r.value) <==> Truthy(v))
  {
    if Truthy(v) && v.Dict? then
      if "x" in v.m && "y" in v.m && "z" in v.m then Ok(Point3(v.m["x"], v.m["y"], v.m["z"]))
      else Err(KeyError(if "x" !in v.m then "x" else if "y" !in v.m then "y" else "z"))
    else Ok(Plain(v))
  }

  /** `_convert_section_dict`: a dict becomes a section object through `from_dict`; anything else is kept. */
  function ConvertSection(v: Value): (r: Result<Obj>)
    ensures !v.Dict? ==> r == Ok(Plain(v))
    ensures v.Dict? ==> (r.Ok? <==> FromDict(v.m).Ok?)
    ensures v.Dict? && r.Ok? ==> r.value == Section(FromDict(v.m).value)
  {
    if v.Dict? then
      match FromDict(v.m)
      case Ok(s) => Ok(Section(s))
      case Err(err) => Err(err)
    else Ok(Plain(v))
  }

  /** Python's `a or b`. */
  function Or(a: Value, b: Value): (r: Value)
    ensures Truthy(a) ==> r == a
    ensures !Truthy(a) ==> r == b
  {
    if Truthy(a) then a else b
  }

  /** The message of the ValueError: element name, 1-based index and the missing keys. */
  function MissingMessage(elementName: string, index: nat, missing: seq<string>): string
  {
    elementName + Strs.NatToString(index + 1) + ": missing parameters: " + Strs.Join(missing, ", ")
  }

  /** The key names the linear variant reads. */
  datatype LinearKeys = LinearKeys(startPoint: string, endPoint: string, startSection: string, endSection: string, section: string)

  const DefaultLinearKeys := LinearKeys("start_point", "end_point", "section_start", "section_end", "section")

  /** The missing parameters of a linear definition, in the order they are reported. */
  function LinearMissing(k: LinearKeys, sp: Obj, ep: Obj, ss: Obj, se: Obj): (m: seq<string>)
    ensures m == [] <==> ObjTruthy(sp) && ObjTruthy(ep) && ObjTruthy(ss) && ObjTruthy(se)
    ensures !ObjTruthy(sp) ==> k.startPoint in m
    ensures !ObjTruthy(ep) ==> k.endPoint in m
    ensures !ObjTruthy(ss) ==> "sec_start" in m
    ensures !ObjTruthy(se) ==> "sec_end" in m
  {
    (if !ObjTruthy(sp) then [k.startPoint] else []) + (if !ObjTruthy(ep) then [k.endPoint] else [])
      + (if !ObjTruthy(ss) then ["sec_start"] else []) + (if !ObjTruthy(se) then ["sec_end"] else [])
  }

  /** The processed linear definition. */
  function LinearResult(d: Dict, k: LinearKeys, sp: Obj, ep: Obj, ss: Obj, se: Obj): (p: map<string, Obj>)
    ensures "sec_start" in p && "sec_end" in p
  {
    map[k.startPoint := sp, k.endPoint := ep, "name" := Plain(Lookup(d, "name")), "tag" := Plain(Lookup(d, "tag")),
        "stb_guid" := Plain(Lookup(d, "stb_guid"))]
    + map["sec_start" := ss, "sec_end" := se]
  }

  /**
   * `process_linear_element_definition`: the start section is
   * `section_start or section`, the end section `section_end or section`;
   * a missing point or section raises ValueError naming what is missing.
   */
  function ProcessLinear(d: Dict, index: nat, elementName: string, k: LinearKeys): (r: Result<map<string, Obj>>)
  {
    match (ConvertPoint(Lookup(d, k.startPoint)), ConvertPoint(Lookup(d, k.endPoint)))
    case (Err(err), _) => Err(err)
    case (_, Err(err)) => Err(err)
    case (Ok(sp), Ok(ep)) =>
      match (ConvertSection(Or(Lookup(d, k.startSection), Lookup(d, k.section))),
             ConvertSection(Or(Lookup(d, k.endSection), Lookup(d, k.section))))
      case (Err(err), _) => Err(err)
      case (_, Err(err)) => Err(err)
      case (Ok(ss), Ok(se)) =>
        var missing := LinearMissing(k, sp, ep, ss, se);
        if missing != [] then Err(ValueError(MissingMessage(elementName, index, missing)))
        else Ok(LinearResult(d, k, sp, ep, ss, se))
  }

  /** A point that converts: a truthy dict with x, y and z. */
  predicate PointDict(v: Value)
  {
    v.Dict? && v.m != map[] && "x" in v.m && "y" in v.m && "z" in v.m
  }

  /** A section dict `from_dict` accepts. */
  predicate SectionDict(v: Value)
  {
    v.Dict? && FromDict(v.m).Ok?
  }

  /**
   * A definition with both points and only a plain `section` gives that
   * section at both ends, and the points become `Point3D`s.
   */
  lemma LinearSharedSection(d: Dict, index: nat, elementName: string)
    requires PointDict(Lookup(d, "start_point")) && PointDict(Lookup(d, "end_point"))
    requires !Truthy(Lookup(d, "section_start")) && !Truthy(Lookup(d, "section_end"))
    requires SectionDict(Lookup(d, "section")) && Truthy(Lookup(d, "section"))
    ensures var r := ProcessLinear(d, index, elementName, DefaultLinearKeys);
      r.Ok? && r.value["sec_start"] == Section(FromDict(d["section"].m).value)
      && r.value["sec_end"] == r.value["sec_start"]
      && "start_point" in r.value && r.value["start_point"].Point3?
  {
    var k := DefaultLinearKeys;
    var sp := ConvertPoint(Lookup(d, k.startPoint)).value;
    var ep := ConvertPoint(Lookup(d, k.endPoint)).value;
    var sec := ConvertSection(Lookup(d, k.section)).value;
    assert LinearMissing(k, sp, ep, sec, sec) == [];
    var p := LinearResult(d, k, sp, ep, sec, sec);
    assert p[k.startPoint] == sp;
  }

  /** Start and end sections of their own take precedence over `section`. */
  lemma LinearOwnSectionsWin(d: Dict, index: nat, elementName: string)
    requires PointDict(Lookup(d, "start_point")) && PointDict(Lookup(d, "end_point"))
    requires SectionDict(Lookup(d, "section_start")) && Truthy(Lookup(d, "section_start"))
    requires SectionDict(Lookup(d, "section_end")) && Truthy(Lookup(d, "section_end"))
    ensures var r := ProcessLinear(d, index, elementName, DefaultLinearKeys);
      r.Ok? && r.value["sec_start"] == Section(FromDict(d["section_start"].m).value)
      && r.value["sec_end"] == Section(FromDict(d["section_end"].m).value)
  {
    var k := DefaultLinearKeys;
    var sp := ConvertPoint(Lookup(d, k.startPoint)).value;
    var ep := ConvertPoint(Lookup(d, k.endPoint)).value;
    var ss := ConvertSection(Lookup(d, k.startSection)).value;
    var se := ConvertSection(Lookup(d, k.endSection)).value;
    assert LinearMissing(k, sp, ep, ss, se) == [];
  }

  /** A missing start point raises ValueError, and the message names it. */
  lemma LinearMissingStartRaises(d: Dict, index: nat, elementName: string)
    requires "start_point" !in d
    requires ConvertPoint(Lookup(d, "end_point")).Ok?
    requires ConvertSection(Or(Lookup(d, "section_start"), Lookup(d, "section"))).Ok?
    requires ConvertSection(Or(Lookup(d, "section_end"), Lookup(d, "section"))).Ok?
    ensures var r := ProcessLinear(d, index, elementName, DefaultLinearKeys);
      r.Err? && r.error.ValueError?
      && exists missing :: "start_point" in missing && r.error == ValueError(MissingMessage(elementName, index, missing))
  {
    var k := DefaultLinearKeys;
    var ep := ConvertPoint(Lookup(d, k.endPoint)).value;
    var ss := ConvertSection(Or(Lookup(d, k.startSection), Lookup(d, k.section))).value;
    var se := ConvertSection(Or(Lookup(d, k.endSection), Lookup(d, k.section))).value;
    var missing := LinearMissing(k, Plain(Null), ep, ss, se);
    assert "start_point" in missing;
  }

  /** A successful linear result always holds truthy points and sections. */
  lemma LinearOkIsComplete(d: Dict, index: nat, elementName: string, k: LinearKeys)
    requires ProcessLinear(d, index, elementName, k).Ok?
    ensures var p := ProcessLinear(d, index, elementName, k).value;
      ObjTruthy(p["sec_start"]) && ObjTruthy(p["sec_end"])
  {
  }

  // ------------------------------------------------------------ vertical

  /** The key names the vertical variant reads. */
  datatype VerticalKeys = VerticalKeys(bottomPoint: string, topPoint: string, bottomSection: string, topSection: string, section: string)

  const DefaultVerticalKeys := VerticalKeys("bottom_point", "top_point", "section_bottom", "section_top", "section")

  /** The three section objects chosen: (section, sec_bottom, sec_top). */
  datatype Sections = Sections(section: Obj, bottom: Obj, top: Obj)

  /**
   * A lone truthy `section` (no bottom or top) becomes the section at both
   * ends; otherwise `section` is None and bottom and top are converted when
   * truthy, None otherwise.
   */
  function ChooseSections(rawSection: Value, rawBottom: Value, rawTop: Value): (r: Result<Sections>)
    ensures Truthy(rawSection) && !Truthy(rawBottom) && !Truthy(rawTop) ==>
      (r.Ok? <==> ConvertSection(rawSection).Ok?)
      && (r.Ok? ==> r.value.section == r.value.bottom == r.value.top == ConvertSection(rawSection).value)
    ensures !(Truthy(rawSection) && !Truthy(rawBottom) && !Truthy(rawTop)) && r.Ok? ==>
      r.value.section == Plain(Null)
      && (Truthy(rawBottom) ==> ConvertSection(rawBottom) == Ok(r.value.bottom))
      && (!Truthy(rawBottom) ==> r.value.bottom == Plain(Null))
      && (Truthy(rawTop) ==> ConvertSection(rawTop) == Ok(r.value.top))
      && (!Truthy(rawTop) ==> r.value.top == Plain(Null))
  {
    if Truthy(rawSection) && !Truthy(rawBottom) && !Truthy(rawTop) then
      match ConvertSection(rawSection)
      case Err(err) => Err(err)
      case Ok(s) => Ok(Sections(s, s, s))
    else
      var b := if Truthy(rawBottom) then ConvertSection(rawBottom) else Ok(Plain(Null));
      var t := if Truthy(rawTop) then ConvertSection(rawTop) else Ok(Plain(Null));
      match (b, t)
      case (Err(err), _) => Err(err)
      case (_, Err(err)) => Err(err)
      case (Ok(bo), Ok(to)) => Ok(Sections(Plain(Null), bo, to))
  }

  /** The missing parameters of a vertical definition, in the order they are reported. */
  function VerticalMissing(k: VerticalKeys, bp: Obj, tp: Obj, s: Sections): (m: seq<string>)
    ensures m == [] <==> ObjTruthy(bp) && ObjTruthy(tp) && (ObjTruthy(s.section) || (ObjTruthy(s.bottom) && ObjTruthy(s.top)))
    ensures !ObjTruthy(bp) ==> k.bottomPoint in m
    ensures !ObjTruthy(tp) ==> k.topPoint in m
  {
    (if !ObjTruthy(bp) then [k.bottomPoint] else []) + (if !ObjTruthy(tp) then [k.topPoint] else [])
      + (if !(ObjTruthy(s.section) || (ObjTruthy(s.bottom) && ObjTruthy(s.top))) then
           (if !ObjTruthy(s.section) then [k.section] else []) + (if !ObjTruthy(s.bottom) then ["sec_bottom"] else [])
             + (if !ObjTruthy(s.top) then ["sec_top"] else [])
         else [])
  }

  /** The points, names and orientation of the processed vertical definition. */
  function VerticalHead(d: Dict, k: VerticalKeys, bp: Obj, tp: Obj): (p: map<string, Obj>)
  {
    map[k.bottomPoint := bp, k.topPoint := tp, "name" := Plain(Lookup(d, "name")), "tag" := Plain(Lookup(d, "tag")),
        "stb_guid" := Plain(Lookup(d, "stb_guid"))]
  }

  /** The section and orientation keys, which win over the head. */
  function VerticalTail(d: Dict, s: Sections): (p: map<string, Obj>)
    ensures p.Keys == {"sec_bottom", "sec_top", "section", "rotation_radians", "is_reference_direction"}
    ensures p["sec_bottom"] == s.bottom && p["sec_top"] == s.top && p["section"] == s.section
    ensures p["rotation_radians"] == Plain(LookupOr(d, "rotate_radians", Num(0.0)))
    ensures p["is_reference_direction"] == Plain(LookupOr(d, "is_reference_direction", Bool(false)))
  {
    map["sec_bottom" := s.bottom, "sec_top" := s.top, "section" := s.section,
        "rotation_radians" := Plain(LookupOr(d, "rotate_radians", Num(0.0))),
        "is_reference_direction" := Plain(LookupOr(d, "is_reference_direction", Bool(false)))]
  }

  /**
   * `process_vertical_element_definition`: points first, then sections;
   * missing points, or neither `section` nor both bottom and top, raise
   * ValueError naming what is missing.
   */
  function ProcessVertical(d: Dict, index: nat, elementName: string, k: VerticalKeys): (r: Result<map<string, Obj>>)
    ensures r.Ok? ==> var p := r.value;
      "section" in p && "sec_bottom" in p && "sec_top" in p && "rotation_radians" in p && "is_reference_direction" in p
      && (ObjTruthy(p["section"]) || (ObjTruthy(p["sec_bottom"]) && ObjTruthy(p["sec_top"])))
      && p["rotation_radians"] == Plain(LookupOr(d, "rotate_radians", Num(0.0)))
      && p["is_reference_direction"] == Plain(LookupOr(d, "is_reference_direction", Bool(false)))
  {
    match (ConvertPoint(Lookup(d, k.bottomPoint)), ConvertPoint(Lookup(d, k.topPoint)))
    case (Err(err), _) => Err(err)
    case (_, Err(err)) => Err(err)
    case (Ok(bp), Ok(tp)) =>
      match ChooseSections(Lookup(d, k.section), Lookup(d, k.bottomSection), Lookup(d, k.topSection))
      case Err(err) => Err(err)
      case Ok(s) =>
        var missing := VerticalMissing(k, bp, tp, s);
        if missing != [] then Err(ValueError(MissingMessage(elementName, index, missing)))
        else Ok(VerticalHead(d, k, bp, tp) + VerticalTail(d, s))
  }

  /** A plain column: `section` alone gives the same section object at bottom and top. */
  lemma VerticalSharedSection(d: Dict, index: nat, elementName: string)
    requires PointDict(Lookup(d, "bottom_point")) && PointDict(Lookup(d, "top_point"))
    requires Truthy(Lookup(d, "section")) && SectionDict(Lookup(d, "section"))
    requires !Truthy(Lookup(d, "section_bottom")) && !Truthy(Lookup(d, "section_top"))
    ensures var r := ProcessVertical(d, index, elementName, DefaultVerticalKeys);
      r.Ok? && r.value["section"] == Section(FromDict(d["section"].m).value)
      && r.value["sec_bottom"] == r.value["section"] && r.value["sec_top"] == r.value["section"]
  {
    var s := ChooseSections(Lookup(d, "section"), Lookup(d, "section_bottom"), Lookup(d, "section_top"));
    assert s.Ok?;
  }

  /** A tapered column: bottom and top sections given, `section` is None. */
  lemma VerticalTaperedSections(d: Dict, index: nat, elementName: string)
    requires PointDict(Lookup(d, "bottom_point")) && PointDict(Lookup(d, "top_point"))
    requires Truthy(Lookup(d, "section_bottom")) && SectionDict(Lookup(d, "section_bottom"))
    requires Truthy(Lookup(d, "section_top")) && SectionDict(Lookup(d, "section_top"))
    ensures var r := ProcessVertical(d, index, elementName, DefaultVerticalKeys);
      r.Ok? && r.value["section"] == Plain(Null)
      && r.value["sec_bottom"] == Section(FromDict(d["section_bottom"].m).value)
      && r.value["sec_top"] == Section(FromDict(d["section_top"].m).value)
  {
    var s := ChooseSections(Lookup(d, "section"), Lookup(d, "section_bottom"), Lookup(d, "section_top"));
    assert s.Ok?;
  }

  /** A bottom section without a top section (and no `section`) is rejected. */
  lemma VerticalNeedsBothEnds(d: Dict, index: nat, elementName: string)
    requires PointDict(Lookup(d, "bottom_point")) && PointDict(Lookup(d, "top_point"))
    requires Truthy(Lookup(d, "section_bottom")) && SectionDict(Lookup(d, "section_bottom"))
    requires !Truthy(Lookup(d, "section_top"))
    ensures ProcessVertical(d, index, elementName, DefaultVerticalKeys).Err?
  {
    var s := ChooseSections(Lookup(d, "section"), Lookup(d, "section_bottom"), Lookup(d, "section_top"));
    assert s.Ok? && s.value.section == Plain(Null) && s.value.top == Plain(Null);
  }

  /** A tapered column as the column extractor writes it: its end sections under sec_bottom and sec_top. */
  predicate ExtractedTaperedColumn(d: Dict)
  {
    PointDict(Lookup(d, "bottom_point")) && PointDict(Lookup(d, "top_point"))
    && "section" !in d && "section_bottom" !in d && "section_top" !in d
    && Truthy(Lookup(d, "sec_bottom")) && SectionDict(Lookup(d, "sec_bottom"))
    && Truthy(Lookup(d, "sec_top")) && SectionDict(Lookup(d, "sec_top"))
  }

  /**
   * As written, the column creator processes definitions with the default
   * keys section_bottom/section_top, so a tapered column from the extractor
   * finds no section at all and raises ValueError.
   */
  lemma ExtractedTaperedColumnLost(d: Dict, index: nat, elementName: string)
    requires ExtractedTaperedColumn(d)
    ensures ProcessVertical(d, index, elementName, DefaultVerticalKeys).Err?
    ensures ProcessVertical(d, index, elementName, DefaultVerticalKeys).error.ValueError?
  {
    var s := ChooseSections(Lookup(d, "section"), Lookup(d, "section_bottom"), Lookup(d, "section_top"));
    assert s == Ok(Sections(Plain(Null), Plain(Null), Plain(Null)));
  }

  /** The keys the column extractor actually writes. */
  const ExtractorColumnKeys := VerticalKeys("bottom_point", "top_point", "sec_bottom", "sec_top", "section")

  /** Reading the extractor's keys, the same definition keeps both end sections. */
  lemma ExtractedTaperedColumnKeptFixed(d: Dict, index: nat, elementName: string)
    requires ExtractedTaperedColumn(d)
    ensures var r := ProcessVertical(d, index, elementName, ExtractorColumnKeys);
      r.Ok? && r.value["section"] == Plain(Null)
      && r.value["sec_bottom"] == Section(FromDict(d["sec_bottom"].m).value)
      && r.value["sec_top"] == Section(FromDict(d["sec_top"].m).value)
  {
    var s := ChooseSections(Lookup(d, "section"), Lookup(d, "sec_bottom"), Lookup(d, "sec_top"));
    assert s.Ok?;
  }
}
