/**
 * The footing extractor (stbParser/footing_extractor.py): one definition per
 * footing at its offset node, lowered or raised by its bottom level.
 */
module FootingExtractor {
  import opened Wrappers
  import opened Values
  import opened Xml
  import Strs
  import opened NodeExtractor
  import opened ExtractorUtils
  import opened BaseExtractor
  import opened SectionBase

  /**
   * `_process_footing_section`: a circle of the entry's radius (500 by
   * default) when its section type is CIRCLE, otherwise a rectangle of its
   * width_X and width_Y (1000 each by default).
   */
  function FootingSection(info: Dict): Dict
  {
    var rect := map["section_type" := Str("RECTANGLE"), "width_x" := LookupOr(info, "width_X", Num(1000.0)),
      "width_y" := LookupOr(info, "width_Y", Num(1000.0))];
    var kind := LookupOr(info, "section_type", Str("RECTANGLE"));
    if kind == Str("RECTANGLE") then rect
    else if kind == Str("CIRCLE") then map["section_type" := Str("CIRCLE"), "radius" := LookupOr(info, "radius", Num(500.0))]
    else rect
  }

  /** A CIRCLE section keeps only its radius; every other type, unknown ones included, becomes the default rectangle. */
  lemma FootingSectionShape(info: Dict)
    ensures LookupOr(info, "section_type", Str("RECTANGLE")) == Str("CIRCLE") ==>
      FootingSection(info) == map["section_type" := Str("CIRCLE"), "radius" := LookupOr(info, "radius", Num(500.0))]
    ensures LookupOr(info, "section_type", Str("RECTANGLE")) != Str("CIRCLE") ==>
      FootingSection(info) == map["section_type" := Str("RECTANGLE"), "width_x" := LookupOr(info, "width_X", Num(1000.0)),
        "width_y" := LookupOr(info, "width_Y", Num(1000.0))]
  {
  }

  /** `_extract_thickness_from_section`: the depth, else the thickness, else 600, read as a float. */
  function Thickness(info: Dict): (r: Result<real>)
    ensures "depth" in info ==> r == ToFloat(info["depth"])
    ensures "depth" !in info && "thickness" in info ==> r == ToFloat(info["thickness"])
    ensures "depth" !in info && "thickness" !in info ==> r == Ok(600.0)
  {
    ToFloat(LookupOr(info, "depth", LookupOr(info, "thickness", Num(600.0))))
  }

  /** The numbers read from a footing element. */
  datatype Placement = Placement(ox: real, oy: real, levelBottom: real, rotate: real)

  /** The plan offsets, the bottom level and the rotation, each 0 when absent; an unreadable one raises. */
  function ReadPlacement(e: Element): (r: Result<Placement>)
    ensures r.Ok? <==> (OffsetAttr(e, "offset_X").Ok? && OffsetAttr(e, "offset_Y").Ok?
      && OffsetAttr(e, "level_bottom").Ok? && OffsetAttr(e, "rotate").Ok?)
    ensures r.Ok? ==> r.value == Placement(OffsetAttr(e, "offset_X").value, OffsetAttr(e, "offset_Y").value,
      OffsetAttr(e, "level_bottom").value, OffsetAttr(e, "rotate").value)
  {
    match (OffsetAttr(e, "offset_X"), OffsetAttr(e, "offset_Y"), OffsetAttr(e, "level_bottom"), OffsetAttr(e, "rotate"))
    case (Err(err), _, _, _) => Err(err)
    case (_, Err(err), _, _) => Err(err)
    case (_, _, Err(err), _) => Err(err)
    case (_, _, _, Err(err)) => Err(err)
    case (Ok(ox), Ok(oy), Ok(lb), Ok(rot)) => Ok(Placement(ox, oy, lb, rot))
  }

  /** The footing's bottom point: its node moved by the plan offsets and the bottom level. */
  function BottomPoint(node: Point, p: Placement): Point
  {
    Point(node.x + p.ox, node.y + p.oy, node.z + p.levelBottom)
  }

  /** The keys that copy the footing's identity. */
  function FootingIdent(e: Element): Dict
  {
    map["id" := OptStr(Get(e, "id")), "guid" := OptStr(Get(e, "guid")), "tag" := Str("FT_" + IdText(e, "id")),
        "type" := Str("Footing"), "stb_original_id" := OptStr(Get(e, "id")), "stb_guid" := OptStr(Get(e, "guid"))]
  }

  /** The numbers read from the element, as they were read. */
  function FootingNumbers(p: Placement): Dict
  {
    map["offset_x" := Num(p.ox), "offset_y" := Num(p.oy), "level_bottom" := Num(p.levelBottom), "rotate" := Num(p.rotate)]
  }

  /** The keys that copy the footing's node and section entries. */
  function FootingRefs(node: Point, nodeId: string, sectionId: string, info: Dict): Dict
  {
    map["id_node" := Str(nodeId), "node_info" := PointValue(node), "id_section" := Str(sectionId),
        "section_info" := Dict(info), "stb_section_name" := LookupOr(info, "stb_name", Str("Unknown"))]
  }

  /** The keys that name the footing, place it and give its section and floor. */
  function FootingCore(name: string, bottom: Point, nodeId: string, info: Dict, thickness: real, floor: string): (c: Dict)
    ensures Has(c, "name", Str(name)) && Has(c, "bottom_point", PointValue(bottom)) && Has(c, "node_id", Str(nodeId))
    ensures Has(c, "section", Dict(FootingSection(info))) && Has(c, "thickness", Num(thickness))
    ensures Has(c, "floor", Str(floor))
  {
    map["name" := Str(name), "bottom_point" := PointValue(bottom), "node_id" := Str(nodeId),
        "section" := Dict(FootingSection(info)), "thickness" := Num(thickness), "floor" := Str(floor)]
  }

  /** The footing's floor: the attribute, else the ground level "GL". */
  function FootingFloor(e: Element): (f: string)
    ensures HasTruthy(e, "floor") ==> f == e.attrs["floor"]
    ensures !HasTruthy(e, "floor") ==> f == "GL"
  {
    if HasTruthy(e, "floor") then e.attrs["floor"] else "GL"
  }

  /** The footing definition. */
  function FootingDict(e: Element, node: Point, nodeId: string, sectionId: string, info: Dict, p: Placement, thickness: real): (d: Dict)
    ensures Has(d, "name", Str(GetOr(e, "name", "Footing_" + IdText(e, "id"))))
    ensures Has(d, "bottom_point", PointValue(BottomPoint(node, p))) && Has(d, "node_id", Str(nodeId))
    ensures Has(d, "section", Dict(FootingSection(info))) && Has(d, "thickness", Num(thickness))
    ensures Has(d, "floor", Str(FootingFloor(e)))
  {
    FootingIdent(e) + FootingNumbers(p) + FootingRefs(node, nodeId, sectionId, info)
      + FootingCore(GetOr(e, "name", "Footing_" + IdText(e, "id")), BottomPoint(node, p), nodeId, info, thickness, FootingFloor(e))
  }

  /** The footing's node and section are given and known. */
  predicate FootingRefsValid(e: Element, nodes: Nodes, sections: map<string, Dict>)
  {
    HasTruthy(e, "id_node") && e.attrs["id_node"] in nodes && HasTruthy(e, "id_section") && e.attrs["id_section"] in sections
  }

  /**
   * `_extract_single_footing`: a missing or unknown node or section gives
   * None; an unreadable offset, level, rotation or thickness raises.
   */
  function SingleFooting(e: Element, nodes: Nodes, sections: map<string, Dict>): (r: Result<Extracted>)
    ensures !FootingRefsValid(e, nodes, sections) ==> r == Ok(Skipped)
    ensures FootingRefsValid(e, nodes, sections) ==>
      (r.Ok? <==> ReadPlacement(e).Ok? && Thickness(sections[e.attrs["id_section"]]).Ok?)
    ensures r.Ok? && !r.value.Skipped? ==> (r.value.One? && FootingRefsValid(e, nodes, sections)
      && Has(r.value.def, "bottom_point", PointValue(BottomPoint(nodes[e.attrs["id_node"]], ReadPlacement(e).value)))
      && Has(r.value.def, "floor", Str(FootingFloor(e))))
  {
    if !FootingRefsValid(e, nodes, sections) then Ok(Skipped)
    else
      var nodeId := e.attrs["id_node"];
      var sectionId := e.attrs["id_section"];
      match ReadPlacement(e)
      case Err(err) => Err(err)
      case Ok(p) =>
        match Thickness(sections[sectionId])
        case Err(err) => Err(err)
        case Ok(t) => Ok(One(FootingDict(e, nodes[nodeId], nodeId, sectionId, sections[sectionId], p, t)))
  }

  /** Without offsets or a bottom level, the footing sits on its node. */
  lemma FootingOnNode(e: Element, nodes: Nodes, sections: map<string, Dict>)
    requires "offset_X" !in e.attrs && "offset_Y" !in e.attrs && "level_bottom" !in e.attrs
    requires var r := SingleFooting(e, nodes, sections); r.Ok? && r.value.One?
    ensures Has(SingleFooting(e, nodes, sections).value.def, "bottom_point", PointValue(nodes[e.attrs["id_node"]]))
  {
    var node := nodes[e.attrs["id_node"]];
    var p := ReadPlacement(e).value;
    assert p.ox == 0.0 && p.oy == 0.0 && p.levelBottom == 0.0;
    assert BottomPoint(node, p) == node;
  }

  /** A section entry without depth or thickness gives the default thickness of 600. */
  lemma DefaultThickness(e: Element, nodes: Nodes, sections: map<string, Dict>)
    requires FootingRefsValid(e, nodes, sections) && ReadPlacement(e).Ok?
    requires "depth" !in sections[e.attrs["id_section"]] && "thickness" !in sections[e.attrs["id_section"]]
    ensures var r := SingleFooting(e, nodes, sections);
      r.Ok? && r.value.One? && Has(r.value.def, "thickness", Num(600.0))
  {
  }

  /** The extractor of one footing, as the shared element loop calls it. */
  function FootingSingle(nodes: Nodes, sections: map<string, Dict>): SingleExtractor
  {
    (e, elementType, storyMap) => SingleFooting(e, nodes, sections)
  }

  /** `FootingExtractor.extract_footings`. */
  method ExtractFootings(root: Element, nodes: Nodes, sections: map<string, Dict>) returns (r: Result<seq<Dict>>)
    ensures r == ElementsData(root, FootingConfig, FootingSingle(nodes, sections))
  {
    r := ExtractElements(root, FootingConfig, FootingSingle(nodes, sections));
  }
}
