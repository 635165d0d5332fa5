/**
 * The pile extractor (stbParser/pile_extractor.py): one vertical definition
 * per pile, from its top level down by its total length.
 */
module PileExtractor {
  import opened Wrappers
  import opened Values
  import opened Xml
  import Strs
  import opened NodeExtractor
  import opened ExtractorUtils
  import opened BaseExtractor
  import opened SectionBase

  /** `float(elem.get("level_top", z))`: the node's height when absent; an unreadable value raises. */
  function LevelTop(e: Element, z: real): (r: Result<real>)
    ensures "level_top" !in e.attrs ==> r == Ok(z)
    ensures "level_top" in e.attrs ==> (r.Ok? <==> Strs.ParseFloat(e.attrs["level_top"]).Some?)
  {
    match Get(e, "level_top")
    case None => Ok(z)
    case Some(s) =>
      match Strs.ParseFloat(s)
      case None => Err(ValueError("could not convert string to float: " + s))
      case Some(v) => Ok(v)
  }

  /**
   * The bottom height: the top less a non-empty, readable `length_all`;
   * the top itself otherwise, an unreadable length being ignored.
   */
  function BottomZ(e: Element, top: real): (z: real)
    ensures HasTruthy(e, "length_all") && Strs.ParseFloat(e.attrs["length_all"]).Some? ==>
      z == top - Strs.ParseFloat(e.attrs["length_all"]).value
    ensures !(HasTruthy(e, "length_all") && Strs.ParseFloat(e.attrs["length_all"]).Some?) ==> z == top
  {
    if HasTruthy(e, "length_all") then
      match Strs.ParseFloat(e.attrs["length_all"])
      case Some(l) => top - l
      case None => top
    else top
  }

  /** The keys that name the pile and place it. */
  function PileCore(name: string, tagId: string, top: Point, bottom: Point, info: Dict, floor: string): (c: Dict)
    ensures Has(c, "name", Str(name)) && Has(c, "tag", Str("STB_P_" + tagId))
    ensures Has(c, "top_point", PointValue(top)) && Has(c, "bottom_point", PointValue(bottom))
    ensures Has(c, "section", Dict(info)) && Has(c, "floor", Str(floor))
  {
    map["name" := Str(name), "tag" := Str("STB_P_" + tagId), "top_point" := PointValue(top),
        "bottom_point" := PointValue(bottom), "section" := Dict(info), "floor" := Str(floor)]
  }

  /** The keys that copy the pile's node and identity. */
  function PileMeta(e: Element, nodeId: string, stbName: Value): (c: Dict)
    ensures Has(c, "node_id", Str(nodeId)) && Has(c, "bottom_node_id", Str(nodeId))
    ensures "name" !in c && "tag" !in c && "top_point" !in c && "bottom_point" !in c && "section" !in c && "floor" !in c
  {
    map["node_id" := Str(nodeId), "bottom_node_id" := Str(nodeId), "stb_original_id" := OptStr(Get(e, "id")),
        "stb_guid" := OptStr(Get(e, "guid")), "stb_section_name" := stbName,
        "stb_structure_type" := OptStr(Get(e, "kind_structure"))]
  }

  /** The pile's floor: the attribute, else the ground level "GL". */
  function PileFloor(e: Element): (f: string)
    ensures HasTruthy(e, "floor") ==> f == e.attrs["floor"]
    ensures !HasTruthy(e, "floor") ==> f == "GL"
  {
    if HasTruthy(e, "floor") then e.attrs["floor"] else "GL"
  }

  /** Both the pile's node and its section are known. */
  predicate PileRefsValid(e: Element, nodes: Nodes, sections: map<string, Dict>)
  {
    "id_node" in e.attrs && e.attrs["id_node"] in nodes && "id_section" in e.attrs && e.attrs["id_section"] in sections
  }

  /**
   * The pile's top and bottom: the offset node at the top level, and
   * straight below it at the bottom height. The plan offsets and the top
   * level must be readable.
   */
  function PileEnds(e: Element, node: Point): (r: Result<(Point, Point)>)
    ensures r.Ok? <==> OffsetAttr(e, "offset_X").Ok? && OffsetAttr(e, "offset_Y").Ok? && LevelTop(e, node.z).Ok?
    ensures r.Ok? ==> (var ox, oy, top := OffsetAttr(e, "offset_X").value, OffsetAttr(e, "offset_Y").value, LevelTop(e, node.z).value;
      r.value.0 == Point(node.x + ox, node.y + oy, top) && r.value.1 == Point(node.x + ox, node.y + oy, BottomZ(e, top)))
  {
    match (OffsetAttr(e, "offset_X"), OffsetAttr(e, "offset_Y"), LevelTop(e, node.z))
    case (Err(err), _, _) => Err(err)
    case (_, Err(err), _) => Err(err)
    case (_, _, Err(err)) => Err(err)
    case (Ok(ox), Ok(oy), Ok(top)) => Ok((Point(node.x + ox, node.y + oy, top), Point(node.x + ox, node.y + oy, BottomZ(e, top))))
  }

  /** A pile is vertical: its ends share their plan position, and the drop from top to bottom is the readable length, else none. */
  lemma PileIsVertical(e: Element, node: Point)
    requires PileEnds(e, node).Ok?
    ensures var (top, bottom) := PileEnds(e, node).value;
      top.x == bottom.x && top.y == bottom.y
      && (HasTruthy(e, "length_all") && Strs.ParseFloat(e.attrs["length_all"]).Some? ==>
        top.z - bottom.z == Strs.ParseFloat(e.attrs["length_all"]).value)
      && (!(HasTruthy(e, "length_all") && Strs.ParseFloat(e.attrs["length_all"]).Some?) ==> top.z == bottom.z)
  {
  }

  /**
   * `_extract_single_pile`: an unknown node or section gives None; an
   * unreadable offset or top level raises; otherwise one definition between
   * the pile's two ends.
   */
  function SinglePile(e: Element, nodes: Nodes, sections: map<string, Dict>): (r: Result<Extracted>)
    ensures !PileRefsValid(e, nodes, sections) ==> r == Ok(Skipped)
    ensures PileRefsValid(e, nodes, sections) ==> (r.Ok? <==> PileEnds(e, nodes[e.attrs["id_node"]]).Ok?)
    ensures r.Ok? && !r.value.Skipped? ==> (r.value.One? && PileRefsValid(e, nodes, sections)
      && Has(r.value.def, "top_point", PointValue(PileEnds(e, nodes[e.attrs["id_node"]]).value.0))
      && Has(r.value.def, "bottom_point", PointValue(PileEnds(e, nodes[e.attrs["id_node"]]).value.1))
      && Has(r.value.def, "floor", Str(PileFloor(e))))
  {
    if !PileRefsValid(e, nodes, sections) then Ok(Skipped)
    else
      var id := e.attrs["id_node"];
      match PileEnds(e, nodes[id])
      case Err(err) => Err(err)
      case Ok(ends) =>
        var info := sections[e.attrs["id_section"]];
        var core := PileCore(GetOr(e, "name", "Pile_" + IdText(e, "id")), IdText(e, "id"), ends.0, ends.1, info, PileFloor(e));
        Ok(One(PileMeta(e, id, LookupOr(info, "stb_name", Str("Unknown"))) + core))
  }

  /** A pile without `level_top` and `length_all` starts and ends at its node's height. */
  lemma PileDefaultsToNodeHeight(e: Element, nodes: Nodes, sections: map<string, Dict>)
    requires var r := SinglePile(e, nodes, sections); r.Ok? && r.value.One?
    requires "level_top" !in e.attrs && "length_all" !in e.attrs
    ensures var node := nodes[e.attrs["id_node"]];
      var d := SinglePile(e, nodes, sections).value.def;
      "top_point" in d && "bottom_point" in d && d["top_point"].Dict? && d["bottom_point"].Dict?
      && Has(d["top_point"].m, "z", Num(node.z)) && Has(d["bottom_point"].m, "z", Num(node.z))
  {
  }

  /** The extractor of one pile, as the shared element loop calls it. */
  function PileSingle(nodes: Nodes, sections: map<string, Dict>): SingleExtractor
  {
    (e, elementType, storyMap) => SinglePile(e, nodes, sections)
  }

  /** `PileExtractor.extract_piles`. */
  method ExtractPiles(root: Element, nodes: Nodes, sections: map<string, Dict>) returns (r: Result<seq<Dict>>)
    ensures r == ElementsData(root, PileConfig, PileSingle(nodes, sections))
  {
    r := ExtractElements(root, PileConfig, PileSingle(nodes, sections));
  }
}
