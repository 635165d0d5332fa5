/**
 * The brace extractor (stbParser/brace_extractor.py): one definition per
 * brace between its offset start and end nodes.
 */
module BraceExtractor {
  import opened Wrappers
  import opened Values
  import opened Xml
  import opened NodeExtractor
  import opened ExtractorUtils
  import opened BaseExtractor
  import opened SectionBase

  /** `_validate_brace_data`: the start node, the end node and the section are all known. */
  predicate BraceRefsValid(e: Element, nodes: Nodes, sections: map<string, Dict>)
  {
    "id_node_start" in e.attrs && e.attrs["id_node_start"] in nodes
    && "id_node_end" in e.attrs && e.attrs["id_node_end"] in nodes
    && "id_section" in e.attrs && e.attrs["id_section"] in sections
  }

  /** The brace's own check accepts exactly what the shared `validate_element_data` accepts. */
  lemma BraceRefsAgree(e: Element, nodes: Nodes, sections: map<string, Dict>)
    ensures BraceRefsValid(e, nodes, sections) <==>
      ValidateElementData([Get(e, "id_node_start"), Get(e, "id_node_end")], [Get(e, "id_section")], nodes, sections)
  {
    var nodeIds := [Get(e, "id_node_start"), Get(e, "id_node_end")];
    var sectionIds := [Get(e, "id_section")];
    ValidateElementDataIff(nodeIds, sectionIds, nodes, sections);
    assert nodeIds[0] == Get(e, "id_node_start") && nodeIds[1] == Get(e, "id_node_end");
    assert sectionIds[0] == Get(e, "id_section");
  }

  /** The keys that name the brace and place it. */
  function BraceCore(name: string, tagId: string, s: Point, t: Point, info: Dict): (c: Dict)
    ensures Has(c, "name", Str(name)) && Has(c, "tag", Str("STB_BR_" + tagId))
    ensures Has(c, "start_point", PointValue(s)) && Has(c, "end_point", PointValue(t)) && Has(c, "section", Dict(info))
    ensures "floor" !in c
  {
    map["name" := Str(name), "tag" := Str("STB_BR_" + tagId), "start_point" := PointValue(s), "end_point" := PointValue(t),
        "section" := Dict(info)]
  }

  /** The remaining keys, copied from the element and its section. */
  function BraceMeta(e: Element, stbName: Value): (c: Dict)
    ensures Has(c, "feature_brace", OptStr(Get(e, "feature_brace")))
    ensures "floor" !in c
  {
    map["start_node_id" := OptStr(Get(e, "id_node_start")), "end_node_id" := OptStr(Get(e, "id_node_end")),
        "stb_original_id" := OptStr(Get(e, "id")), "stb_guid" := OptStr(Get(e, "guid")),
        "stb_section_name" := stbName, "stb_structure_type" := OptStr(Get(e, "kind_structure")),
        "feature_brace" := OptStr(Get(e, "feature_brace"))]
  }

  /**
   * The brace definition: the name defaults to `Brace_{id}`, the tag is
   * `STB_BR_{id}`, and the floor comes from the attribute or the start
   * node's story and is otherwise absent.
   */
  function BraceDict(e: Element, s: Point, t: Point, info: Dict, storyMap: map<string, string>): (d: Dict)
    ensures Has(d, "name", Str(GetOr(e, "name", "Brace_" + IdText(e, "id")))) && Has(d, "tag", Str("STB_BR_" + IdText(e, "id")))
    ensures Has(d, "start_point", PointValue(s)) && Has(d, "end_point", PointValue(t)) && Has(d, "section", Dict(info))
    ensures StoryFloor(e, storyMap, Get(e, "id_node_start")).Some? <==> "floor" in d
    ensures StoryFloor(e, storyMap, Get(e, "id_node_start")).Some? ==> d["floor"] == Str(StoryFloor(e, storyMap, Get(e, "id_node_start")).value)
  {
    var base := BraceMeta(e, LookupOr(info, "stb_name", Str("Unknown")))
      + BraceCore(GetOr(e, "name", "Brace_" + IdText(e, "id")), IdText(e, "id"), s, t, info);
    WithFloor(base, StoryFloor(e, storyMap, Get(e, "id_node_start")))
  }

  /**
   * `_extract_single_brace`: a missing node or section gives None; an
   * unreadable offset raises; otherwise one definition.
   */
  function SingleBrace(e: Element, nodes: Nodes, sections: map<string, Dict>, storyMap: map<string, string>): (r: Result<Extracted>)
    ensures !BraceRefsValid(e, nodes, sections) ==> r == Ok(Skipped)
    ensures BraceRefsValid(e, nodes, sections) ==> (r.Ok? <==> StartEndOffsets(e, nodes).Ok?)
    ensures r.Ok? && r.value.One? ==> (Has(r.value.def, "start_point", PointValue(StartEndOffsets(e, nodes).value.0))
      && Has(r.value.def, "end_point", PointValue(StartEndOffsets(e, nodes).value.1)))
  {
    if !BraceRefsValid(e, nodes, sections) then Ok(Skipped)
    else
      match StartEndOffsets(e, nodes)
      case Err(err) => Err(err)
      case Ok(ends) => Ok(One(BraceDict(e, ends.0, ends.1, sections[e.attrs["id_section"]], storyMap)))
  }

  /**
   * `_apply_node_offsets` of the brace: each end is its node moved by the
   * three offsets of that end, a missing offset counting as zero.
   */
  lemma BraceEndsAreOffsetNodes(e: Element, nodes: Nodes, sections: map<string, Dict>)
    requires BraceRefsValid(e, nodes, sections) && StartEndOffsets(e, nodes).Ok?
    ensures var (s, t) := StartEndOffsets(e, nodes).value;
      var n0 := nodes[e.attrs["id_node_start"]];
      var n1 := nodes[e.attrs["id_node_end"]];
      s == Point(n0.x + OffsetAttr(e, "offset_start_X").value, n0.y + OffsetAttr(e, "offset_start_Y").value, n0.z + OffsetAttr(e, "offset_start_Z").value)
      && t == Point(n1.x + OffsetAttr(e, "offset_end_X").value, n1.y + OffsetAttr(e, "offset_end_Y").value, n1.z + OffsetAttr(e, "offset_end_Z").value)
  {
  }

  /** The extractor of one brace, as the shared element loop calls it. */
  function BraceSingle(nodes: Nodes, sections: map<string, Dict>): SingleExtractor
  {
    (e, elementType, storyMap) => SingleBrace(e, nodes, sections, storyMap)
  }

  /** `BraceExtractor.extract_braces`. */
  method ExtractBraces(root: Element, nodes: Nodes, sections: map<string, Dict>) returns (r: Result<seq<Dict>>)
    ensures r == ElementsData(root, BraceConfig, BraceSingle(nodes, sections))
  {
    r := ExtractElements(root, BraceConfig, BraceSingle(nodes, sections));
  }
}
