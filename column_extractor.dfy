/**
 * The column and post extractor (stbParser/column_extractor.py): one
 * definition per column between its offset bottom and top nodes.
 */
module ColumnExtractor {
  import opened Wrappers
  import opened Values
  import opened Xml
  import opened NodeExtractor
  import opened ExtractorUtils
  import opened BaseExtractor
  import opened SectionBase

  /**
   * The keys that name the column, place it and orient it: rotation in
   * degrees as read and in radians, and the section's reference-direction flag.
   */
  function ColumnCore(name: string, tagId: string, bottom: Point, top: Point, degrees: real, isReference: Value): (c: Dict)
    ensures Has(c, "name", Str(name)) && Has(c, "tag", Str("STB_C_" + tagId))
    ensures Has(c, "bottom_point", PointValue(bottom)) && Has(c, "top_point", PointValue(top))
    ensures Has(c, "rotate_degrees", Num(degrees)) && Has(c, "rotate_radians", Num(Radians(degrees)))
    ensures Has(c, "is_reference_direction", isReference)
    ensures "floor" !in c
  {
    map["name" := Str(name), "tag" := Str("STB_C_" + tagId), "bottom_point" := PointValue(bottom), "top_point" := PointValue(top),
        "rotate_degrees" := Num(degrees), "rotate_radians" := Num(Radians(degrees)), "is_reference_direction" := isReference]
  }

  /** The remaining keys, copied from the element and its section. */
  function ColumnMeta(e: Element, stbName: Value): (c: Dict)
    ensures "floor" !in c
  {
    map["bottom_node_id" := OptStr(Get(e, "id_node_bottom")), "top_node_id" := OptStr(Get(e, "id_node_top")),
        "stb_original_id" := OptStr(Get(e, "id")), "stb_guid" := OptStr(Get(e, "guid")),
        "stb_section_name" := stbName, "stb_structure_type" := OptStr(Get(e, "kind_structure"))]
  }

  /** The column definition before its section keys. */
  function ColumnBase(e: Element, columnType: string, bottom: Point, top: Point, degrees: real, info: Dict, storyMap: map<string, string>): (d: Dict)
    ensures Has(d, "bottom_point", PointValue(bottom)) && Has(d, "top_point", PointValue(top))
    ensures Has(d, "name", Str(GetOr(e, "name", columnType + "_" + IdText(e, "id"))))
    ensures Has(d, "rotate_degrees", Num(degrees)) && Has(d, "rotate_radians", Num(Radians(degrees)))
    ensures Has(d, "is_reference_direction", LookupOr(info, "is_reference_direction", Bool(false)))
    ensures StoryFloor(e, storyMap, Get(e, "id_node_bottom")).Some? <==> "floor" in d
    ensures StoryFloor(e, storyMap, Get(e, "id_node_bottom")).Some? ==> d["floor"] == Str(StoryFloor(e, storyMap, Get(e, "id_node_bottom")).value)
  {
    var core := ColumnCore(GetOr(e, "name", columnType + "_" + IdText(e, "id")), IdText(e, "id"), bottom, top,
      degrees, LookupOr(info, "is_reference_direction", Bool(false)));
    var base := ColumnMeta(e, LookupOr(info, "stb_name", Str("Unknown"))) + core;
    WithFloor(base, StoryFloor(e, storyMap, Get(e, "id_node_bottom")))
  }

  /**
   * The column definition: the name defaults to `{column_type}_{id}`, the
   * floor comes from the attribute or the bottom node's story, and a tapered
   * section goes to sec_bottom/sec_top.
   */
  function ColumnDict(e: Element, columnType: string, bottom: Point, top: Point, degrees: real, info: Dict, storyMap: map<string, string>): (d: Dict)
  {
    WithSections(ColumnBase(e, columnType, bottom, top, degrees, info, storyMap), info, "sec_bottom", "sec_top")
  }

  /** What the column definition holds, whichever section keys it receives. */
  lemma ColumnDictSpec(e: Element, columnType: string, bottom: Point, top: Point, degrees: real, info: Dict, storyMap: map<string, string>)
    ensures var d := ColumnDict(e, columnType, bottom, top, degrees, info, storyMap);
      Has(d, "bottom_point", PointValue(bottom)) && Has(d, "top_point", PointValue(top))
      && Has(d, "rotate_degrees", Num(degrees)) && Has(d, "rotate_radians", Num(Radians(degrees)))
      && Has(d, "is_reference_direction", LookupOr(info, "is_reference_direction", Bool(false)))
      && (StoryFloor(e, storyMap, Get(e, "id_node_bottom")).Some? <==> "floor" in d)
      && ("start_section" in info && "end_section" in info ==> Has(d, "sec_bottom", info["start_section"]) && Has(d, "sec_top", info["end_section"]))
      && (!("start_section" in info && "end_section" in info) ==> Has(d, "section", Dict(info)))
  {
    var b := ColumnBase(e, columnType, bottom, top, degrees, info, storyMap);
    WithSectionsKeeps(b, info, "sec_bottom", "sec_top", "bottom_point");
    WithSectionsKeeps(b, info, "sec_bottom", "sec_top", "top_point");
    WithSectionsKeeps(b, info, "sec_bottom", "sec_top", "rotate_degrees");
    WithSectionsKeeps(b, info, "sec_bottom", "sec_top", "rotate_radians");
    WithSectionsKeeps(b, info, "sec_bottom", "sec_top", "is_reference_direction");
    WithSectionsKeeps(b, info, "sec_bottom", "sec_top", "floor");
  }

  /** The references `_validate_column_data` checks. */
  predicate ColumnRefsValid(e: Element, nodes: Nodes, sections: map<string, Dict>)
  {
    ValidateElementData([Get(e, "id_node_bottom"), Get(e, "id_node_top")], [Get(e, "id_section")], nodes, sections)
  }

  /** Valid references mean the section id is known. */
  lemma ColumnSectionKnown(e: Element, nodes: Nodes, sections: map<string, Dict>)
    requires ColumnRefsValid(e, nodes, sections)
    ensures "id_section" in e.attrs && e.attrs["id_section"] in sections
  {
    ValidateElementDataIff([Get(e, "id_node_bottom"), Get(e, "id_node_top")], [Get(e, "id_section")], nodes, sections);
    assert [Get(e, "id_section")][0] == Get(e, "id_section");
  }

  /**
   * `_extract_single_column`: `float(rotate)` (default 0) may raise first;
   * invalid references give None; otherwise the offset ends give one
   * definition.
   */
  function SingleColumn(e: Element, columnType: string, nodes: Nodes, sections: map<string, Dict>, storyMap: map<string, string>): Result<Extracted>
  {
    match OffsetAttr(e, "rotate")
    case Err(err) => Err(err)
    case Ok(degrees) =>
      if !ColumnRefsValid(e, nodes, sections) then Ok(Skipped)
      else
        ColumnSectionKnown(e, nodes, sections);
        match BottomTopOffsets(e, nodes)
        case Err(err) => Err(err)
        case Ok(ends) => Ok(One(ColumnDict(e, columnType, ends.0, ends.1, degrees, sections[e.attrs["id_section"]], storyMap)))
  }

  /** A missing bottom node, top node or section gives no definition. */
  lemma MissingRefsGiveNone(e: Element, columnType: string, nodes: Nodes, sections: map<string, Dict>, storyMap: map<string, string>)
    requires OffsetAttr(e, "rotate").Ok?
    requires "id_node_bottom" !in e.attrs || e.attrs["id_node_bottom"] !in nodes
    ensures SingleColumn(e, columnType, nodes, sections, storyMap) == Ok(Skipped)
  {
    ValidateElementDataIff([Get(e, "id_node_bottom"), Get(e, "id_node_top")], [Get(e, "id_section")], nodes, sections);
    assert [Get(e, "id_node_bottom"), Get(e, "id_node_top")][0] == Get(e, "id_node_bottom");
  }

  /** Without a rotate attribute the column is not rotated: 0 degrees and 0 radians. */
  lemma NoRotateIsZero(e: Element, columnType: string, nodes: Nodes, sections: map<string, Dict>, storyMap: map<string, string>)
    requires "rotate" !in e.attrs && ColumnRefsValid(e, nodes, sections) && BottomTopOffsets(e, nodes).Ok?
    ensures var r := SingleColumn(e, columnType, nodes, sections, storyMap);
      r.Ok? && r.value.One? && Has(r.value.def, "rotate_degrees", Num(0.0)) && Has(r.value.def, "rotate_radians", Num(0.0))
  {
    ColumnSectionKnown(e, nodes, sections);
    var ends := BottomTopOffsets(e, nodes).value;
    ColumnDictSpec(e, columnType, ends.0, ends.1, 0.0, sections[e.attrs["id_section"]], storyMap);
  }

  /** The extractor of one column, as the shared element loop calls it. */
  function ColumnSingle(nodes: Nodes, sections: map<string, Dict>): SingleExtractor
  {
    (e, columnType, storyMap) => SingleColumn(e, columnType, nodes, sections, storyMap)
  }

  /** `ColumnExtractor.extract_columns`: columns, then posts. */
  method ExtractColumns(root: Element, nodes: Nodes, sections: map<string, Dict>) returns (r: Result<seq<Dict>>)
    ensures r == ElementsData(root, ColumnConfig, ColumnSingle(nodes, sections))
  {
    r := ExtractElements(root, ColumnConfig, ColumnSingle(nodes, sections));
  }
}
