/**
 * The slab extractor (stbParser/slab_extractor.py): one definition per slab
 * from its corner nodes, moved by the slab's node offsets, with its centre
 * and its extent in plan.
 */
module SlabExtractor {
  import opened Wrappers
  import opened Values
  import opened Xml
  import Strs
  import opened NodeExtractor
  import opened BaseExtractor
  import opened SectionBase
  import opened SurfaceNodes

  /** The slab's section: a copy of the section entry given a width and a depth unless it has them. */
  function SlabSection(info: Dict, width: real, depth: real): (s: Dict)
    ensures Has(s, "width", if "width" in info then info["width"] else Num(width))
    ensures Has(s, "depth", if "depth" in info then info["depth"] else Num(depth))
    ensures forall k :: k in info ==> Has(s, k, info[k])
  {
    SetDefault(SetDefault(info, "width", Num(width)), "depth", Num(depth))
  }

  /** The keys that name the slab and place it. */
  function SlabCore(name: string, tagId: string, center: Point, section: Dict, floor: string): (c: Dict)
    ensures Has(c, "name", Str(name)) && Has(c, "tag", Str("SLB_" + tagId))
    ensures Has(c, "center_point", PointValue(center)) && Has(c, "section", Dict(section))
    ensures Has(c, "floor", Str(floor))
    ensures "corner_nodes" !in c && "node_ids" !in c && "primary_node_id" !in c
  {
    map["name" := Str(name), "tag" := Str("SLB_" + tagId), "center_point" := PointValue(center),
        "section" := Dict(section), "floor" := Str(floor)]
  }

  /** The keys that list the slab's nodes and copy its identity. */
  function SlabMeta(e: Element, corners: seq<Point>, ids: seq<string>, stbName: Value): (c: Dict)
    requires |ids| > 0
    ensures Has(c, "corner_nodes", List(PointValues(corners))) && Has(c, "node_ids", List(StrValues(ids)))
    ensures Has(c, "primary_node_id", Str(ids[0]))
  {
    map["corner_nodes" := List(PointValues(corners)), "node_ids" := List(StrValues(ids)), "primary_node_id" := Str(ids[0]),
        "stb_original_id" := OptStr(Get(e, "id")), "stb_guid" := OptStr(Get(e, "guid")), "stb_section_name" := stbName]
  }

  /**
   * The slab's floor: the attribute, else the first node's story, else the
   * ground level "GL".
   */
  function SlabFloor(e: Element, storyMap: map<string, string>, first: string): (f: string)
    ensures HasTruthy(e, "floor") ==> f == e.attrs["floor"]
    ensures !HasTruthy(e, "floor") && first in storyMap && storyMap[first] != "" ==> f == storyMap[first]
    ensures !HasTruthy(e, "floor") && (first !in storyMap || storyMap[first] == "") ==> f == "GL"
  {
    StoryFloor(e, storyMap, Some(first)).GetOr("GL")
  }

  /**
   * The slab definition: the centre of all corrected nodes, the section
   * given the plan width and depth of the nodes, and always a floor.
   */
  function SlabDict(e: Element, c: seq<Point>, ids: seq<string>, info: Dict, storyMap: map<string, string>): (d: Dict)
    requires |c| > 0 && |ids| > 0
    ensures Has(d, "name", Str(GetOr(e, "name", "Slab_" + IdText(e, "id")))) && Has(d, "tag", Str("SLB_" + IdText(e, "id")))
    ensures Has(d, "center_point", PointValue(Center(c)))
    ensures Has(d, "section", Dict(SlabSection(info, Extent(Xs(c)), Extent(Ys(c)))))
    ensures Has(d, "corner_nodes", List(PointValues(c))) && Has(d, "primary_node_id", Str(ids[0]))
    ensures Has(d, "floor", Str(SlabFloor(e, storyMap, ids[0])))
  {
    var section := SlabSection(info, Extent(Xs(c)), Extent(Ys(c)));
    var core := SlabCore(GetOr(e, "name", "Slab_" + IdText(e, "id")), IdText(e, "id"), Center(c), section, SlabFloor(e, storyMap, ids[0]));
    SlabMeta(e, c, ids, LookupOr(section, "stb_name", Str("Unknown"))) + core
  }

  /** The text of the slab's StbNodeIdOrder, None without the element or its text. */
  function OrderText(e: Element): Option<string>
  {
    match Child(e, "StbNodeIdOrder")
    case None => None
    case Some(order) => order.text
  }

  /**
   * `_extract_single_slab`: without node text or a section id, with no node
   * id or an unknown section, or with no known node the slab is skipped;
   * an unreadable offset raises.
   */
  function SingleSlab(e: Element, nodes: Nodes, sections: map<string, Dict>, storyMap: map<string, string>): (r: Result<Extracted>)
    ensures OrderText(e).None? || OrderText(e) == Some("") || !HasTruthy(e, "id_section") ==> r == Ok(Skipped)
    ensures r.Ok? ==> r.value.Skipped? || r.value.One?
  {
    var text := OrderText(e);
    if text.None? || text.value == "" || !HasTruthy(e, "id_section") then Ok(Skipped)
    else
      var ids := Strs.Words(text.value);
      if ids == [] || e.attrs["id_section"] !in sections then Ok(Skipped)
      else
        match CorrectedNodes(e, "StbSlabOffsetList", "StbSlabOffset", ids, nodes)
        case Err(err) => Err(err)
        case Ok(c) =>
          if c == [] then Ok(Skipped)
          else Ok(One(SlabDict(e, c, ids, sections[e.attrs["id_section"]], storyMap)))
  }

  /**
   * A slab is defined exactly when its node text has an id, its section is
   * known, its offsets read and one of its nodes is known.
   */
  lemma SlabDefined(e: Element, nodes: Nodes, sections: map<string, Dict>, storyMap: map<string, string>)
    requires OrderText(e).Some? && HasTruthy(e, "id_section")
    ensures var ids := Strs.Words(OrderText(e).value);
      var c := CorrectedNodes(e, "StbSlabOffsetList", "StbSlabOffset", ids, nodes);
      var r := SingleSlab(e, nodes, sections, storyMap);
      r.Ok? && r.value.One? <==> ids != [] && e.attrs["id_section"] in sections && c.Ok? && c.value != []
  {
    var text := OrderText(e).value;
    if text == "" {
      Strs.BlankHasNoWords(text);
    }
  }

  /**
   * A defined slab's centre is the centre of its corrected nodes and lies
   * within their bounding box.
   */
  lemma SlabCenterInBox(e: Element, nodes: Nodes, sections: map<string, Dict>, storyMap: map<string, string>)
    requires var r := SingleSlab(e, nodes, sections, storyMap); r.Ok? && r.value.One?
    ensures var c := CorrectedNodes(e, "StbSlabOffsetList", "StbSlabOffset", Strs.Words(OrderText(e).value), nodes);
      c.Ok? && c.value != [] && Has(SingleSlab(e, nodes, sections, storyMap).value.def, "center_point", PointValue(Center(c.value)))
      && MinOf(Xs(c.value)) <= Center(c.value).x <= MaxOf(Xs(c.value))
      && MinOf(Ys(c.value)) <= Center(c.value).y <= MaxOf(Ys(c.value))
  {
    var c := CorrectedNodes(e, "StbSlabOffsetList", "StbSlabOffset", Strs.Words(OrderText(e).value), nodes);
    CenterInBox(c.value);
  }

  /** A defined slab always has a floor, "GL" when neither the attribute nor the first node's story gives one. */
  lemma SlabAlwaysHasFloor(e: Element, nodes: Nodes, sections: map<string, Dict>, storyMap: map<string, string>)
    requires var r := SingleSlab(e, nodes, sections, storyMap); r.Ok? && r.value.One?
    requires !HasTruthy(e, "floor")
    requires forall id :: id in storyMap ==> storyMap[id] == ""
    ensures Has(SingleSlab(e, nodes, sections, storyMap).value.def, "floor", Str("GL"))
  {
  }

  /** The extractor of one slab, as the shared element loop calls it. */
  function SlabSingle(nodes: Nodes, sections: map<string, Dict>): SingleExtractor
  {
    (e, elementType, storyMap) => SingleSlab(e, nodes, sections, storyMap)
  }

  /** `SlabExtractor.extract_slabs`. */
  method ExtractSlabs(root: Element, nodes: Nodes, sections: map<string, Dict>) returns (r: Result<seq<Dict>>)
    ensures r == ElementsData(root, SlabConfig, SlabSingle(nodes, sections))
  {
    r := ExtractElements(root, SlabConfig, SlabSingle(nodes, sections));
  }
}
