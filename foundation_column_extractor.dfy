/**
 * The foundation column extractor (stbParser/foundation_column_extractor.py):
 * one definition per foundation column at its node, with a foundation (FD)
 * part and an optional wall-rise (WR) part; the WR part, when present, is
 * the column's primary section. Every failure inside the extraction,
 * an unreadable number included, skips the column instead of raising.
 */
module FoundationColumnExtractor {
  import opened Wrappers
  import opened Values
  import opened Xml
  import opened NodeExtractor
  import opened ExtractorUtils
  import opened BaseExtractor
  import opened SectionBase

  /** The FD section entry: a non-empty id other than "0" that names a known section. */
  function FdInfo(e: Element, sections: map<string, Dict>): (r: Option<Dict>)
    ensures r.Some? <==> HasTruthy(e, "id_section_FD") && e.attrs["id_section_FD"] != "0" && e.attrs["id_section_FD"] in sections
    ensures r.Some? ==> r.value == sections[e.attrs["id_section_FD"]]
  {
    if HasTruthy(e, "id_section_FD") && e.attrs["id_section_FD"] != "0" && e.attrs["id_section_FD"] in sections
    then Some(sections[e.attrs["id_section_FD"]]) else None
  }

  /** The WR section entry: a non-empty id that names a known section. */
  function WrInfo(e: Element, sections: map<string, Dict>): (r: Option<Dict>)
    ensures r.Some? <==> HasTruthy(e, "id_section_WR") && e.attrs["id_section_WR"] in sections
    ensures r.Some? ==> r.value == sections[e.attrs["id_section_WR"]]
  {
    if HasTruthy(e, "id_section_WR") && e.attrs["id_section_WR"] in sections then Some(sections[e.attrs["id_section_WR"]]) else None
  }

  /** An optional section entry as a dictionary value: the entry, or `None`. */
  function InfoValue(o: Option<Dict>): (v: Value)
    ensures o.None? ==> v == Null
    ensures o.Some? ==> v == Dict(o.value)
  {
    if o.Some? then Dict(o.value) else Null
  }

  /** The numbers a foundation column reads, each 0 when it is not read or absent. */
  datatype Readings = Readings(lengthFd: real, offsetFdX: real, offsetFdY: real, addStart: real, addEnd: real,
                               lengthWr: real, offsetWrX: real, offsetWrY: real)

  /** `float(elem.get(name, 0))` when `read`, and 0 otherwise; None when the attribute is unreadable. */
  function Reading(e: Element, name: string, read: bool): (r: Option<real>)
    ensures !read ==> r == Some(0.0)
    ensures read ==> (r.Some? <==> OffsetAttr(e, name).Ok?)
    ensures read && r.Some? ==> r.value == OffsetAttr(e, name).value
  {
    if !read then Some(0.0)
    else match OffsetAttr(e, name)
      case Ok(x) => Some(x)
      case Err(_) => None
  }

  /**
   * All the numbers: the FD length only when the FD entry was found, the WR
   * length and offsets only when the WR entry was found, the FD offsets and
   * thickness additions always. None when any of them is unreadable.
   */
  function ReadNumbers(e: Element, fd: Option<Dict>, wr: Option<Dict>): Option<Readings>
  {
    var lf := Reading(e, "length_FD", fd.Some?);
    var fx := Reading(e, "offset_FD_X", true);
    var fy := Reading(e, "offset_FD_Y", true);
    var ts := Reading(e, "thickness_add_FD_start", true);
    var te := Reading(e, "thickness_add_FD_end", true);
    var lw := Reading(e, "length_WR", wr.Some?);
    var wx := Reading(e, "offset_WR_X", wr.Some?);
    var wy := Reading(e, "offset_WR_Y", wr.Some?);
    if lf.Some? && fx.Some? && fy.Some? && ts.Some? && te.Some? && lw.Some? && wx.Some? && wy.Some?
    then Some(Readings(lf.value, fx.value, fy.value, ts.value, te.value, lw.value, wx.value, wy.value))
    else None
  }

  /** The numbers read exactly when every attribute that is read is readable. */
  lemma ReadNumbersIff(e: Element, fd: Option<Dict>, wr: Option<Dict>)
    ensures ReadNumbers(e, fd, wr).Some? <==>
      ((fd.Some? ==> OffsetAttr(e, "length_FD").Ok?)
      && OffsetAttr(e, "offset_FD_X").Ok? && OffsetAttr(e, "offset_FD_Y").Ok?
      && OffsetAttr(e, "thickness_add_FD_start").Ok? && OffsetAttr(e, "thickness_add_FD_end").Ok?
      && (wr.Some? ==> OffsetAttr(e, "length_WR").Ok? && OffsetAttr(e, "offset_WR_X").Ok? && OffsetAttr(e, "offset_WR_Y").Ok?))
    ensures ReadNumbers(e, fd, wr).Some? && fd.None? ==> ReadNumbers(e, fd, wr).value.lengthFd == 0.0
    ensures ReadNumbers(e, fd, wr).Some? && wr.None? ==>
      (var rd := ReadNumbers(e, fd, wr).value; rd.lengthWr == 0.0 && rd.offsetWrX == 0.0 && rd.offsetWrY == 0.0)
  {
  }

  /** The primary section: the WR entry when it is non-empty, else the FD entry. */
  function Primary(fd: Option<Dict>, wr: Option<Dict>): (p: Option<Dict>)
    ensures Present(wr) ==> p == wr
    ensures !Present(wr) ==> p == fd
  {
    if Present(wr) then wr else fd
  }

  /** `primary.get(key, default)` when the primary section is non-empty, else the default. */
  function PrimaryGet(p: Option<Dict>, key: string, default: Value): (v: Value)
    ensures !Present(p) ==> v == default
    ensures Present(p) ==> v == LookupOr(p.value, key, default)
  {
    if Present(p) then LookupOr(p.value, key, default) else default
  }

  /** The FD part of the definition. */
  function FdSection(e: Element, fd: Option<Dict>, rd: Readings): (s: Dict)
    ensures Has(s, "section_info", InfoValue(fd)) && Has(s, "length", Num(rd.lengthFd))
    ensures Has(s, "offset_x", Num(rd.offsetFdX)) && Has(s, "offset_y", Num(rd.offsetFdY))
  {
    map["id_section" := OptStr(Get(e, "id_section_FD")), "section_info" := InfoValue(fd), "length" := Num(rd.lengthFd),
        "offset_x" := Num(rd.offsetFdX), "offset_y" := Num(rd.offsetFdY), "thickness_add_start" := Num(rd.addStart),
        "thickness_add_end" := Num(rd.addEnd)]
  }

  /** The WR part of the definition. */
  function WrSection(e: Element, wr: Dict, rd: Readings): (s: Dict)
    ensures Has(s, "section_info", Dict(wr)) && Has(s, "length", Num(rd.lengthWr))
    ensures Has(s, "offset_x", Num(rd.offsetWrX)) && Has(s, "offset_y", Num(rd.offsetWrY))
  {
    map["id_section" := OptStr(Get(e, "id_section_WR")), "section_info" := Dict(wr), "length" := Num(rd.lengthWr),
        "offset_x" := Num(rd.offsetWrX), "offset_y" := Num(rd.offsetWrY)]
  }

  /** The keys that copy the column's identity and node. */
  function FcIdent(e: Element, node: Point, nodeId: string): (c: Dict)
    ensures "wr_section" !in c && "floor" !in c
  {
    map["id" := OptStr(Get(e, "id")), "guid" := Str(GetOr(e, "guid", "")), "type" := Str("FoundationColumn"),
        "kind_structure" := Str(GetOr(e, "kind_structure", "RC")), "stb_original_id" := OptStr(Get(e, "id")),
        "stb_guid" := Str(GetOr(e, "guid", ""))]
    + map["id_node" := Str(nodeId), "node_id" := Str(nodeId), "node_info" := PointValue(node)]
  }

  /** The keys taken from the primary section other than the section itself. */
  function FcPrimary(e: Element, fd: Option<Dict>, wr: Option<Dict>): (c: Dict)
    ensures "wr_section" !in c && "floor" !in c
  {
    var p := Primary(fd, wr);
    map["width" := PrimaryGet(p, "width_x", Num(0.0)), "height" := PrimaryGet(p, "width_y", Num(0.0)),
        "id_section" := OptStr(Get(e, if Present(wr) then "id_section_WR" else "id_section_FD")),
        "stb_section_name" := PrimaryGet(p, "stb_name", Str("Unknown"))]
  }

  /** The keys that name and place the column and give its primary section, depth and FD part. */
  function FcCore(name: string, x: real, y: real, z: real, info: Value, depth: real, fdPart: Dict): (c: Dict)
    ensures Has(c, "x", Num(x)) && Has(c, "y", Num(y)) && Has(c, "z", Num(z))
    ensures Has(c, "section_info", info) && Has(c, "depth", Num(depth)) && Has(c, "fd_section", Dict(fdPart))
    ensures "wr_section" !in c && "floor" !in c
  {
    map["name" := Str(name), "x" := Num(x), "y" := Num(y), "z" := Num(z), "section_info" := info,
        "depth" := Num(depth), "fd_section" := Dict(fdPart)]
  }

  /** The definition with its WR part, when there is one. */
  function WithWr(d: Dict, part: Option<Dict>): (r: Dict)
    ensures part.Some? ==> Has(r, "wr_section", Dict(part.value))
    ensures part.None? ==> r == d
    ensures forall k :: k in d && k != "wr_section" ==> k in r && r[k] == d[k]
  {
    if part.Some? then d["wr_section" := Dict(part.value)] else d
  }

  /** The definition before its optional WR part and floor. */
  function FcBase(e: Element, node: Point, nodeId: string, fd: Option<Dict>, wr: Option<Dict>, rd: Readings): (d: Dict)
    ensures Has(d, "x", Num(node.x + rd.offsetFdX)) && Has(d, "y", Num(node.y + rd.offsetFdY)) && Has(d, "z", Num(node.z))
    ensures Has(d, "section_info", InfoValue(Primary(fd, wr)))
    ensures Has(d, "depth", Num(if Present(wr) then rd.lengthWr else rd.lengthFd))
    ensures Has(d, "fd_section", Dict(FdSection(e, fd, rd)))
    ensures "wr_section" !in d && "floor" !in d
  {
    FcIdent(e, node, nodeId) + FcPrimary(e, fd, wr)
      + FcCore(GetOr(e, "name", "FoundationColumn_" + IdText(e, "id")), node.x + rd.offsetFdX, node.y + rd.offsetFdY, node.z,
        InfoValue(Primary(fd, wr)), if Present(wr) then rd.lengthWr else rd.lengthFd, FdSection(e, fd, rd))
  }

  /** The foundation column definition: the base keys, the WR part when present, and the floor when found. */
  function FcDict(e: Element, node: Point, nodeId: string, fd: Option<Dict>, wr: Option<Dict>, rd: Readings,
                  storyMap: map<string, string>): (d: Dict)
    ensures Has(d, "x", Num(node.x + rd.offsetFdX)) && Has(d, "y", Num(node.y + rd.offsetFdY)) && Has(d, "z", Num(node.z))
    ensures Has(d, "section_info", InfoValue(Primary(fd, wr)))
    ensures Has(d, "depth", Num(if Present(wr) then rd.lengthWr else rd.lengthFd))
    ensures Has(d, "fd_section", Dict(FdSection(e, fd, rd)))
    ensures "wr_section" in d <==> Present(wr)
    ensures Present(wr) ==> d["wr_section"] == Dict(WrSection(e, wr.value, rd))
    ensures StoryFloor(e, storyMap, Some(nodeId)).Some? <==> "floor" in d
    ensures StoryFloor(e, storyMap, Some(nodeId)).Some? ==> d["floor"] == Str(StoryFloor(e, storyMap, Some(nodeId)).value)
  {
    var wrPart := if Present(wr) then Some(WrSection(e, wr.value, rd)) else None;
    WithFloor(WithWr(FcBase(e, node, nodeId, fd, wr, rd), wrPart), StoryFloor(e, storyMap, Some(nodeId)))
  }

  /** The column's node is given and known. */
  predicate NodeKnown(e: Element, nodes: Nodes)
  {
    HasTruthy(e, "id_node") && e.attrs["id_node"] in nodes
  }

  /** The column has a section to be built from: a non-empty FD entry or a known WR section. */
  predicate HasSomeSection(e: Element, sections: map<string, Dict>)
  {
    Present(FdInfo(e, sections)) || WrInfo(e, sections).Some?
  }

  /**
   * `_extract_single_foundation_column`: an unknown node, no section to
   * build from or an unreadable number skips the column; it never raises.
   */
  function SingleFoundationColumn(e: Element, nodes: Nodes, sections: map<string, Dict>, storyMap: map<string, string>): (r: Result<Extracted>)
    ensures r.Ok? && (r.value.Skipped? || r.value.One?)
    ensures !NodeKnown(e, nodes) || !HasSomeSection(e, sections) ==> r == Ok(Skipped)
  {
    if !NodeKnown(e, nodes) then Ok(Skipped)
    else
      var fd := FdInfo(e, sections);
      var wr := WrInfo(e, sections);
      if !Present(fd) && wr.None? then Ok(Skipped)
      else
        match ReadNumbers(e, fd, wr)
        case None => Ok(Skipped)
        case Some(rd) => Ok(One(FcDict(e, nodes[e.attrs["id_node"]], e.attrs["id_node"], fd, wr, rd, storyMap)))
  }

  /**
   * A foundation column is defined exactly when its node is known, it has
   * a section to be built from and its numbers read.
   */
  lemma FoundationColumnDefined(e: Element, nodes: Nodes, sections: map<string, Dict>, storyMap: map<string, string>)
    ensures SingleFoundationColumn(e, nodes, sections, storyMap).value.One? <==>
      NodeKnown(e, nodes) && HasSomeSection(e, sections) && ReadNumbers(e, FdInfo(e, sections), WrInfo(e, sections)).Some?
  {
  }

  /**
   * With a non-empty WR entry the WR section is primary: it is the
   * section_info, the depth is the WR length, and the WR part is kept.
   */
  lemma WallRiseIsPrimary(e: Element, nodes: Nodes, sections: map<string, Dict>, storyMap: map<string, string>)
    requires SingleFoundationColumn(e, nodes, sections, storyMap).value.One?
    requires Present(WrInfo(e, sections))
    ensures var d := SingleFoundationColumn(e, nodes, sections, storyMap).value.def;
      var wr := sections[e.attrs["id_section_WR"]];
      Has(d, "section_info", Dict(wr)) && "wr_section" in d && d["wr_section"].Dict?
      && Has(d["wr_section"].m, "section_info", Dict(wr))
      && Has(d, "depth", Num(ReadNumbers(e, FdInfo(e, sections), WrInfo(e, sections)).value.lengthWr))
  {
  }

  /**
   * Without a WR entry the column is built from its FD section alone: the
   * FD entry is the section_info, the depth is the FD length, and there is
   * no WR part.
   */
  lemma FoundationOnly(e: Element, nodes: Nodes, sections: map<string, Dict>, storyMap: map<string, string>)
    requires SingleFoundationColumn(e, nodes, sections, storyMap).value.One?
    requires WrInfo(e, sections).None?
    ensures var d := SingleFoundationColumn(e, nodes, sections, storyMap).value.def;
      Has(d, "section_info", Dict(sections[e.attrs["id_section_FD"]])) && "wr_section" !in d
      && Has(d, "depth", Num(ReadNumbers(e, FdInfo(e, sections), None).value.lengthFd))
  {
  }

  /** The column stands on its node, moved in plan by the FD offsets only. */
  lemma FoundationColumnPosition(e: Element, nodes: Nodes, sections: map<string, Dict>, storyMap: map<string, string>)
    requires SingleFoundationColumn(e, nodes, sections, storyMap).value.One?
    ensures var d := SingleFoundationColumn(e, nodes, sections, storyMap).value.def;
      var node := nodes[e.attrs["id_node"]];
      var rd := ReadNumbers(e, FdInfo(e, sections), WrInfo(e, sections)).value;
      Has(d, "x", Num(node.x + rd.offsetFdX)) && Has(d, "y", Num(node.y + rd.offsetFdY)) && Has(d, "z", Num(node.z))
  {
    var fd, wr := FdInfo(e, sections), WrInfo(e, sections);
    var id := e.attrs["id_node"];
    assert SingleFoundationColumn(e, nodes, sections, storyMap).value.def
      == FcDict(e, nodes[id], id, fd, wr, ReadNumbers(e, fd, wr).value, storyMap);
  }

  /** The floor key is present exactly when the attribute or the node's story gives one. */
  lemma FoundationColumnFloor(e: Element, nodes: Nodes, sections: map<string, Dict>, storyMap: map<string, string>)
    requires SingleFoundationColumn(e, nodes, sections, storyMap).value.One?
    ensures var d := SingleFoundationColumn(e, nodes, sections, storyMap).value.def;
      var f := StoryFloor(e, storyMap, Some(e.attrs["id_node"]));
      ("floor" in d <==> f.Some?) && (f.Some? ==> d["floor"] == Str(f.value))
  {
  }

  /** The extractor of one foundation column, as the shared element loop calls it. */
  function FoundationColumnSingle(nodes: Nodes, sections: map<string, Dict>): SingleExtractor
  {
    (e, elementType, storyMap) => SingleFoundationColumn(e, nodes, sections, storyMap)
  }

  /** `FoundationColumnExtractor.extract_foundation_columns`. */
  method ExtractFoundationColumns(root: Element, nodes: Nodes, sections: map<string, Dict>) returns (r: Result<seq<Dict>>)
    ensures r == ElementsData(root, FoundationColumnConfig, FoundationColumnSingle(nodes, sections))
  {
    r := ExtractElements(root, FoundationColumnConfig, FoundationColumnSingle(nodes, sections));
  }
}
