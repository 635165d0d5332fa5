/**
 * The girder and beam extractor (stbParser/beam_extractor.py): one
 * definition per beam, or up to three START/CENTER/END segment definitions
 * when its section is a haunch.
 */
module BeamExtractor {
  import opened Wrappers
  import opened Values
  import opened Xml
  import opened NodeExtractor
  import opened ExtractorUtils
  import opened BaseExtractor
  import opened SectionBase

  /** What every definition of one beam shares. */
  datatype BeamCtx = BeamCtx(
    id: Option<string>, name: string, tagId: string, startNode: Option<string>, endNode: Option<string>,
    kind: Option<string>, floor: Option<string>)

  /** The attributes read once per beam; the name defaults to `{beam_type}_{id}`. */
  function Ctx(e: Element, beamType: string, storyMap: map<string, string>): (b: BeamCtx)
    ensures b.name == if "name" in e.attrs then e.attrs["name"] else beamType + "_" + IdText(e, "id")
    ensures b.floor == StoryFloor(e, storyMap, Get(e, "id_node_start"))
  {
    BeamCtx(Get(e, "id"), GetOr(e, "name", beamType + "_" + IdText(e, "id")), IdText(e, "id"),
      Get(e, "id_node_start"), Get(e, "id_node_end"), Get(e, "kind_structure"), StoryFloor(e, storyMap, Get(e, "id_node_start")))
  }

  /** `p + dir * t`, a point `t` along the direction `dir` from `p`. */
  function Along(p: Point, dir: Point, t: real): Point
  {
    Point(p.x + dir.x * t, p.y + dir.y * t, p.z + dir.z * t)
  }

  /**
   * `_calculate_beam_length_and_direction`, with the square root as a
   * parameter: a zero length gives direction (1, 0, 0); otherwise walking
   * the length along the direction reaches the end.
   */
  function LengthAndDirection(s: Point, t: Point, sqrt: real -> real): (r: (real, Point))
    ensures r.0 == 0.0 ==> r.1 == Point(1.0, 0.0, 0.0)
  {
    var dx := t.x - s.x;
    var dy := t.y - s.y;
    var dz := t.z - s.z;
    var len := sqrt(dx * dx + dy * dy + dz * dz);
    if len == 0.0 then (0.0, Point(1.0, 0.0, 0.0))
    else (len, Point(dx / len, dy / len, dz / len))
  }

  /** Walking the computed length along the computed direction leads from the start to the end. */
  lemma LengthAndDirectionReachEnd(s: Point, t: Point, sqrt: real -> real)
    requires LengthAndDirection(s, t, sqrt).0 != 0.0
    ensures Along(s, LengthAndDirection(s, t, sqrt).1, LengthAndDirection(s, t, sqrt).0) == t
  {
    var (len, dir) := LengthAndDirection(s, t, sqrt);
    DivTimes(t.x - s.x, len);
    DivTimes(t.y - s.y, len);
    DivTimes(t.z - s.z, len);
  }

  /** One piece of a haunched beam. */
  datatype Segment = Segment(name: string, from: Point, to: Point)

  /** The part of a length that counts: a non-positive length gives no segment. */
  function Pos(x: real): real { if x > 0.0 then x else 0.0 }

  /**
   * `_calculate_segment_points`: START for a positive start haunch, CENTER
   * for a positive centre, END for a positive end haunch, laid end to end.
   */
  function SegmentPoints(start: Point, dir: Point, hs: real, center: real, he: real): seq<Segment>
  {
    (if hs > 0.0 then [Segment("START", start, Along(start, dir, hs))] else [])
    + (if center > 0.0 then [Segment("CENTER", Along(start, dir, Pos(hs)), Along(start, dir, Pos(hs) + center))] else [])
    + (if he > 0.0 then [Segment("END", Along(start, dir, Pos(hs) + Pos(center)), Along(start, dir, Pos(hs) + Pos(center) + he))] else [])
  }

  function SegmentNames(segs: seq<Segment>): (r: seq<string>)
    ensures |r| == |segs| && forall k :: 0 <= k < |segs| ==> r[k] == segs[k].name
  {
    seq(|segs|, k requires 0 <= k < |segs| => segs[k].name)
  }

  /** Which segments exist: each exactly when its length is positive, in the order START, CENTER, END. */
  lemma SegmentPointsNames(start: Point, dir: Point, hs: real, center: real, he: real)
    ensures SegmentNames(SegmentPoints(start, dir, hs, center, he)) ==
      (if hs > 0.0 then ["START"] else []) + (if center > 0.0 then ["CENTER"] else []) + (if he > 0.0 then ["END"] else [])
  {
    var segs := SegmentPoints(start, dir, hs, center, he);
    var names := (if hs > 0.0 then ["START"] else []) + (if center > 0.0 then ["CENTER"] else []) + (if he > 0.0 then ["END"] else []);
    assert |segs| == |names|;
    forall k | 0 <= k < |segs|
      ensures SegmentNames(segs)[k] == names[k]
    {
    }
  }

  /**
   * The segments are contiguous: the first starts at the start node, each
   * starts where the previous one ends, and the last ends after the total
   * of the positive lengths.
   */
  lemma SegmentsContiguous(start: Point, dir: Point, hs: real, center: real, he: real)
    ensures var segs := SegmentPoints(start, dir, hs, center, he);
      (|segs| > 0 ==> segs[0].from == start)
      && (forall k :: 0 < k < |segs| ==> segs[k].from == segs[k - 1].to)
      && (|segs| > 0 ==> segs[|segs| - 1].to == Along(start, dir, Pos(hs) + Pos(center) + Pos(he)))
  {
    assert Along(start, dir, 0.0) == start;
    assert Pos(hs) + 0.0 == Pos(hs);
  }

  /**
   * With non-negative haunches shorter than the beam, the segments cover it
   * exactly: the last one ends at the (offset) end node.
   */
  lemma SegmentsReachEnd(s: Point, t: Point, sqrt: real -> real, hs: real, he: real)
    requires hs >= 0.0 && he >= 0.0
    requires LengthAndDirection(s, t, sqrt).0 > hs + he
    ensures var (total, dir) := LengthAndDirection(s, t, sqrt);
      var segs := SegmentPoints(s, dir, hs, total - hs - he, he);
      |segs| > 0 && segs[|segs| - 1].to == t
  {
    var (total, dir) := LengthAndDirection(s, t, sqrt);
    LengthAndDirectionReachEnd(s, t, sqrt);
    SegmentsContiguous(s, dir, hs, total - hs - he, he);
    assert Pos(hs) + Pos(total - hs - he) + Pos(he) == total;
  }

  /**
   * The section of one segment: its own entry, or for a CENTER without one
   * the START entry when the start haunch is zero, else the END entry when
   * the end haunch is zero; otherwise the segment is skipped.
   */
  function SegmentSection(name: string, hsecs: Dict, hs: real, he: real): (r: Option<Value>)
    ensures name in hsecs ==> r == Some(hsecs[name])
    ensures name !in hsecs && name != "CENTER" ==> r.None?
    ensures r.Some? ==> r.value in hsecs.Values
  {
    if name in hsecs then Some(hsecs[name])
    else if name != "CENTER" then None
    else if hs == 0.0 && "START" in hsecs then Some(hsecs["START"])
    else if he == 0.0 && "END" in hsecs then Some(hsecs["END"])
    else None
  }

  /** A CENTER without its own section borrows START when there is no start haunch. */
  lemma CenterBorrowsStart(hsecs: Dict, he: real)
    requires "CENTER" !in hsecs && "START" in hsecs
    ensures SegmentSection("CENTER", hsecs, 0.0, he) == Some(hsecs["START"])
  {
  }

  /** ... and otherwise END when there is no end haunch, and nothing when neither applies. */
  lemma CenterBorrowsEnd(hsecs: Dict, hs: real)
    requires "CENTER" !in hsecs && "END" in hsecs && (hs != 0.0 || "START" !in hsecs)
    ensures SegmentSection("CENTER", hsecs, hs, 0.0) == Some(hsecs["END"])
  {
  }

  /** `section.get("stb_name", "Unknown")`. */
  function StbNameOf(v: Value): Value
  {
    if v.Dict? && "stb_name" in v.m then v.m["stb_name"] else Str("Unknown")
  }

  /** The keys of a segment definition that carry its geometry and its place in the beam. */
  function SegmentCore(seg: Segment, section: Value, i: nat): (c: Dict)
    ensures Has(c, "start_point", PointValue(seg.from)) && Has(c, "end_point", PointValue(seg.to))
    ensures Has(c, "section", section) && Has(c, "stb_segment_type", Str(seg.name)) && Has(c, "stb_segment_index", Num(i as real))
    ensures "name" !in c && "tag" !in c && "stb_guid" !in c && "stb_original_guid" !in c && "floor" !in c
  {
    map["start_point" := PointValue(seg.from), "end_point" := PointValue(seg.to), "section" := section,
        "stb_segment_type" := Str(seg.name), "stb_segment_index" := Num(i as real)]
  }

  /** The keys of a segment definition that name it. */
  function SegmentIdent(b: BeamCtx, guid: string, seg: Segment, i: nat, segmentGuid: (string, string, nat) -> string): (c: Dict)
    ensures Has(c, "name", Str(b.name + "_" + seg.name)) && Has(c, "tag", Str("STB_G_" + b.tagId + "_" + seg.name))
    ensures Has(c, "stb_guid", Str(segmentGuid(guid, seg.name, i))) && Has(c, "stb_original_guid", Str(guid))
    ensures "floor" !in c
  {
    map["name" := Str(b.name + "_" + seg.name), "tag" := Str("STB_G_" + b.tagId + "_" + seg.name),
        "stb_guid" := Str(segmentGuid(guid, seg.name, i)), "stb_original_guid" := Str(guid)]
  }

  /** The remaining keys, copied from the beam element and its section. */
  function SegmentMeta(b: BeamCtx, section: Value): (c: Dict)
    ensures "floor" !in c
  {
    map["start_node_id" := OptStr(b.startNode), "end_node_id" := OptStr(b.endNode), "stb_original_id" := OptStr(b.id),
        "stb_section_name" := StbNameOf(section), "stb_structure_type" := OptStr(b.kind)]
  }

  /** A segment definition; `segmentGuid` stands for the uuid5 of `{guid}_{segment}_{index}`. */
  function SegmentDict(b: BeamCtx, guid: string, seg: Segment, section: Value, i: nat, segmentGuid: (string, string, nat) -> string): (d: Dict)
    ensures Has(d, "name", Str(b.name + "_" + seg.name)) && Has(d, "tag", Str("STB_G_" + b.tagId + "_" + seg.name))
    ensures Has(d, "start_point", PointValue(seg.from)) && Has(d, "end_point", PointValue(seg.to))
    ensures Has(d, "section", section) && Has(d, "stb_segment_type", Str(seg.name)) && Has(d, "stb_segment_index", Num(i as real))
    ensures Has(d, "stb_guid", Str(segmentGuid(guid, seg.name, i))) && Has(d, "stb_original_guid", Str(guid))
    ensures b.floor.Some? <==> "floor" in d
    ensures b.floor.Some? ==> d["floor"] == Str(b.floor.value)
  {
    WithFloor(SegmentMeta(b, section) + SegmentIdent(b, guid, seg, i, segmentGuid) + SegmentCore(seg, section, i), b.floor)
  }

  /** Chooses a segment's section by its name. */
  type SectionPick = string -> Option<Value>

  /** Builds a segment's definition from the segment, its section and its index. */
  type SegmentMaker = (Segment, Value, nat) -> Dict

  function Pick(hsecs: Dict, hs: real, he: real): SectionPick
  {
    name => SegmentSection(name, hsecs, hs, he)
  }

  function Maker(b: BeamCtx, guid: string, segmentGuid: (string, string, nat) -> string): SegmentMaker
  {
    (seg: Segment, section: Value, i: nat) => SegmentDict(b, guid, seg, section, i, segmentGuid)
  }

  /** The definitions of the segments `segs`; a segment keeps its index in `segs` even when earlier ones were skipped. */
  function SegmentDefs(segs: seq<Segment>, pick: SectionPick, make: SegmentMaker): seq<Dict>
  {
    if segs == [] then []
    else
      var i := |segs| - 1;
      var front := SegmentDefs(segs[..i], pick, make);
      match pick(segs[i].name)
      case None => front
      case Some(section) => front + [make(segs[i], section, i)]
  }

  /** Every segment with a section gives its definition. */
  lemma {:induction false} SegmentDefsHas(segs: seq<Segment>, pick: SectionPick, make: SegmentMaker, k: nat)
    requires k < |segs| && pick(segs[k].name).Some?
    ensures make(segs[k], pick(segs[k].name).value, k) in SegmentDefs(segs, pick, make)
    decreases |segs|
  {
    var i := |segs| - 1;
    if k < i {
      SegmentDefsHas(segs[..i], pick, make, k);
      assert segs[..i][k] == segs[k];
    }
  }

  /** Every definition is that of one segment with a section, under its index. */
  lemma {:induction false} SegmentDefsFrom(segs: seq<Segment>, pick: SectionPick, make: SegmentMaker, d: Dict)
    requires d in SegmentDefs(segs, pick, make)
    ensures exists k :: (0 <= k < |segs| && pick(segs[k].name).Some? && d == make(segs[k], pick(segs[k].name).value, k))
    decreases |segs|
  {
    var i := |segs| - 1;
    var front := SegmentDefs(segs[..i], pick, make);
    if d in front {
      SegmentDefsFrom(segs[..i], pick, make, d);
      var k :| 0 <= k < i && pick(segs[..i][k].name).Some? && d == make(segs[..i][k], pick(segs[..i][k].name).value, k);
      assert segs[..i][k] == segs[k];
    }
  }

  lemma SegmentDefsSnoc(segs: seq<Segment>, pick: SectionPick, make: SegmentMaker, i: nat)
    requires i < |segs|
    ensures SegmentDefs(segs[..i + 1], pick, make) ==
      match pick(segs[i].name)
      case None => SegmentDefs(segs[..i], pick, make)
      case Some(section) => SegmentDefs(segs[..i], pick, make) + [make(segs[i], section, i)]
  {
    assert segs[..i + 1][..i] == segs[..i];
  }

  /** The loop of `_create_haunch_beam_definitions` over the segments. */
  method BuildSegmentDefs(segs: seq<Segment>, pick: SectionPick, make: SegmentMaker) returns (defs: seq<Dict>)
    ensures defs == SegmentDefs(segs, pick, make)
  {
    defs := [];
    var i := 0;
    while i < |segs|
      invariant 0 <= i <= |segs|
      invariant defs == SegmentDefs(segs[..i], pick, make)
    {
      SegmentDefsSnoc(segs, pick, make, i);
      var section := pick(segs[i].name);
      if section.Some? {
        defs := defs + [make(segs[i], section.value, i)];
      }
      i := i + 1;
    }
    assert segs[..i] == segs;
  }

  /** `section_info["haunch_sections"]`: a KeyError when the key is missing. */
  function HaunchSections(info: Dict): (r: Result<Dict>)
    ensures "haunch_sections" !in info ==> r.Err?
    ensures "haunch_sections" in info && info["haunch_sections"].Dict? ==> r == Ok(info["haunch_sections"].m)
  {
    if "haunch_sections" !in info then Err(KeyError("haunch_sections"))
    else if info["haunch_sections"].Dict? then Ok(info["haunch_sections"].m)
    else Err(ValueError("haunch_sections"))
  }

  /**
   * `_create_haunch_beam_definitions`: the haunch lengths (default 0) and the
   * offset ends are read, and a beam not longer than its two haunches gives
   * no definition.
   */
  function HaunchDefs(e: Element, nodes: Nodes, info: Dict, b: BeamCtx, sqrt: real -> real, segmentGuid: (string, string, nat) -> string): Result<seq<Dict>>
  {
    match OffsetAttr(e, "haunch_start")
    case Err(err) => Err(err)
    case Ok(hs) =>
      match OffsetAttr(e, "haunch_end")
      case Err(err) => Err(err)
      case Ok(he) =>
        match StartEndOffsets(e, nodes)
        case Err(err) => Err(err)
        case Ok(ends) =>
          match HaunchSections(info)
          case Err(err) => Err(err)
          case Ok(hsecs) =>
            var (total, dir) := LengthAndDirection(ends.0, ends.1, sqrt);
            if total <= hs + he then Ok([])
            else Ok(SegmentDefs(SegmentPoints(ends.0, dir, hs, total - hs - he, he), Pick(hsecs, hs, he), Maker(b, GetOr(e, "guid", ""), segmentGuid)))
  }

  /** A beam not longer than its two haunches together gives no definition. */
  lemma HaunchTooShort(e: Element, nodes: Nodes, info: Dict, b: BeamCtx, sqrt: real -> real, segmentGuid: (string, string, nat) -> string,
                       hs: real, he: real, ends: (Point, Point))
    requires OffsetAttr(e, "haunch_start") == Ok(hs) && OffsetAttr(e, "haunch_end") == Ok(he)
    requires StartEndOffsets(e, nodes) == Ok(ends) && HaunchSections(info).Ok?
    requires LengthAndDirection(ends.0, ends.1, sqrt).0 <= hs + he
    ensures HaunchDefs(e, nodes, info, b, sqrt, segmentGuid) == Ok([])
  {
  }

  /** The keys of a plain beam definition that name it and place it. */
  function NormalCore(b: BeamCtx, s: Point, t: Point): (c: Dict)
    ensures Has(c, "name", Str(b.name)) && Has(c, "tag", Str("STB_G_" + b.tagId))
    ensures Has(c, "start_point", PointValue(s)) && Has(c, "end_point", PointValue(t))
    ensures "section" !in c && "section_start" !in c && "section_end" !in c && "floor" !in c
  {
    map["name" := Str(b.name), "tag" := Str("STB_G_" + b.tagId), "start_point" := PointValue(s), "end_point" := PointValue(t)]
  }

  /** The remaining keys, copied from the beam element and its section. */
  function NormalMeta(b: BeamCtx, guid: Option<string>, stbName: Value): (c: Dict)
    ensures "section" !in c && "section_start" !in c && "section_end" !in c && "floor" !in c
  {
    map["start_node_id" := OptStr(b.startNode), "end_node_id" := OptStr(b.endNode), "stb_original_id" := OptStr(b.id),
        "stb_guid" := OptStr(guid), "stb_section_name" := stbName, "stb_structure_type" := OptStr(b.kind)]
  }

  /** `_create_normal_beam_definition` before the section keys. */
  function NormalDict(b: BeamCtx, s: Point, t: Point, guid: Option<string>, stbName: Value): (d: Dict)
    ensures Has(d, "name", Str(b.name)) && Has(d, "tag", Str("STB_G_" + b.tagId))
    ensures Has(d, "start_point", PointValue(s)) && Has(d, "end_point", PointValue(t))
    ensures "section" !in d && "section_start" !in d && "section_end" !in d
    ensures b.floor.Some? <==> "floor" in d
    ensures b.floor.Some? ==> d["floor"] == Str(b.floor.value)
  {
    WithFloor(NormalMeta(b, guid, stbName) + NormalCore(b, s, t), b.floor)
  }

  /** The one definition of a beam whose section is not a haunch. */
  function NormalDef(e: Element, nodes: Nodes, info: Dict, b: BeamCtx): (r: Result<Dict>)
    ensures r.Ok? <==> StartEndOffsets(e, nodes).Ok?
  {
    match StartEndOffsets(e, nodes)
    case Err(err) => Err(err)
    case Ok(ends) => Ok(WithSections(NormalDict(b, ends.0, ends.1, Get(e, "guid"), LookupOr(info, "stb_name", Str("Unknown"))), info, "section_start", "section_end"))
  }

  /** The section is a haunch (HAUNCH or HAUNCH_FIVE). */
  predicate IsHaunch(info: Dict)
  {
    "section_type" in info && info["section_type"] in {Str("HAUNCH"), Str("HAUNCH_FIVE")}
  }

  /** The references `_validate_beam_data` checks. */
  predicate BeamRefsValid(e: Element, nodes: Nodes, sections: map<string, Dict>)
  {
    ValidateElementData([Get(e, "id_node_start"), Get(e, "id_node_end")], [Get(e, "id_section")], nodes, sections)
  }

  /** Once the references are valid the section id is always found, so the lookup by shape name never runs. */
  lemma ShapeFallbackUnreachable(e: Element, nodes: Nodes, sections: map<string, Dict>)
    requires BeamRefsValid(e, nodes, sections)
    ensures "id_section" in e.attrs && e.attrs["id_section"] in sections
    ensures "id_node_start" in e.attrs && e.attrs["id_node_start"] in nodes && "id_node_end" in e.attrs && e.attrs["id_node_end"] in nodes
  {
    ValidateElementDataIff([Get(e, "id_node_start"), Get(e, "id_node_end")], [Get(e, "id_section")], nodes, sections);
    assert [Get(e, "id_section")][0] == Get(e, "id_section");
    assert [Get(e, "id_node_start"), Get(e, "id_node_end")][1] == Get(e, "id_node_end");
  }

  /**
   * `_extract_single_beam`: `float(rotate)` may raise before anything else;
   * invalid references give no definition; a haunch section gives its
   * segments and any other section one definition.
   */
  function SingleBeam(e: Element, beamType: string, nodes: Nodes, sections: map<string, Dict>, storyMap: map<string, string>,
                      sqrt: real -> real, segmentGuid: (string, string, nat) -> string): Result<Extracted>
  {
    match OffsetAttr(e, "rotate")
    case Err(err) => Err(err)
    case Ok(_) =>
      if !BeamRefsValid(e, nodes, sections) then Ok(Many([]))
      else
        ShapeFallbackUnreachable(e, nodes, sections);
        var info := sections[e.attrs["id_section"]];
        var b := Ctx(e, beamType, storyMap);
        if IsHaunch(info) then
          match HaunchDefs(e, nodes, info, b, sqrt, segmentGuid)
          case Err(err) => Err(err)
          case Ok(defs) => Ok(Many(defs))
        else
          match NormalDef(e, nodes, info, b)
          case Err(err) => Err(err)
          case Ok(d) => Ok(Many([d]))
  }

  /** Invalid node or section references give an empty list (after the rotate attribute was read). */
  lemma InvalidRefsGiveNothing(e: Element, beamType: string, nodes: Nodes, sections: map<string, Dict>, storyMap: map<string, string>,
                               sqrt: real -> real, segmentGuid: (string, string, nat) -> string)
    requires OffsetAttr(e, "rotate").Ok?
    requires "id_section" !in e.attrs || e.attrs["id_section"] !in sections
    ensures SingleBeam(e, beamType, nodes, sections, storyMap, sqrt, segmentGuid) == Ok(Many([]))
  {
    if BeamRefsValid(e, nodes, sections) {
      ShapeFallbackUnreachable(e, nodes, sections);
    }
  }

  /**
   * A beam whose section is not a haunch gives exactly one definition: its
   * offset ends, its floor, and its section under section or
   * section_start/section_end.
   */
  lemma NormalBeamDef(e: Element, beamType: string, nodes: Nodes, sections: map<string, Dict>, storyMap: map<string, string>,
                      sqrt: real -> real, segmentGuid: (string, string, nat) -> string)
    requires OffsetAttr(e, "rotate").Ok? && BeamRefsValid(e, nodes, sections)
    requires "id_section" in e.attrs && e.attrs["id_section"] in sections && !IsHaunch(sections[e.attrs["id_section"]])
    requires StartEndOffsets(e, nodes).Ok?
    ensures var r := SingleBeam(e, beamType, nodes, sections, storyMap, sqrt, segmentGuid);
      var info := sections[e.attrs["id_section"]];
      var ends := StartEndOffsets(e, nodes).value;
      r.Ok? && r.value.Many? && |r.value.defs| == 1
      && Has(r.value.defs[0], "start_point", PointValue(ends.0)) && Has(r.value.defs[0], "end_point", PointValue(ends.1))
      && (StoryFloor(e, storyMap, Get(e, "id_node_start")).Some? <==> "floor" in r.value.defs[0])
      && ("start_section" in info && "end_section" in info ==> Has(r.value.defs[0], "section_start", info["start_section"]) && Has(r.value.defs[0], "section_end", info["end_section"]))
      && (!("start_section" in info && "end_section" in info) ==> Has(r.value.defs[0], "section", Dict(info)))
  {
    var info := sections[e.attrs["id_section"]];
    var b := Ctx(e, beamType, storyMap);
    var ends := StartEndOffsets(e, nodes).value;
    assert NormalDef(e, nodes, info, b) == Ok(WithSections(NormalDict(b, ends.0, ends.1, Get(e, "guid"), LookupOr(info, "stb_name", Str("Unknown"))), info, "section_start", "section_end"));
    NormalDefShape(b, ends.0, ends.1, Get(e, "guid"), LookupOr(info, "stb_name", Str("Unknown")), info);
  }

  /** The plain definition keeps its points and floor whichever section keys it receives. */
  lemma NormalDefShape(b: BeamCtx, s: Point, t: Point, guid: Option<string>, stbName: Value, info: Dict)
    ensures var w := WithSections(NormalDict(b, s, t, guid, stbName), info, "section_start", "section_end");
      Has(w, "start_point", PointValue(s)) && Has(w, "end_point", PointValue(t)) && (b.floor.Some? <==> "floor" in w)
  {
    var d := NormalDict(b, s, t, guid, stbName);
    WithSectionsKeeps(d, info, "section_start", "section_end", "start_point");
    WithSectionsKeeps(d, info, "section_start", "section_end", "end_point");
    WithSectionsKeeps(d, info, "section_start", "section_end", "floor");
  }

  /** The extractor of one beam, as the shared element loop calls it. */
  function BeamSingle(nodes: Nodes, sections: map<string, Dict>, sqrt: real -> real, segmentGuid: (string, string, nat) -> string): SingleExtractor
  {
    (e, beamType, storyMap) => SingleBeam(e, beamType, nodes, sections, storyMap, sqrt, segmentGuid)
  }

  /** `BeamExtractor.extract_beams`: girders, then beams. */
  method ExtractBeams(root: Element, nodes: Nodes, sections: map<string, Dict>, sqrt: real -> real, segmentGuid: (string, string, nat) -> string)
    returns (r: Result<seq<Dict>>)
    ensures r == ElementsData(root, BeamConfig, BeamSingle(nodes, sections, sqrt, segmentGuid))
  {
    r := ExtractElements(root, BeamConfig, BeamSingle(nodes, sections, sqrt, segmentGuid));
  }
}
