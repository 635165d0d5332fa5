/**
 * The wall extractor (stbParser/wall_extractor.py): one definition per wall
 * from its ordered corner nodes, moved by the wall's node offsets, with
 * the wall's direction, length, height and openings.
 */
module WallExtractor {
  import opened Wrappers
  import opened Values
  import opened Xml
  import Strs
  import opened NodeExtractor
  import opened ExtractorUtils
  import opened BaseExtractor
  import opened SectionBase
  import opened SurfaceNodes

  // ---------------------------------------------------------------- direction

  /** A plan edge: its x and y extent and its length. */
  datatype Edge = Edge(dx: real, dy: real, len: real)

  /** The plan edge from `a` to `b`; `sqrt` is the square root `** 0.5` computes. */
  function EdgeFrom(a: Point, b: Point, sqrt: real -> real): Edge
  {
    var dx := b.x - a.x;
    var dy := b.y - a.y;
    Edge(dx, dy, sqrt(dx * dx + dy * dy))
  }

  /** The edge from bottom corner `i` to the next one, the last closing back to the first. */
  function EdgeAt(b: seq<Point>, i: nat, sqrt: real -> real): Edge
    requires |b| == 4 && i < 4
  {
    EdgeFrom(b[i], b[(i + 1) % 4], sqrt)
  }

  /** The edges among the first `n` whose length is positive, in order. */
  function KeptEdges(b: seq<Point>, n: nat, sqrt: real -> real): (r: seq<Edge>)
    requires |b| == 4 && n <= 4
    ensures |r| <= n && forall k :: 0 <= k < |r| ==> r[k].len > 0.0
  {
    if n == 0 then []
    else
      var e := EdgeAt(b, n - 1, sqrt);
      KeptEdges(b, n - 1, sqrt) + (if e.len > 0.0 then [e] else [])
  }

  /** Every edge of positive length is kept. */
  lemma {:induction false} PositiveEdgeKept(b: seq<Point>, n: nat, sqrt: real -> real, i: nat)
    requires |b| == 4 && i < n <= 4 && EdgeAt(b, i, sqrt).len > 0.0
    ensures EdgeAt(b, i, sqrt) in KeptEdges(b, n, sqrt)
    decreases n
  {
    if i < n - 1 {
      PositiveEdgeKept(b, n - 1, sqrt, i);
    }
  }

  /** The edge loop of `_extract_single_wall`. */
  method BottomEdges(b: seq<Point>, sqrt: real -> real) returns (edges: seq<Edge>)
    requires |b| == 4
    ensures edges == KeptEdges(b, 4, sqrt)
  {
    edges := [];
    var i := 0;
    while i < 4
      invariant 0 <= i <= 4
      invariant edges == KeptEdges(b, i, sqrt)
    {
      var e := EdgeAt(b, i, sqrt);
      if e.len > 0.0 {
        edges := edges + [e];
      }
      i := i + 1;
    }
  }

  /** `max(edges, key=length)`: a longest edge, the first of several. */
  function Longest(es: seq<Edge>): (r: Edge)
    requires |es| > 0
    ensures r in es && forall k :: 0 <= k < |es| ==> es[k].len <= r.len
  {
    if |es| == 1 then es[0]
    else
      var m := Longest(es[..|es| - 1]);
      assert forall k :: 0 <= k < |es| - 1 ==> es[..|es| - 1][k] == es[k];
      if es[|es| - 1].len > m.len then es[|es| - 1] else m
  }

  /** Of several longest edges, `max` returns the first. */
  lemma {:induction false} LongestIsFirst(es: seq<Edge>)
    requires |es| > 0
    ensures exists k :: 0 <= k < |es| && es[k] == Longest(es) && forall j :: 0 <= j < k ==> es[j].len < Longest(es).len
    decreases |es|
  {
    if |es| > 1 {
      var front := es[..|es| - 1];
      LongestIsFirst(front);
      var k :| 0 <= k < |front| && front[k] == Longest(front) && forall j :: 0 <= j < k ==> front[j].len < Longest(front).len;
      if es[|es| - 1].len > Longest(front).len {
        forall j | 0 <= j < |es| - 1
          ensures es[j].len < Longest(es).len
        {
          assert front[j] == es[j];
        }
        assert es[|es| - 1] == Longest(es);
      } else {
        assert es[k] == front[k];
        assert forall j :: 0 <= j < k ==> es[j] == front[j];
        assert es[k] == Longest(es);
      }
    } else {
      assert es[0] == Longest(es);
    }
  }

  /**
   * The edge that gives the wall its direction and length: the longest
   * bottom edge, or when every edge is degenerate the longer diagonal (the
   * second one when they are equal).
   */
  function DirectionEdge(b: seq<Point>, sqrt: real -> real): Edge
    requires |b| == 4
  {
    var edges := KeptEdges(b, 4, sqrt);
    if edges != [] then Longest(edges)
    else
      var d1 := EdgeFrom(b[0], b[2], sqrt);
      var d2 := EdgeFrom(b[1], b[3], sqrt);
      if d1.len > d2.len then d1 else d2
  }

  /** The wall length is positive and no shorter than any bottom edge, unless every edge is degenerate. */
  lemma DirectionEdgeLongest(b: seq<Point>, sqrt: real -> real)
    requires |b| == 4
    ensures KeptEdges(b, 4, sqrt) != [] ==> (DirectionEdge(b, sqrt).len > 0.0
      && forall i :: 0 <= i < 4 && EdgeAt(b, i, sqrt).len > 0.0 ==> EdgeAt(b, i, sqrt).len <= DirectionEdge(b, sqrt).len)
    ensures KeptEdges(b, 4, sqrt) == [] ==>
      ((DirectionEdge(b, sqrt) == EdgeFrom(b[0], b[2], sqrt) || DirectionEdge(b, sqrt) == EdgeFrom(b[1], b[3], sqrt))
      && EdgeFrom(b[0], b[2], sqrt).len <= DirectionEdge(b, sqrt).len && EdgeFrom(b[1], b[3], sqrt).len <= DirectionEdge(b, sqrt).len)
  {
    var edges := KeptEdges(b, 4, sqrt);
    if edges != [] {
      forall i | 0 <= i < 4 && EdgeAt(b, i, sqrt).len > 0.0
        ensures EdgeAt(b, i, sqrt).len <= DirectionEdge(b, sqrt).len
      {
        PositiveEdgeKept(b, 4, sqrt, i);
      }
    }
  }

  /** The horizontal unit direction of an edge; (1, 0, 0) when its length is not positive. */
  function Direction(e: Edge): (d: Point)
    ensures e.len <= 0.0 ==> d == Point(1.0, 0.0, 0.0)
  {
    if e.len > 0.0 then Point(e.dx / e.len, e.dy / e.len, 0.0) else Point(1.0, 0.0, 0.0)
  }

  /** The direction is horizontal, and scaled by the length it gives back the edge. */
  lemma DirectionScalesToEdge(e: Edge)
    requires e.len > 0.0
    ensures Direction(e).z == 0.0 && Direction(e).x * e.len == e.dx && Direction(e).y * e.len == e.dy
  {
    DivTimes(e.dx, e.len);
    DivTimes(e.dy, e.len);
  }

  // ---------------------------------------------------------------- height

  function Abs(x: real): (r: real)
    ensures r >= 0.0 && (r == x || r == -x)
  {
    if x < 0.0 then -x else x
  }

  /**
   * The wall height: with eight or more nodes the rise from node 0 to node
   * 4, with six or seven the rise to node 3, otherwise the spread of all
   * the heights.
   */
  function WallHeight(c: seq<Point>): (h: real)
    requires |c| >= 4
    ensures h >= 0.0
    ensures |c| >= 8 ==> h == c[4].z - c[0].z || h == c[0].z - c[4].z
    ensures 6 <= |c| < 8 ==> h == c[3].z - c[0].z || h == c[0].z - c[3].z
    ensures |c| < 6 ==> h == MaxOf(Zs(c)) - MinOf(Zs(c))
  {
    if |c| >= 8 then Abs(c[4].z - c[0].z)
    else if |c| >= 6 then Abs(c[3].z - c[0].z)
    else Extent(Zs(c))
  }

  /** With four or five nodes, no two nodes differ in height by more than the wall height. */
  lemma FewNodesHeightCovers(c: seq<Point>, i: nat, j: nat)
    requires 4 <= |c| < 6 && i < |c| && j < |c|
    ensures c[i].z - c[j].z <= WallHeight(c)
  {
    assert Zs(c)[i] == c[i].z && Zs(c)[j] == c[j].z;
  }

  // ---------------------------------------------------------------- openings

  /** `float(elem.get(name, 0))` on an opening; an unreadable value fails the opening. */
  function OpeningNum(o: Element, name: string): Result<real>
  {
    OffsetAttr(o, name)
  }

  /** The opening's dictionary: position relative to the reference node, size and rotation. */
  function OpeningDict(o: Element, ref: Point, px: real, py: real, lx: real, ly: real, rot: real): (d: Dict)
    ensures Has(d, "id", OptStr(Get(o, "id"))) && Has(d, "rotation", Num(rot))
    ensures Has(d, "position", PointValue(Point(ref.x + px, ref.y, ref.z + py)))
    ensures Has(d, "dimensions", Dict(map["width" := Num(lx), "height" := Num(ly)]))
  {
    map["id" := OptStr(Get(o, "id")), "guid" := OptStr(Get(o, "guid")),
        "position" := PointValue(Point(ref.x + px, ref.y, ref.z + py)),
        "relative_position" := Dict(map["x" := Num(px), "y" := Num(py)]),
        "dimensions" := Dict(map["width" := Num(lx), "height" := Num(ly)]), "rotation" := Num(rot)]
  }

  /**
   * `_parse_opening`: the opening is placed at the reference node moved
   * along x by position_X and up by position_Y; an unreadable number gives
   * None.
   */
  function ParseOpening(o: Element, ref: Point): (r: Option<Dict>)
    ensures r.Some? <==> (OpeningNum(o, "position_X").Ok? && OpeningNum(o, "position_Y").Ok?
      && OpeningNum(o, "length_X").Ok? && OpeningNum(o, "length_Y").Ok? && OpeningNum(o, "rotate").Ok?)
    ensures r.Some? ==> (Has(r.value, "id", OptStr(Get(o, "id")))
      && Has(r.value, "position", PointValue(Point(ref.x + OpeningNum(o, "position_X").value, ref.y, ref.z + OpeningNum(o, "position_Y").value))))
  {
    var px := OpeningNum(o, "position_X");
    var py := OpeningNum(o, "position_Y");
    var lx := OpeningNum(o, "length_X");
    var ly := OpeningNum(o, "length_Y");
    var rot := OpeningNum(o, "rotate");
    if px.Ok? && py.Ok? && lx.Ok? && ly.Ok? && rot.Ok? then Some(OpeningDict(o, ref, px.value, py.value, lx.value, ly.value, rot.value))
    else None
  }

  /** The opening's id is one of the wall's open ids. */
  predicate Listed(o: Element, ids: seq<string>)
  {
    "id" in o.attrs && o.attrs["id"] in ids
  }

  /** The openings among `opens` whose id is listed and which parse, in document order. */
  function OpeningsOf(opens: seq<Element>, ids: seq<string>, ref: Point): (r: seq<Dict>)
    ensures forall k :: 0 <= k < |r| ==> "id" in r[k] && r[k]["id"].Str? && r[k]["id"].s in ids
  {
    if opens == [] then []
    else
      var o := opens[|opens| - 1];
      var p := ParseOpening(o, ref);
      OpeningsOf(opens[..|opens| - 1], ids, ref) + (if Listed(o, ids) && p.Some? then [p.value] else [])
  }

  /** Every listed opening that parses is among the wall's openings. */
  lemma {:induction false} ListedOpeningKept(opens: seq<Element>, ids: seq<string>, ref: Point, i: nat)
    requires i < |opens| && Listed(opens[i], ids) && ParseOpening(opens[i], ref).Some?
    ensures ParseOpening(opens[i], ref).value in OpeningsOf(opens, ids, ref)
    decreases |opens|
  {
    if i < |opens| - 1 {
      var front := opens[..|opens| - 1];
      assert front[i] == opens[i];
      ListedOpeningKept(front, ids, ref, i);
    }
  }

  /** The loop over StbOpen elements of `_extract_wall_openings`. */
  method CollectOpenings(opens: seq<Element>, ids: seq<string>, ref: Point) returns (r: seq<Dict>)
    ensures r == OpeningsOf(opens, ids, ref)
  {
    r := [];
    var i := 0;
    while i < |opens|
      invariant 0 <= i <= |opens|
      invariant r == OpeningsOf(opens[..i], ids, ref)
    {
      assert opens[..i + 1][..i] == opens[..i];
      var o := opens[i];
      if Listed(o, ids) {
        var p := ParseOpening(o, ref);
        if p.Some? {
          r := r + [p.value];
        }
      }
      i := i + 1;
    }
    assert opens[..i] == opens;
  }

  /**
   * `_extract_wall_openings`: the openings named by the wall's StbOpenIdList
   * among the document's StbOpens; none without the list, without a
   * non-empty id in it or without StbOpens.
   */
  function WallOpenings(root: Element, wall: Element, ref: Point): (r: seq<Dict>)
    ensures Child(wall, "StbOpenIdList").None? ==> r == []
  {
    match Child(wall, "StbOpenIdList")
    case None => []
    case Some(l) =>
      var ids := TruthyIds(Children(l, "StbOpenId"));
      if ids == [] then []
      else
        match Below(root, "StbOpens")
        case None => []
        case Some(so) => OpeningsOf(Children(so, "StbOpen"), ids, ref)
  }

  /** Every opening of a wall is one its StbOpenIdList names. */
  lemma OpeningsAreListed(root: Element, wall: Element, ref: Point, k: nat)
    requires k < |WallOpenings(root, wall, ref)|
    ensures var l := Child(wall, "StbOpenIdList");
      l.Some? && "id" in WallOpenings(root, wall, ref)[k] && WallOpenings(root, wall, ref)[k]["id"].Str?
      && exists i :: (0 <= i < |Children(l.value, "StbOpenId")| && HasTruthy(Children(l.value, "StbOpenId")[i], "id")
        && Children(l.value, "StbOpenId")[i].attrs["id"] == WallOpenings(root, wall, ref)[k]["id"].s)
  {
    var l := Child(wall, "StbOpenIdList").value;
    var d := WallOpenings(root, wall, ref)[k];
    TruthyIdsSpec(Children(l, "StbOpenId"), d["id"].s);
  }

  /** `WallExtractor._extract_wall_openings`. */
  method ExtractWallOpenings(root: Element, wall: Element, ref: Point) returns (r: seq<Dict>)
    ensures r == WallOpenings(root, wall, ref)
  {
    var l := Child(wall, "StbOpenIdList");
    if l.None? {
      return [];
    }
    var ids := TruthyIds(Children(l.value, "StbOpenId"));
    if ids == [] {
      return [];
    }
    var so := Below(root, "StbOpens");
    if so.None? {
      return [];
    }
    r := CollectOpenings(Children(so.value, "StbOpen"), ids, ref);
  }

  // ---------------------------------------------------------------- the definition

  /** The wall's section: a copy of the section entry given a length and a height unless it has them. */
  function WallSection(info: Dict, length: real, height: real): (s: Dict)
    ensures Has(s, "length", if "length" in info then info["length"] else Num(length))
    ensures Has(s, "height", if "height" in info then info["height"] else Num(height))
    ensures forall k :: k in info ==> Has(s, k, info[k])
  {
    SetDefault(SetDefault(info, "length", Num(length)), "height", Num(height))
  }

  /** Definitions held in a list. */
  function DictValues(ds: seq<Dict>): (r: seq<Value>)
    ensures |r| == |ds| && forall i :: 0 <= i < |ds| ==> r[i] == Dict(ds[i])
  {
    seq(|ds|, i requires 0 <= i < |ds| => Dict(ds[i]))
  }

  /** The keys that name the wall and place it. */
  function WallCore(name: string, tagId: string, center: Point, direction: Point, section: Dict): (c: Dict)
    ensures Has(c, "name", Str(name)) && Has(c, "tag", Str("WL_" + tagId))
    ensures Has(c, "center_point", PointValue(center)) && Has(c, "wall_direction", PointValue(direction))
    ensures Has(c, "section", Dict(section))
    ensures "floor" !in c && "corner_nodes" !in c && "node_ids" !in c && "primary_node_id" !in c && "openings" !in c
  {
    map["name" := Str(name), "tag" := Str("WL_" + tagId), "center_point" := PointValue(center),
        "wall_direction" := PointValue(direction), "section" := Dict(section)]
  }

  /** The keys that list the wall's nodes and openings and copy its identity. */
  function WallMeta(e: Element, corners: seq<Point>, ids: seq<string>, stbName: Value, openings: seq<Dict>): (c: Dict)
    requires |ids| > 0
    ensures Has(c, "corner_nodes", List(PointValues(corners))) && Has(c, "node_ids", List(StrValues(ids)))
    ensures Has(c, "primary_node_id", Str(ids[0])) && Has(c, "openings", List(DictValues(openings)))
    ensures "floor" !in c
  {
    map["corner_nodes" := List(PointValues(corners)), "node_ids" := List(StrValues(ids)), "primary_node_id" := Str(ids[0]),
        "stb_original_id" := OptStr(Get(e, "id")), "stb_guid" := OptStr(Get(e, "guid")),
        "stb_section_name" := stbName, "openings" := List(DictValues(openings))]
  }

  /**
   * The wall definition: the centre of the first four corrected nodes, the
   * unit direction of the direction edge, the section given the length and
   * height, and the floor from the attribute or the first node's story,
   * otherwise absent.
   */
  function WallDict(e: Element, c: seq<Point>, ids: seq<string>, info: Dict, openings: seq<Dict>, storyMap: map<string, string>, sqrt: real -> real): (d: Dict)
    requires |c| >= 4 && |ids| > 0
    ensures Has(d, "name", Str(GetOr(e, "name", "Wall_" + IdText(e, "id")))) && Has(d, "tag", Str("WL_" + IdText(e, "id")))
    ensures Has(d, "center_point", PointValue(Center(c[..4])))
    ensures Has(d, "wall_direction", PointValue(Direction(DirectionEdge(c[..4], sqrt))))
    ensures Has(d, "section", Dict(WallSection(info, DirectionEdge(c[..4], sqrt).len, WallHeight(c))))
    ensures Has(d, "corner_nodes", List(PointValues(c))) && Has(d, "primary_node_id", Str(ids[0]))
    ensures Has(d, "openings", List(DictValues(openings)))
    ensures StoryFloor(e, storyMap, Some(ids[0])).Some? <==> "floor" in d
    ensures StoryFloor(e, storyMap, Some(ids[0])).Some? ==> d["floor"] == Str(StoryFloor(e, storyMap, Some(ids[0])).value)
  {
    var b := c[..4];
    var edge := DirectionEdge(b, sqrt);
    var section := WallSection(info, edge.len, WallHeight(c));
    var core := WallCore(GetOr(e, "name", "Wall_" + IdText(e, "id")), IdText(e, "id"), Center(b), Direction(edge), section);
    var meta := WallMeta(e, c, ids, LookupOr(section, "stb_name", Str("Unknown")), openings);
    WithFloor(meta + core, StoryFloor(e, storyMap, Some(ids[0])))
  }

  /** What an absent text raises when it is split. */
  const NoTextError := AttributeError("'NoneType' object has no attribute 'split'")

  /**
   * `_extract_single_wall`: without StbNodeIdOrder or a section id the wall
   * is skipped; an order without text raises; an unreadable offset raises;
   * fewer than four known nodes or an unknown section skip the wall.
   */
  function SingleWall(root: Element, e: Element, nodes: Nodes, sections: map<string, Dict>, storyMap: map<string, string>, sqrt: real -> real): (r: Result<Extracted>)
    ensures Child(e, "StbNodeIdOrder").None? || !HasTruthy(e, "id_section") ==> r == Ok(Skipped)
    ensures r.Ok? ==> r.value.Skipped? || r.value.One?
  {
    match Child(e, "StbNodeIdOrder")
    case None => Ok(Skipped)
    case Some(order) =>
      if !HasTruthy(e, "id_section") then Ok(Skipped)
      else
        match order.text
        case None => Err(NoTextError)
        case Some(text) =>
          var ids := Strs.Words(text);
          match CorrectedNodes(e, "StbWallOffsetList", "StbWallOffset", ids, nodes)
          case Err(err) => Err(err)
          case Ok(c) =>
            if |c| < 4 || e.attrs["id_section"] !in sections then Ok(Skipped)
            else
              var openings := WallOpenings(root, e, c[0]);
              Ok(One(WallDict(e, c, ids, sections[e.attrs["id_section"]], openings, storyMap, sqrt)))
  }

  /**
   * A wall is defined exactly when its order has text, its offsets read,
   * at least four of its nodes are known and its section is known; its
   * corner nodes are then those corrected nodes and its primary node the
   * first listed id.
   */
  lemma WallDefined(root: Element, e: Element, nodes: Nodes, sections: map<string, Dict>, storyMap: map<string, string>, sqrt: real -> real)
    requires Child(e, "StbNodeIdOrder").Some? && HasTruthy(e, "id_section")
    ensures var order := Child(e, "StbNodeIdOrder").value;
      var r := SingleWall(root, e, nodes, sections, storyMap, sqrt);
      (order.text.None? ==> r == Err(NoTextError))
      && (order.text.Some? ==>
        var ids := Strs.Words(order.text.value);
        var c := CorrectedNodes(e, "StbWallOffsetList", "StbWallOffset", ids, nodes);
        (r.Ok? && r.value.One? <==> c.Ok? && |c.value| >= 4 && e.attrs["id_section"] in sections)
        && (r.Ok? && r.value.One? ==> (|ids| > 0 && Has(r.value.def, "corner_nodes", List(PointValues(c.value)))
          && Has(r.value.def, "primary_node_id", Str(ids[0])))))
  {
  }

  /** Without an offset list, the corner nodes are the known nodes as they are. */
  lemma WallWithoutOffsetsKeepsNodes(root: Element, e: Element, nodes: Nodes, sections: map<string, Dict>, storyMap: map<string, string>, sqrt: real -> real)
    requires Child(e, "StbWallOffsetList").None?
    requires var r := SingleWall(root, e, nodes, sections, storyMap, sqrt); r.Ok? && r.value.One?
    ensures var order := Child(e, "StbNodeIdOrder").value;
      order.text.Some? && Has(SingleWall(root, e, nodes, sections, storyMap, sqrt).value.def, "corner_nodes",
        List(PointValues(Known(Strs.Words(order.text.value), nodes))))
  {
  }

  /** The extractor of one wall, as the shared element loop calls it. */
  function WallSingle(root: Element, nodes: Nodes, sections: map<string, Dict>, sqrt: real -> real): SingleExtractor
  {
    (e, elementType, storyMap) => SingleWall(root, e, nodes, sections, storyMap, sqrt)
  }

  /** `WallExtractor.extract_walls`. */
  method ExtractWalls(root: Element, nodes: Nodes, sections: map<string, Dict>, sqrt: real -> real) returns (r: Result<seq<Dict>>)
    ensures r == ElementsData(root, WallConfig, WallSingle(root, nodes, sections, sqrt))
  {
    r := ExtractElements(root, WallConfig, WallSingle(root, nodes, sections, sqrt));
  }
}
