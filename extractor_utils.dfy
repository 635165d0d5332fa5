/**
 * Helpers shared by the element extractors (common/extractor_utils.py):
 * node offsets, the presence check on node and section references, degree
 * and radian conversion, and the node-to-story map.
 */
module ExtractorUtils {
  import opened Wrappers
  import opened Values
  import opened Xml
  import Strs
  import opened NodeExtractor

  // ---------------------------------------------------------------- offsets

  /** `float(elem.get(name, 0))`: an absent offset is 0; a present one must be readable. */
  function OffsetAttr(e: Element, name: string): (r: Result<real>)
    ensures name !in e.attrs ==> r == Ok(0.0)
    ensures name in e.attrs ==> (r.Ok? <==> Strs.ParseFloat(e.attrs[name]).Some?)
    ensures name in e.attrs && r.Ok? ==> r.value == Strs.ParseFloat(e.attrs[name]).value
  {
    match Get(e, name)
    case None => Ok(0.0)
    case Some(s) =>
      match Strs.ParseFloat(s)
      case None => Err(ValueError("could not convert string to float: " + s))
      case Some(v) => Ok(v)
  }

  /** The offset attribute names of one end and the attribute naming its node. */
  datatype EndKeys = EndKeys(x: string, y: string, z: string, node: string)

  const StartKeys := EndKeys("offset_start_X", "offset_start_Y", "offset_start_Z", "id_node_start")
  const EndKeysOfEnd := EndKeys("offset_end_X", "offset_end_Y", "offset_end_Z", "id_node_end")
  const BottomKeys := EndKeys("offset_bottom_X", "offset_bottom_Y", "offset_bottom_Z", "id_node_bottom")
  const TopKeys := EndKeys("offset_top_X", "offset_top_Y", "offset_top_Z", "id_node_top")

  /** The three offsets of one end, each read as `OffsetAttr` reads it. */
  function Offsets(e: Element, k: EndKeys): (r: Result<Point>)
    ensures r.Ok? <==> OffsetAttr(e, k.x).Ok? && OffsetAttr(e, k.y).Ok? && OffsetAttr(e, k.z).Ok?
    ensures r.Ok? ==> r.value == Point(OffsetAttr(e, k.x).value, OffsetAttr(e, k.y).value, OffsetAttr(e, k.z).value)
  {
    match (OffsetAttr(e, k.x), OffsetAttr(e, k.y), OffsetAttr(e, k.z))
    case (Ok(x), Ok(y), Ok(z)) => Ok(Point(x, y, z))
    case (Err(err), _, _) => Err(err)
    case (_, Err(err), _) => Err(err)
    case (_, _, Err(err)) => Err(err)
  }

  /** Componentwise sum. */
  function Plus(p: Point, q: Point): Point
  {
    Point(p.x + q.x, p.y + q.y, p.z + q.z)
  }

  /** The node an end refers to: a missing attribute or an unknown id is a KeyError. */
  function EndNode(e: Element, k: EndKeys, nodes: Nodes): (r: Result<Point>)
    ensures r.Ok? <==> k.node in e.attrs && e.attrs[k.node] in nodes
    ensures r.Ok? ==> r.value == nodes[e.attrs[k.node]]
  {
    match Get(e, k.node)
    case None => Err(KeyError("None"))
    case Some(id) => if id in nodes then Ok(nodes[id]) else Err(KeyError(id))
  }

  /**
   * `NodeOffsetUtils.apply_node_offsets`: the six offsets are read first,
   * then both nodes are looked up; each corrected end is its node moved by
   * its offsets.
   */
  function ApplyNodeOffsets(e: Element, nodes: Nodes, sk: EndKeys, ek: EndKeys): (r: Result<(Point, Point)>)
    ensures r.Ok? <==> Offsets(e, sk).Ok? && Offsets(e, ek).Ok? && EndNode(e, sk, nodes).Ok? && EndNode(e, ek, nodes).Ok?
    ensures r.Ok? ==> (r.value.0 == Plus(EndNode(e, sk, nodes).value, Offsets(e, sk).value)
      && r.value.1 == Plus(EndNode(e, ek, nodes).value, Offsets(e, ek).value))
  {
    match (Offsets(e, sk), Offsets(e, ek))
    case (Err(err), _) => Err(err)
    case (_, Err(err)) => Err(err)
    case (Ok(os), Ok(oe)) =>
      match (EndNode(e, sk, nodes), EndNode(e, ek, nodes))
      case (Err(err), _) => Err(err)
      case (_, Err(err)) => Err(err)
      case (Ok(ns), Ok(ne)) => Ok((Plus(ns, os), Plus(ne, oe)))
  }

  /** `apply_node_offsets` with its default start/end keys. */
  function StartEndOffsets(e: Element, nodes: Nodes): Result<(Point, Point)>
  {
    ApplyNodeOffsets(e, nodes, StartKeys, EndKeysOfEnd)
  }

  /** `apply_vertical_node_offsets`: the same rule on the bottom/top keys. */
  function BottomTopOffsets(e: Element, nodes: Nodes): Result<(Point, Point)>
  {
    ApplyNodeOffsets(e, nodes, BottomKeys, TopKeys)
  }

  /** Without offset attributes both ends are exactly their nodes. */
  lemma NoOffsetsKeepNodes(e: Element, nodes: Nodes, sk: EndKeys, ek: EndKeys)
    requires sk.x !in e.attrs && sk.y !in e.attrs && sk.z !in e.attrs
    requires ek.x !in e.attrs && ek.y !in e.attrs && ek.z !in e.attrs
    requires sk.node in e.attrs && e.attrs[sk.node] in nodes && ek.node in e.attrs && e.attrs[ek.node] in nodes
    ensures ApplyNodeOffsets(e, nodes, sk, ek) == Ok((nodes[e.attrs[sk.node]], nodes[e.attrs[ek.node]]))
  {
    var os := Offsets(e, sk);
    assert os == Ok(Point(0.0, 0.0, 0.0));
    assert Offsets(e, ek) == Ok(Point(0.0, 0.0, 0.0));
  }

  /** An unreadable offset is an error even when both nodes exist. */
  lemma UnreadableOffsetFails(e: Element, nodes: Nodes, sk: EndKeys, ek: EndKeys)
    requires sk.z in e.attrs && Strs.ParseFloat(e.attrs[sk.z]).None?
    ensures ApplyNodeOffsets(e, nodes, sk, ek).Err?
  {
  }

  // ---------------------------------------------------------------- validation

  /** The references that are missing: node ids not in the node table, then section ids not in the section table. */
  function MissingNodes(ids: seq<Option<string>>, nodes: Nodes): (r: seq<Option<string>>)
    ensures forall x :: x in r <==> x in ids && (x.None? || x.value !in nodes)
  {
    if ids == [] then []
    else (if ids[0].None? || ids[0].value !in nodes then [ids[0]] else []) + MissingNodes(ids[1..], nodes)
  }

  function MissingSections(ids: seq<Option<string>>, sections: map<string, Dict>): (r: seq<Option<string>>)
    ensures forall x :: x in r <==> x in ids && (x.None? || x.value !in sections)
  {
    if ids == [] then []
    else (if ids[0].None? || ids[0].value !in sections then [ids[0]] else []) + MissingSections(ids[1..], sections)
  }

  /** `ElementValidator.validate_element_data`: nothing is missing. */
  predicate ValidateElementData(nodeIds: seq<Option<string>>, sectionIds: seq<Option<string>>, nodes: Nodes, sections: map<string, Dict>)
  {
    MissingNodes(nodeIds, nodes) == [] && MissingSections(sectionIds, sections) == []
  }

  /** The check holds exactly when every node id and every section id is given and known. */
  lemma ValidateElementDataIff(nodeIds: seq<Option<string>>, sectionIds: seq<Option<string>>, nodes: Nodes, sections: map<string, Dict>)
    ensures ValidateElementData(nodeIds, sectionIds, nodes, sections) <==>
      (forall i :: 0 <= i < |nodeIds| ==> nodeIds[i].Some? && nodeIds[i].value in nodes)
      && (forall i :: 0 <= i < |sectionIds| ==> sectionIds[i].Some? && sectionIds[i].value in sections)
  {
    if !ValidateElementData(nodeIds, sectionIds, nodes, sections) {
      if MissingNodes(nodeIds, nodes) != [] {
        var x := MissingNodes(nodeIds, nodes)[0];
        assert x in MissingNodes(nodeIds, nodes);
      } else {
        var x := MissingSections(sectionIds, sections)[0];
        assert x in MissingSections(sectionIds, sections);
      }
    } else {
      forall i | 0 <= i < |nodeIds| ensures nodeIds[i].Some? && nodeIds[i].value in nodes {
        assert nodeIds[i] in nodeIds;
        assert nodeIds[i] !in MissingNodes(nodeIds, nodes);
      }
      forall i | 0 <= i < |sectionIds| ensures sectionIds[i].Some? && sectionIds[i].value in sections {
        assert sectionIds[i] in sectionIds;
        assert sectionIds[i] !in MissingSections(sectionIds, sections);
      }
    }
  }

  // ---------------------------------------------------------------- angles

  /** `math.pi` as a decimal. */
  const Pi: real := 3.141592653589793

  /** `AngleUtils.degrees_to_radians`. */
  function Radians(degrees: real): (r: real)
    ensures degrees == 0.0 ==> r == 0.0
    ensures degrees > 0.0 ==> r > 0.0
  {
    degrees * Pi / 180.0
  }

  /** `AngleUtils.radians_to_degrees`. */
  function Degrees(radians: real): real
  {
    radians * 180.0 / Pi
  }

  /** The two conversions undo each other (in exact arithmetic). */
  lemma DegreesRadiansRoundTrip(d: real)
    ensures Degrees(Radians(d)) == d && Radians(Degrees(d)) == d
  {
  }

  /** Dividing by a non-zero length and multiplying back gives the value again. */
  lemma DivTimes(d: real, len: real)
    requires len != 0.0
    ensures d / len * len == d
  {
  }

  // ---------------------------------------------------------------- stories

  /** The non-empty `id`s of `es`, in order. */
  function TruthyIds(es: seq<Element>): seq<string>
  {
    if es == [] then []
    else (if HasTruthy(es[0], "id") then [es[0].attrs["id"]] else []) + TruthyIds(es[1..])
  }

  /** An id is listed exactly when some element carries it as a non-empty id. */
  lemma {:induction false} TruthyIdsSpec(es: seq<Element>, x: string)
    ensures x in TruthyIds(es) <==> exists i :: 0 <= i < |es| && HasTruthy(es[i], "id") && es[i].attrs["id"] == x
    decreases |es|
  {
    if es != [] {
      TruthyIdsSpec(es[1..], x);
      assert forall i :: 1 <= i < |es| ==> es[1..][i - 1] == es[i];
      if exists i :: 0 <= i < |es| && HasTruthy(es[i], "id") && es[i].attrs["id"] == x {
        var i :| 0 <= i < |es| && HasTruthy(es[i], "id") && es[i].attrs["id"] == x;
        if i > 0 {
          assert es[1..][i - 1] == es[i];
        }
      }
    }
  }

  /** The node ids a story lists; none without an StbNodeIdList. */
  function StoryNodeIds(story: Element): seq<string>
  {
    match Child(story, "StbNodeIdList")
    case None => []
    case Some(l) => TruthyIds(Children(l, "StbNodeId"))
  }

  /** A story's name, "Unknown" when absent. */
  function StoryName(story: Element): string
  {
    GetOr(story, "name", "Unknown")
  }

  /** Every id of `ids` mapped to `name`. */
  function AllTo(ids: seq<string>, name: string): map<string, string>
  {
    map id | id in ids :: name
  }

  /** The map after assigning each entry's ids to its name, in order: a later entry overrides an earlier one. */
  function Assigned(entries: seq<(seq<string>, string)>): map<string, string>
  {
    if entries == [] then map[]
    else Assigned(entries[..|entries| - 1]) + AllTo(entries[|entries| - 1].0, entries[|entries| - 1].1)
  }

  /** An id is mapped exactly when some entry lists it. */
  lemma {:induction false} AssignedKeys(entries: seq<(seq<string>, string)>, id: string)
    ensures id in Assigned(entries) <==> exists k :: 0 <= k < |entries| && id in entries[k].0
    decreases |entries|
  {
    if entries != [] {
      var front := entries[..|entries| - 1];
      AssignedKeys(front, id);
      if exists k :: 0 <= k < |front| && id in front[k].0 {
        var k :| 0 <= k < |front| && id in front[k].0;
        assert entries[k] == front[k];
      }
      if exists k :: 0 <= k < |entries| && id in entries[k].0 {
        var k :| 0 <= k < |entries| && id in entries[k].0;
        if k < |front| {
          assert front[k] == entries[k];
        }
      }
    }
  }

  /** An id is mapped to the name of the last entry that lists it. */
  lemma {:induction false} AssignedLast(entries: seq<(seq<string>, string)>, id: string, k: nat)
    requires k < |entries| && id in entries[k].0
    requires forall j :: k < j < |entries| ==> id !in entries[j].0
    ensures id in Assigned(entries) && Assigned(entries)[id] == entries[k].1
    decreases |entries|
  {
    var front := entries[..|entries| - 1];
    if k < |front| {
      assert id !in entries[|entries| - 1].0;
      assert front[k] == entries[k];
      AssignedLast(front, id, k);
    }
  }

  /** Each story's listed node ids and name, in document order. */
  function StoryEntries(stories: seq<Element>): (r: seq<(seq<string>, string)>)
    ensures |r| == |stories| && forall k :: 0 <= k < |stories| ==> r[k] == (StoryNodeIds(stories[k]), StoryName(stories[k]))
  {
    if stories == [] then []
    else StoryEntries(stories[..|stories| - 1]) + [(StoryNodeIds(stories[|stories| - 1]), StoryName(stories[|stories| - 1]))]
  }

  /** The map `create_node_story_map` returns: empty without StbStories. */
  function NodeStoryMap(root: Element): map<string, string>
  {
    match Below(root, "StbStories")
    case None => map[]
    case Some(s) => Assigned(StoryEntries(Children(s, "StbStory")))
  }

  /** One more entry: its ids are mapped to its name over what came before. */
  lemma AssignedSnoc(entries: seq<(seq<string>, string)>, i: nat)
    requires i < |entries|
    ensures Assigned(entries[..i + 1]) == Assigned(entries[..i]) + AllTo(entries[i].0, entries[i].1)
  {
    assert entries[..i + 1][..i] == entries[..i];
  }

  /** A node is mapped exactly when some story lists it. */
  lemma NodeStoryMapKeys(root: Element, id: string)
    requires Below(root, "StbStories").Some?
    ensures var stories := Children(Below(root, "StbStories").value, "StbStory");
      id in NodeStoryMap(root) <==> exists k :: 0 <= k < |stories| && id in StoryNodeIds(stories[k])
  {
    var stories := Children(Below(root, "StbStories").value, "StbStory");
    var entries := StoryEntries(stories);
    AssignedKeys(entries, id);
    if exists k :: 0 <= k < |stories| && id in StoryNodeIds(stories[k]) {
      var k :| 0 <= k < |stories| && id in StoryNodeIds(stories[k]);
      assert id in entries[k].0;
    }
  }

  /** A node is mapped to the name of the last story that lists it. */
  lemma NodeStoryMapLast(root: Element, id: string, k: nat)
    requires Below(root, "StbStories").Some?
    requires var stories := Children(Below(root, "StbStories").value, "StbStory");
      k < |stories| && id in StoryNodeIds(stories[k]) && forall j :: k < j < |stories| ==> id !in StoryNodeIds(stories[j])
    ensures var stories := Children(Below(root, "StbStories").value, "StbStory");
      id in NodeStoryMap(root) && NodeStoryMap(root)[id] == StoryName(stories[k])
  {
    var stories := Children(Below(root, "StbStories").value, "StbStory");
    var entries := StoryEntries(stories);
    assert forall j :: k < j < |stories| ==> id !in entries[j].0;
    AssignedLast(entries, id, k);
  }

  /** The inner loop: every listed id of one story is mapped to its name. */
  method AssignStory(m0: map<string, string>, ids: seq<string>, name: string) returns (m: map<string, string>)
    ensures m == m0 + AllTo(ids, name)
  {
    m := m0;
    var j := 0;
    while j < |ids|
      invariant 0 <= j <= |ids|
      invariant m == m0 + AllTo(ids[..j], name)
    {
      assert ids[..j + 1] == ids[..j] + [ids[j]];
      m := m[ids[j] := name];
      j := j + 1;
    }
    assert ids[..j] == ids;
  }

  /** `StoryMappingUtils.create_node_story_map`: the stories in document order. */
  method CreateNodeStoryMap(root: Element) returns (m: map<string, string>)
    ensures m == NodeStoryMap(root)
    ensures Below(root, "StbStories").None? ==> m == map[]
  {
    m := map[];
    var container := Below(root, "StbStories");
    if container.None? {
      return;
    }
    var stories := Children(container.value, "StbStory");
    var i := 0;
    while i < |stories|
      invariant 0 <= i <= |stories|
      invariant m == Assigned(StoryEntries(stories)[..i])
    {
      var entry := StoryEntries(stories)[i];
      AssignedSnoc(StoryEntries(stories), i);
      m := AssignStory(m, entry.0, entry.1);
      i := i + 1;
    }
    assert StoryEntries(stories)[..i] == StoryEntries(stories);
  }
}
