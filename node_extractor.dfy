/**
 * The node extractor (stbParser/node_extractor.py): every StbNode with an id
 * and three readable coordinates becomes a point under its id.
 */
module NodeExtractor {
  import opened Wrappers
  import opened Values
  import opened Xml
  import Strs

  /** A node position, the `{"x", "y", "z"}` dictionary of the source. */
  datatype Point = Point(x: real, y: real, z: real)

  /** The node table: node id to position. */
  type Nodes = map<string, Point>

  /** A point as the element definitions hold it. */
  function PointValue(p: Point): (v: Value)
    ensures v.Dict? && Has3(v.m, p)
  {
    Dict(map["x" := Num(p.x), "y" := Num(p.y), "z" := Num(p.z)])
  }

  /** The dictionary holds the three coordinates of `p`. */
  predicate Has3(m: map<string, Value>, p: Point)
  {
    "x" in m && m["x"] == Num(p.x) && "y" in m && m["y"] == Num(p.y) && "z" in m && m["z"] == Num(p.z)
  }

  /** `float(elem.get(name))`: an absent attribute (TypeError) or an unreadable one (ValueError) gives nothing. */
  function Coord(e: Element, name: string): (r: Option<real>)
    ensures name !in e.attrs ==> r.None?
    ensures name in e.attrs ==> r == Strs.ParseFloat(e.attrs[name])
  {
    match Get(e, name)
    case None => None
    case Some(s) => Strs.ParseFloat(s)
  }

  /** The point of a node element: all of X, Y and Z must be read. */
  function NodePoint(e: Element): (r: Option<Point>)
    ensures r.Some? <==> Coord(e, "X").Some? && Coord(e, "Y").Some? && Coord(e, "Z").Some?
    ensures r.Some? ==> r.value.x == Coord(e, "X").value && r.value.y == Coord(e, "Y").value && r.value.z == Coord(e, "Z").value
  {
    match (Coord(e, "X"), Coord(e, "Y"), Coord(e, "Z"))
    case (Some(x), Some(y), Some(z)) => Some(Point(x, y, z))
    case _ => None
  }

  /** The node element is kept: its id is non-empty and its point readable. */
  predicate Kept(e: Element, id: string)
  {
    HasTruthy(e, "id") && e.attrs["id"] == id && NodePoint(e).Some?
  }

  /** The table after the nodes `es` in order; a later node with the same id replaces an earlier one. */
  function NodesOf(es: seq<Element>): Nodes
  {
    if es == [] then map[]
    else
      var m := NodesOf(es[..|es| - 1]);
      var e := es[|es| - 1];
      if HasTruthy(e, "id") && NodePoint(e).Some? then m[e.attrs["id"] := NodePoint(e).value] else m
  }

  /** One more node: stored under its id when kept, otherwise nothing changes. */
  lemma NodesOfSnoc(es: seq<Element>, i: nat)
    requires i < |es|
    ensures NodesOf(es[..i + 1]) ==
      if HasTruthy(es[i], "id") && NodePoint(es[i]).Some? then NodesOf(es[..i])[es[i].attrs["id"] := NodePoint(es[i]).value]
      else NodesOf(es[..i])
  {
    assert es[..i + 1][..i] == es[..i];
  }

  /** An id is in the table exactly when some node with that id is kept. */
  lemma {:induction false} NodesOfKeys(es: seq<Element>, id: string)
    ensures id in NodesOf(es) <==> exists i :: 0 <= i < |es| && Kept(es[i], id)
    decreases |es|
  {
    if es != [] {
      var front := es[..|es| - 1];
      NodesOfKeys(front, id);
      if exists i :: 0 <= i < |front| && Kept(front[i], id) {
        var k :| 0 <= k < |front| && Kept(front[k], id);
        assert es[k] == front[k];
      }
      if exists i :: 0 <= i < |es| && Kept(es[i], id) {
        var k :| 0 <= k < |es| && Kept(es[k], id);
        if k < |front| {
          assert front[k] == es[k];
        }
      }
    }
  }

  /** The point stored under an id is the one of the last node kept under it. */
  lemma {:induction false} NodesOfLast(es: seq<Element>, id: string, i: nat)
    requires i < |es| && Kept(es[i], id)
    requires forall j :: i < j < |es| ==> !Kept(es[j], id)
    ensures id in NodesOf(es) && NodesOf(es)[id] == NodePoint(es[i]).value
    decreases |es|
  {
    if i < |es| - 1 {
      var front := es[..|es| - 1];
      assert !Kept(es[|es| - 1], id);
      assert front[i] == es[i];
      NodesOfLast(front, id, i);
    }
  }

  /** The table `extract_nodes` returns: empty without StbNodes. */
  function NodesData(root: Element): Nodes
  {
    match Below(root, "StbNodes")
    case None => map[]
    case Some(n) => NodesOf(Children(n, "StbNode"))
  }

  /** `NodeExtractor.extract_nodes`: one pass over the StbNode children. */
  method ExtractNodes(root: Element) returns (nodes: Nodes)
    ensures nodes == NodesData(root)
    ensures Below(root, "StbNodes").None? ==> nodes == map[]
  {
    nodes := map[];
    var container := Below(root, "StbNodes");
    if container.None? {
      return;
    }
    var es := Children(container.value, "StbNode");
    var i := 0;
    while i < |es|
      invariant 0 <= i <= |es|
      invariant nodes == NodesOf(es[..i])
    {
      NodesOfSnoc(es, i);
      var e := es[i];
      if HasTruthy(e, "id") {
        var p := NodePoint(e);
        if p.Some? {
          nodes := nodes[e.attrs["id"] := p.value];
        }
      }
      i := i + 1;
    }
    assert es[..i] == es;
  }

  /** A node whose Y cannot be read is skipped even when X and Z can. */
  lemma UnreadableCoordinateSkipped(es: seq<Element>, e: Element)
    requires Coord(e, "Y").None?
    ensures NodesOf(es + [e]) == NodesOf(es)
  {
    assert (es + [e])[..|es|] == es;
  }
}
