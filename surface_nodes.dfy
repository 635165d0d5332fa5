/**
 * What the wall and slab extractors share (stbParser/wall_extractor.py and
 * stbParser/slab_extractor.py): the per-node offset table of a surface
 * element, the offset-corrected corner nodes, and the plain statistics
 * (sum, mean, largest, smallest) taken over their coordinates.
 */
module SurfaceNodes {
  import opened Wrappers
  import opened Values
  import opened Xml
  import opened NodeExtractor
  import opened ExtractorUtils

  // ---------------------------------------------------------------- offset table

  /** The attributes of one StbWallOffset / StbSlabOffset entry. */
  const EntryKeys := EndKeys("offset_X", "offset_Y", "offset_Z", "id_node")

  /** The offset table: node id to the offset of its last entry. */
  type OffsetTable = map<string, Point>

  /**
   * The table built from the entries `os` in order: every entry's three
   * offsets are read (an unreadable one raises), an entry with an `id_node`
   * overwrites that node's earlier one, and one without it is stored under
   * `None`, a key no node id matches.
   */
  function Table(os: seq<Element>): Result<OffsetTable>
  {
    if os == [] then Ok(map[])
    else
      match Table(os[..|os| - 1])
      case Err(err) => Err(err)
      case Ok(t) =>
        var o := os[|os| - 1];
        match Offsets(o, EntryKeys)
        case Err(err) => Err(err)
        case Ok(p) => Ok(if "id_node" in o.attrs then t[o.attrs["id_node"] := p] else t)
  }

  /** One more entry adds its offset, or its error replaces the table. */
  lemma TableSnoc(os: seq<Element>, i: nat)
    requires i < |os|
    ensures Table(os[..i + 1]) ==
      match Table(os[..i])
      case Err(err) => Err(err)
      case Ok(t) =>
        match Offsets(os[i], EntryKeys)
        case Err(err) => Err(err)
        case Ok(p) => Ok(if "id_node" in os[i].attrs then t[os[i].attrs["id_node"] := p] else t)
  {
    assert os[..i + 1][..i] == os[..i];
  }

  /** Once reading the entries has failed, further entries keep the same error. */
  lemma {:induction false} TableErrStays(os: seq<Element>, more: seq<Element>)
    requires Table(os).Err?
    ensures Table(os + more) == Table(os)
    decreases |more|
  {
    if more != [] {
      var front := more[..|more| - 1];
      TableErrStays(os, front);
      assert (os + more)[..|os + more| - 1] == os + front;
      assert Table(os + more) == Table(os + front);
    } else {
      assert os + more == os;
    }
  }

  /** The table is built exactly when every entry's offsets are readable. */
  lemma {:induction false} TableOk(os: seq<Element>)
    ensures Table(os).Ok? <==> forall i :: 0 <= i < |os| ==> Offsets(os[i], EntryKeys).Ok?
    decreases |os|
  {
    if os != [] {
      var front := os[..|os| - 1];
      TableOk(front);
      assert forall i :: 0 <= i < |front| ==> front[i] == os[i];
    }
  }

  /** A node is in the table exactly when some entry names it. */
  lemma {:induction false} TableKeys(os: seq<Element>, id: string)
    requires Table(os).Ok?
    ensures id in Table(os).value <==> exists i :: 0 <= i < |os| && Get(os[i], "id_node") == Some(id)
    decreases |os|
  {
    if os != [] {
      var front := os[..|os| - 1];
      TableKeys(front, id);
      if exists i :: 0 <= i < |os| && Get(os[i], "id_node") == Some(id) {
        var i :| 0 <= i < |os| && Get(os[i], "id_node") == Some(id);
        if i < |front| {
          assert front[i] == os[i];
        }
      }
      if exists i :: 0 <= i < |front| && Get(front[i], "id_node") == Some(id) {
        var i :| 0 <= i < |front| && Get(front[i], "id_node") == Some(id);
        assert front[i] == os[i];
      }
    }
  }

  /** A node's offset is the one of the last entry that names it. */
  lemma {:induction false} TableLast(os: seq<Element>, id: string, k: nat)
    requires Table(os).Ok? && k < |os| && Get(os[k], "id_node") == Some(id)
    requires forall j :: k < j < |os| ==> Get(os[j], "id_node") != Some(id)
    ensures id in Table(os).value && Offsets(os[k], EntryKeys) == Ok(Table(os).value[id])
    decreases |os|
  {
    var front := os[..|os| - 1];
    if k < |front| {
      assert front[k] == os[k];
      assert forall j :: k < j < |front| ==> front[j] == os[j];
      TableLast(front, id, k);
    }
  }

  /** The loop of `_apply_wall_node_offsets` / `_apply_slab_node_offsets` that fills the table. */
  method BuildTable(os: seq<Element>) returns (r: Result<OffsetTable>)
    ensures r == Table(os)
  {
    var t: OffsetTable := map[];
    var i := 0;
    while i < |os|
      invariant 0 <= i <= |os|
      invariant Table(os[..i]) == Ok(t)
    {
      TableSnoc(os, i);
      var p := Offsets(os[i], EntryKeys);
      if p.Err? {
        assert os[..i + 1] + os[i + 1..] == os;
        TableErrStays(os[..i + 1], os[i + 1..]);
        return Err(p.error);
      }
      if "id_node" in os[i].attrs {
        t := t[os[i].attrs["id_node"] := p.value];
      }
      i := i + 1;
    }
    assert os[..i] == os;
    r := Ok(t);
  }

  // ---------------------------------------------------------------- corrected nodes

  /** A node's offset in the table, zero when it has none. */
  function OffsetOf(t: OffsetTable, id: string): Point
  {
    if id in t then t[id] else Point(0.0, 0.0, 0.0)
  }

  /** The known nodes among `ids`, in order and as stored; unknown ids are skipped. */
  function Known(ids: seq<string>, nodes: Nodes): (r: seq<Point>)
    ensures |r| <= |ids|
  {
    if ids == [] then []
    else Known(ids[..|ids| - 1], nodes) + (if ids[|ids| - 1] in nodes then [nodes[ids[|ids| - 1]]] else [])
  }

  /** The known nodes among `ids`, each moved by its offset; unknown ids are skipped. */
  function Corrected(ids: seq<string>, nodes: Nodes, t: OffsetTable): (r: seq<Point>)
    ensures |r| <= |ids|
  {
    if ids == [] then []
    else
      var id := ids[|ids| - 1];
      Corrected(ids[..|ids| - 1], nodes, t) + (if id in nodes then [Plus(nodes[id], OffsetOf(t, id))] else [])
  }

  /** Correcting with an empty table gives the known nodes unchanged. */
  lemma {:induction false} EmptyTableKeepsNodes(ids: seq<string>, nodes: Nodes)
    ensures Corrected(ids, nodes, map[]) == Known(ids, nodes)
    decreases |ids|
  {
    if ids != [] {
      EmptyTableKeepsNodes(ids[..|ids| - 1], nodes);
      var id := ids[|ids| - 1];
      if id in nodes {
        assert Plus(nodes[id], OffsetOf(map[], id)) == nodes[id];
      }
    }
  }

  /** When every id is known, the i-th corrected node is the i-th node moved by its offset. */
  lemma {:induction false} AllKnownCorrected(ids: seq<string>, nodes: Nodes, t: OffsetTable)
    requires forall k :: 0 <= k < |ids| ==> ids[k] in nodes
    ensures |Corrected(ids, nodes, t)| == |ids|
    ensures forall k :: 0 <= k < |ids| ==> Corrected(ids, nodes, t)[k] == Plus(nodes[ids[k]], OffsetOf(t, ids[k]))
    decreases |ids|
  {
    if ids != [] {
      var front := ids[..|ids| - 1];
      assert forall k :: 0 <= k < |front| ==> front[k] == ids[k];
      AllKnownCorrected(front, nodes, t);
    }
  }

  /** A list that holds a corrected node was given at least one id. */
  lemma CorrectedNeedsIds(ids: seq<string>, nodes: Nodes, t: OffsetTable)
    requires |Corrected(ids, nodes, t)| > 0
    ensures |ids| > 0
  {
  }

  /** The correcting loop: each known id in order, moved by its offset. */
  method ApplyOffsets(ids: seq<string>, nodes: Nodes, t: OffsetTable) returns (r: seq<Point>)
    ensures r == Corrected(ids, nodes, t)
  {
    r := [];
    var i := 0;
    while i < |ids|
      invariant 0 <= i <= |ids|
      invariant r == Corrected(ids[..i], nodes, t)
    {
      assert ids[..i + 1][..i] == ids[..i];
      var id := ids[i];
      if id in nodes {
        r := r + [Plus(nodes[id], OffsetOf(t, id))];
      }
      i := i + 1;
    }
    assert ids[..i] == ids;
  }

  /**
   * The corrected nodes of a surface element: without the list child
   * `listTag` the known nodes as they are, otherwise each known node moved
   * by the offset its `entryTag` entries give it.
   */
  function CorrectedNodes(e: Element, listTag: string, entryTag: string, ids: seq<string>, nodes: Nodes): (r: Result<seq<Point>>)
    ensures Child(e, listTag).None? ==> r == Ok(Known(ids, nodes))
    ensures r.Ok? ==> |r.value| <= |ids|
  {
    match Child(e, listTag)
    case None => Ok(Known(ids, nodes))
    case Some(l) =>
      match Table(Children(l, entryTag))
      case Err(err) => Err(err)
      case Ok(t) => Ok(Corrected(ids, nodes, t))
  }

  /** The corrected nodes fail only on an unreadable offset entry. */
  lemma CorrectedNodesFail(e: Element, listTag: string, entryTag: string, ids: seq<string>, nodes: Nodes)
    ensures CorrectedNodes(e, listTag, entryTag, ids, nodes).Err? <==>
      (Child(e, listTag).Some? && exists i :: (0 <= i < |Children(Child(e, listTag).value, entryTag)|
        && Offsets(Children(Child(e, listTag).value, entryTag)[i], EntryKeys).Err?))
  {
    if Child(e, listTag).Some? {
      TableOk(Children(Child(e, listTag).value, entryTag));
    }
  }

  /** `_apply_wall_node_offsets` / `_apply_slab_node_offsets`. */
  method ApplyNodeOffsetList(e: Element, listTag: string, entryTag: string, ids: seq<string>, nodes: Nodes) returns (r: Result<seq<Point>>)
    ensures r == CorrectedNodes(e, listTag, entryTag, ids, nodes)
  {
    var l := Child(e, listTag);
    if l.None? {
      return Ok(Known(ids, nodes));
    }
    var t := BuildTable(Children(l.value, entryTag));
    if t.Err? {
      return Err(t.error);
    }
    var c := ApplyOffsets(ids, nodes, t.value);
    r := Ok(c);
  }

  // ---------------------------------------------------------------- statistics

  function Xs(ps: seq<Point>): (r: seq<real>)
    ensures |r| == |ps| && forall i :: 0 <= i < |ps| ==> r[i] == ps[i].x
  {
    seq(|ps|, i requires 0 <= i < |ps| => ps[i].x)
  }

  function Ys(ps: seq<Point>): (r: seq<real>)
    ensures |r| == |ps| && forall i :: 0 <= i < |ps| ==> r[i] == ps[i].y
  {
    seq(|ps|, i requires 0 <= i < |ps| => ps[i].y)
  }

  function Zs(ps: seq<Point>): (r: seq<real>)
    ensures |r| == |ps| && forall i :: 0 <= i < |ps| ==> r[i] == ps[i].z
  {
    seq(|ps|, i requires 0 <= i < |ps| => ps[i].z)
  }

  /** `sum(xs)`. */
  function Sum(xs: seq<real>): real
  {
    if xs == [] then 0.0 else xs[0] + Sum(xs[1..])
  }

  /** `max(xs)`: a member of `xs` no smaller than any. */
  function MaxOf(xs: seq<real>): (r: real)
    requires |xs| > 0
    ensures r in xs && forall i :: 0 <= i < |xs| ==> xs[i] <= r
  {
    if |xs| == 1 then xs[0]
    else
      var m := MaxOf(xs[1..]);
      assert forall i :: 1 <= i < |xs| ==> xs[i] == xs[1..][i - 1];
      if xs[0] >= m then xs[0] else m
  }

  /** `min(xs)`: a member of `xs` no larger than any. */
  function MinOf(xs: seq<real>): (r: real)
    requires |xs| > 0
    ensures r in xs && forall i :: 0 <= i < |xs| ==> r <= xs[i]
  {
    if |xs| == 1 then xs[0]
    else
      var m := MinOf(xs[1..]);
      assert forall i :: 1 <= i < |xs| ==> xs[i] == xs[1..][i - 1];
      if xs[0] <= m then xs[0] else m
  }

  /** `sum(xs) / len(xs)`. */
  function Mean(xs: seq<real>): real
    requires |xs| > 0
  {
    Sum(xs) / |xs| as real
  }

  /** A sum of values none below `m` is at least `|xs|` times `m`, and likewise above. */
  lemma {:induction false} SumBounds(xs: seq<real>, lo: real, hi: real)
    requires forall i :: 0 <= i < |xs| ==> lo <= xs[i] <= hi
    ensures |xs| as real * lo <= Sum(xs) <= |xs| as real * hi
    decreases |xs|
  {
    if xs != [] {
      assert forall i :: 1 <= i < |xs| ==> xs[1..][i - 1] == xs[i];
      SumBounds(xs[1..], lo, hi);
      assert |xs| as real * lo == lo + (|xs| - 1) as real * lo;
      assert |xs| as real * hi == hi + (|xs| - 1) as real * hi;
    }
  }

  lemma DivBounds(a: real, n: real, lo: real, hi: real)
    requires n > 0.0 && n * lo <= a <= n * hi
    ensures lo <= a / n <= hi
  {
    assert a / n * n == a;
  }

  /** The mean of values within bounds is within the same bounds. */
  lemma MeanBetween(xs: seq<real>, lo: real, hi: real)
    requires |xs| > 0 && forall i :: 0 <= i < |xs| ==> lo <= xs[i] <= hi
    ensures lo <= Mean(xs) <= hi
  {
    SumBounds(xs, lo, hi);
    DivBounds(Sum(xs), |xs| as real, lo, hi);
  }

  /** The mean lies between the smallest and the largest value. */
  lemma MeanWithin(xs: seq<real>)
    requires |xs| > 0
    ensures MinOf(xs) <= Mean(xs) <= MaxOf(xs)
  {
    MeanBetween(xs, MinOf(xs), MaxOf(xs));
  }

  /** The centre of the points: the mean of each coordinate. */
  function Center(ps: seq<Point>): Point
    requires |ps| > 0
  {
    Point(Mean(Xs(ps)), Mean(Ys(ps)), Mean(Zs(ps)))
  }

  /** The centre lies in the bounding box of the points. */
  lemma CenterInBox(ps: seq<Point>)
    requires |ps| > 0
    ensures MinOf(Xs(ps)) <= Center(ps).x <= MaxOf(Xs(ps))
    ensures MinOf(Ys(ps)) <= Center(ps).y <= MaxOf(Ys(ps))
    ensures MinOf(Zs(ps)) <= Center(ps).z <= MaxOf(Zs(ps))
  {
    MeanWithin(Xs(ps));
    MeanWithin(Ys(ps));
    MeanWithin(Zs(ps));
  }

  /** `max(xs) - min(xs)`: never negative, and no two values are further apart. */
  function Extent(xs: seq<real>): (r: real)
    requires |xs| > 0
    ensures r >= 0.0
    ensures forall i, j :: 0 <= i < |xs| && 0 <= j < |xs| ==> xs[i] - xs[j] <= r
  {
    MaxOf(xs) - MinOf(xs)
  }

  /** The points as the definitions list them. */
  function PointValues(ps: seq<Point>): (r: seq<Value>)
    ensures |r| == |ps| && forall i :: 0 <= i < |ps| ==> r[i] == PointValue(ps[i])
  {
    seq(|ps|, i requires 0 <= i < |ps| => PointValue(ps[i]))
  }

  /** The strings as the definitions list them. */
  function StrValues(ss: seq<string>): (r: seq<Value>)
    ensures |r| == |ss| && forall i :: 0 <= i < |ss| ==> r[i] == Str(ss[i])
  {
    seq(|ss|, i requires 0 <= i < |ss| => Str(ss[i]))
  }
}
