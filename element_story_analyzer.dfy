/**
 * The element story analyser (core/element_story_analyzer.py): the story an
 * element belongs to is decided in three stages, the `floor` attribute
 * (confidence 1.0), the story of a representative node (0.8) and the
 * elevation of a representative point (0.6). When all three fail the
 * element is reported with a ConversionError; batch mode skips it.
 *
 * Story elevations are a dictionary in the source; its insertion order is
 * the order of the sequence here. `str(value)` is the parameter `show`.
 */
module ElementStoryAnalyzer {
  import opened Wrappers
  import opened Values

  /** `StoryAnalysisResult`. */
  datatype Analysis = Analysis(
    storyName: string,
    confidence: real,
    analysisMethod: string,
    coordinates: Option<(real, real, real)>,
    nodeIds: Option<seq<Value>>)

  /** `{story_name: (base_z, top_z)}` in insertion order. */
  type Elevations = seq<(string, real, real)>

  /** `str(v)`: a string is itself. */
  function StrOf(v: Value, show: Value -> string): (s: string)
    ensures v.Str? ==> s == v.s
  {
    if v.Str? then v.s else show(v)
  }

  // ------------------------------------------------------------ stage 1

  /** `_analyze_by_floor_attribute`. */
  function FloorStage(e: Dict, show: Value -> string): (r: Option<Analysis>)
    ensures r.Some? <==> "floor" in e && Truthy(e["floor"])
    ensures r.Some? ==> r.value == Analysis(StrOf(e["floor"], show), 1.0, "floor_attribute", None, None)
  {
    var f := Lookup(e, "floor");
    if Truthy(f) then Some(Analysis(StrOf(f, show), 1.0, "floor_attribute", None, None)) else None
  }

  // ------------------------------------------------------------ stage 2

  /** A key of the node selection strategy: a plain key, or the first item of a list key (`node_ids[0]`). */
  datatype NodeKey = Direct(key: string) | First(key: string)

  /** `node_selection_strategy`: the keys that name an element type's representative nodes. */
  function Strategy(t: string): seq<NodeKey>
  {
    if t == "beam" || t == "girder" || t == "brace" then [Direct("start_node_id")]
    else if t == "column" || t == "pile" || t == "foundation_column" then [Direct("bottom_node_id")]
    else if t == "wall" || t == "slab" || t == "footing" then [First("node_ids"), Direct("primary_node_id")]
    else []
  }

  /** The nodes one key contributes: a list is spliced in, another value is written with `str`. */
  function NodesFor(e: Dict, k: NodeKey, show: Value -> string): (r: seq<Value>)
    ensures k.key !in e ==> r == []
    ensures k.First? ==> (r != [] <==> k.key in e && e[k.key].List? && |e[k.key].items| > 0)
  {
    if k.key !in e then []
    else
      var v := e[k.key];
      match k
      case First(_) => if v.List? && |v.items| > 0 then [v.items[0]] else []
      case Direct(_) => if v.List? then v.items else [Str(StrOf(v, show))]
  }

  /** The nodes of every key, in strategy order. */
  function CollectNodes(e: Dict, keys: seq<NodeKey>, show: Value -> string): seq<Value>
  {
    if keys == [] then [] else NodesFor(e, keys[0], show) + CollectNodes(e, keys[1..], show)
  }

  /** The truthy values, in order. */
  function TruthyOnly(vs: seq<Value>): (r: seq<Value>)
    ensures |r| <= |vs|
    ensures forall i :: 0 <= i < |r| ==> Truthy(r[i])
    ensures (forall i :: 0 <= i < |vs| ==> Truthy(vs[i])) ==> r == vs
  {
    if vs == [] then []
    else if Truthy(vs[0]) then [vs[0]] + TruthyOnly(vs[1..])
    else TruthyOnly(vs[1..])
  }

  /** `_get_representative_node_ids`: an unknown element type has none. */
  function RepresentativeNodes(e: Dict, t: string, show: Value -> string): (r: seq<Value>)
    ensures Strategy(t) == [] ==> r == []
    ensures forall i :: 0 <= i < |r| ==> Truthy(r[i])
  {
    TruthyOnly(CollectNodes(e, Strategy(t), show))
  }

  /** A value that can be looked up in a dictionary; a list or a dict raises TypeError. */
  predicate Hashable(v: Value)
  {
    !v.List? && !v.Dict?
  }

  /** The story of the first node found in the node-story map. */
  function FindStory(nodes: seq<Value>, m: map<string, string>): (r: Result<Option<string>>)
    ensures (forall i :: 0 <= i < |nodes| ==> Hashable(nodes[i])) ==> r.Ok?
    ensures r == Ok(None) ==> forall i :: 0 <= i < |nodes| && nodes[i].Str? ==> nodes[i].s !in m
    ensures |nodes| > 0 && nodes[0].Str? && nodes[0].s in m ==> r == Ok(Some(m[nodes[0].s]))
    ensures r.Err? ==> r.error.TypeError?
  {
    if nodes == [] then Ok(None)
    else if !Hashable(nodes[0]) then Err(TypeError("unhashable type"))
    else if nodes[0].Str? && nodes[0].s in m then Ok(Some(m[nodes[0].s]))
    else
      var r := FindStory(nodes[1..], m);
      assert forall i :: 1 <= i < |nodes| ==> nodes[i] == nodes[1..][i - 1];
      r
  }

  /** `_analyze_by_node_ids`. */
  function NodeStage(e: Dict, t: string, m: map<string, string>, show: Value -> string): (r: Result<Option<Analysis>>)
    ensures RepresentativeNodes(e, t, show) == [] ==> r == Ok(None)
    ensures r.Ok? && r.value.Some? ==> r.value.value.confidence == 0.8 && r.value.value.analysisMethod == "node_ids"
  {
    var nodes := RepresentativeNodes(e, t, show);
    if nodes == [] then Ok(None)
    else
      match FindStory(nodes, m)
      case Err(err) => Err(err)
      case Ok(None) => Ok(None)
      case Ok(Some(s)) => Ok(Some(Analysis(s, 0.8, "node_ids", None, Some(nodes))))
  }

  // ------------------------------------------------------------ stage 3

  /** The keys searched for a point, in order. */
  const CoordinateKeys: seq<string> := ["start_point", "end_point", "center_point", "point", "coordinates", "position"]

  /** `coord_data.get('z', coord_data.get('Z'))`. */
  function ZEntry(m: Dict): Value
  {
    LookupOr(m, "z", Lookup(m, "Z"))
  }

  /** The key gives a height: a dict whose z (else Z) is not None, or a list of at least three entries. */
  predicate GivesZ(e: Dict, k: string)
  {
    k in e && ((e[k].Dict? && ZEntry(e[k].m) != Null) || (e[k].List? && |e[k].items| >= 3))
  }

  /** `float(...)` of the height the key gives. */
  function ZAt(e: Dict, k: string): Result<Option<real>>
    requires GivesZ(e, k)
  {
    var v := if e[k].Dict? then ZEntry(e[k].m) else e[k].items[2];
    match ToFloat(v)
    case Ok(z) => Ok(Some(z))
    case Err(err) => Err(err)
  }

  /** Index of the first key that gives a height, or the number of keys. */
  function FirstGivingZ(e: Dict, keys: seq<string>): (k: nat)
    ensures k <= |keys|
    ensures forall j :: 0 <= j < k ==> !GivesZ(e, keys[j])
    ensures k < |keys| ==> GivesZ(e, keys[k])
  {
    if keys == [] then 0
    else if GivesZ(e, keys[0]) then 0
    else 1 + FirstGivingZ(e, keys[1..])
  }

  /**
   * `_get_element_z_coordinate` over the remaining keys: the height of the
   * first key that gives one (a present key that gives none is passed
   * over), and None when no key does.
   */
  function ZFrom(e: Dict, keys: seq<string>): (r: Result<Option<real>>)
    ensures (forall i :: 0 <= i < |keys| ==> keys[i] !in e) ==> r == Ok(None)
    ensures FirstGivingZ(e, keys) == |keys| ==> r == Ok(None)
    ensures FirstGivingZ(e, keys) < |keys| ==> r == ZAt(e, keys[FirstGivingZ(e, keys)])
  {
    if keys == [] then Ok(None)
    else if GivesZ(e, keys[0]) then ZAt(e, keys[0])
    else ZFrom(e, keys[1..])
  }

  /** Index of the first story whose closed range holds `z`, or the number of stories. */
  function FirstContaining(el: Elevations, z: real): (k: nat)
    ensures k <= |el|
    ensures forall j :: 0 <= j < k ==> !(el[j].1 <= z <= el[j].2)
    ensures k < |el| ==> el[k].1 <= z <= el[k].2
  {
    if el == [] then 0
    else if el[0].1 <= z <= el[0].2 then 0
    else 1 + FirstContaining(el[1..], z)
  }

  /** `_analyze_by_coordinates`: no elevations, no point or no containing story is a failure. */
  function CoordinateStage(e: Dict, el: Elevations): (r: Result<Option<Analysis>>)
    ensures el == [] ==> r == Ok(None)
    ensures r.Ok? && r.value.Some? ==> r.value.value.confidence == 0.6 && r.value.value.analysisMethod == "coordinates"
  {
    if el == [] then Ok(None)
    else
      match ZFrom(e, CoordinateKeys)
      case Err(err) => Err(err)
      case Ok(None) => Ok(None)
      case Ok(Some(z)) =>
        var k := FirstContaining(el, z);
        if k < |el| then Ok(Some(Analysis(el[k].0, 0.6, "coordinates", Some((0.0, 0.0, z)), None)))
        else Ok(None)
  }

  // ------------------------------------------------------------ the three stages

  /**
   * `analyze_element_story_relationship`: the first stage that succeeds
   * decides; an exception in a stage and the failure of all three are
   * ConversionErrors.
   */
  function Analyze(e: Dict, t: string, m: map<string, string>, el: Elevations, show: Value -> string): (r: Result<Analysis>)
    ensures r.Err? ==> r.error.ConversionError?
    ensures FloorStage(e, show).Some? ==> r == Ok(FloorStage(e, show).value)
    ensures FloorStage(e, show).None? && NodeStage(e, t, m, show).Ok? && NodeStage(e, t, m, show).value.Some? ==>
      r == Ok(NodeStage(e, t, m, show).value.value)
  {
    match FloorStage(e, show)
    case Some(a) => Ok(a)
    case None =>
      match NodeStage(e, t, m, show)
      case Err(err) => Err(ConversionError("story analysis error"))
      case Ok(Some(a)) => Ok(a)
      case Ok(None) =>
        match CoordinateStage(e, el)
        case Err(err) => Err(ConversionError("story analysis error"))
        case Ok(Some(a)) => Ok(a)
        case Ok(None) => Err(ConversionError("all three stages failed"))
  }

  /** The floor attribute wins over nodes and coordinates, with confidence 1.0. */
  lemma FloorFirst(e: Dict, t: string, m: map<string, string>, el: Elevations, show: Value -> string)
    requires "floor" in e && e["floor"] == Str("2FL")
    ensures Analyze(e, t, m, el, show) == Ok(Analysis("2FL", 1.0, "floor_attribute", None, None))
  {
  }

  /** Without a floor, a beam takes the story of its start node, with confidence 0.8. */
  lemma BeamStartNodeSecond(e: Dict, m: map<string, string>, el: Elevations, show: Value -> string, id: string)
    requires "floor" !in e && "start_node_id" in e && e["start_node_id"] == Str(id) && id != "" && id in m
    ensures Analyze(e, "beam", m, el, show) == Ok(Analysis(m[id], 0.8, "node_ids", None, Some([Str(id)])))
  {
    assert CollectNodes(e, Strategy("beam"), show) == [Str(id)];
  }

  /** An unknown element type goes straight from the floor attribute to coordinates. */
  lemma UnknownTypeUsesCoordinates(e: Dict, m: map<string, string>, el: Elevations, show: Value -> string)
    requires "floor" !in e
    ensures Analyze(e, "parapet", m, el, show).Ok? ==> Analyze(e, "parapet", m, el, show).value.analysisMethod == "coordinates"
  {
  }

  /** With no story elevations and no node match, the analysis fails. */
  lemma NoElevationsFails(e: Dict, t: string, m: map<string, string>, show: Value -> string)
    requires FloorStage(e, show).None? && NodeStage(e, t, m, show) == Ok(None)
    ensures Analyze(e, t, m, [], show) == Err(ConversionError("all three stages failed"))
  {
  }

  /** A point on the boundary of two stories belongs to the one listed first. */
  lemma BoundaryGoesToFirstStory(e: Dict, lower: string, upper: string, z: real)
    requires "start_point" in e && e["start_point"] == Dict(map["z" := Num(z)])
    ensures CoordinateStage(e, [(lower, z - 3000.0, z), (upper, z, z + 3000.0)]) ==
      Ok(Some(Analysis(lower, 0.6, "coordinates", Some((0.0, 0.0, z)), None)))
  {
    var d := map["z" := Num(z)];
    assert LookupOr(d, "z", Lookup(d, "Z")) == Num(z);
  }

  /** A wall with an empty `node_ids` list is not indexed; its primary node is used alone. */
  lemma WallEmptyNodeList(e: Dict, show: Value -> string, id: string)
    requires "node_ids" in e && e["node_ids"] == List([]) && "primary_node_id" in e && e["primary_node_id"] == Str(id) && id != ""
    ensures RepresentativeNodes(e, "wall", show) == [Str(id)]
  {
    assert NodesFor(e, First("node_ids"), show) == [];
    assert NodesFor(e, Direct("primary_node_id"), show) == [Str(id)];
    assert Strategy("wall")[1..] == [Direct("primary_node_id")];
    assert CollectNodes(e, [Direct("primary_node_id")], show) == [Str(id)];
  }

  // ------------------------------------------------------------ batch mode

  /** `{story_name: {element_type: [element_def, ...]}}`. */
  type Groups = map<string, map<string, seq<Dict>>>

  /** The three keys batch mode writes into an analysed element. */
  function Annotate(e: Dict, a: Analysis): (r: Dict)
    ensures "assigned_story" in r && r["assigned_story"] == Str(a.storyName)
    ensures "analysis_confidence" in r && r["analysis_confidence"] == Num(a.confidence)
    ensures "analysis_method" in r && r["analysis_method"] == Str(a.analysisMethod)
    ensures forall k :: k in e && k != "assigned_story" && k != "analysis_confidence" && k != "analysis_method" ==> k in r && r[k] == e[k]
  {
    e["assigned_story" := Str(a.storyName)]["analysis_confidence" := Num(a.confidence)]["analysis_method" := Str(a.analysisMethod)]
  }

  /** The list `groups[s][t]`, empty when either level is missing. */
  function Bucket(g: Groups, s: string, t: string): seq<Dict>
  {
    if s in g && t in g[s] then g[s][t] else []
  }

  /** One element of batch mode: annotated and appended to its story and type, or skipped. */
  function AddElement(g: Groups, t: string, e: Dict, res: Result<Analysis>): (r: Groups)
    ensures res.Err? ==> r == g
    ensures res.Ok? ==> Bucket(r, res.value.storyName, t) == Bucket(g, res.value.storyName, t) + [Annotate(e, res.value)]
    ensures res.Ok? ==> forall s, u :: (s != res.value.storyName || u != t) ==> Bucket(r, s, u) == Bucket(g, s, u)
  {
    if res.Err? then g
    else
      var s := res.value.storyName;
      var inner := if s in g then g[s] else map[];
      g[s := inner[t := Bucket(g, s, t) + [Annotate(e, res.value)]]]
  }

  /** The (type, element) pairs in the order batch mode visits them. */
  function Flatten(defs: seq<(string, seq<Dict>)>): seq<(string, Dict)>
  {
    if defs == [] then [] else Flatten(defs[..|defs| - 1]) + Pairs(defs[|defs| - 1].0, defs[|defs| - 1].1)
  }

  function Pairs(t: string, es: seq<Dict>): (r: seq<(string, Dict)>)
    ensures |r| == |es| && forall i :: 0 <= i < |es| ==> r[i] == (t, es[i])
  {
    seq(|es|, i requires 0 <= i < |es| => (t, es[i]))
  }

  /** The groups batch mode holds after visiting `items`, starting from `g`. */
  function GroupFrom(g: Groups, items: seq<(string, Dict)>, m: map<string, string>, el: Elevations, show: Value -> string): Groups
  {
    if items == [] then g
    else
      var last := items[|items| - 1];
      AddElement(GroupFrom(g, items[..|items| - 1], m, el, show), last.0, last.1, Analyze(last.1, last.0, m, el, show))
  }

  /** The groups of a whole batch. */
  function GroupAll(items: seq<(string, Dict)>, m: map<string, string>, el: Elevations, show: Value -> string): Groups
  {
    GroupFrom(map[], items, m, el, show)
  }

  lemma GroupFromSnoc(g: Groups, items: seq<(string, Dict)>, x: (string, Dict), m: map<string, string>, el: Elevations, show: Value -> string)
    ensures GroupFrom(g, items + [x], m, el, show) == AddElement(GroupFrom(g, items, m, el, show), x.0, x.1, Analyze(x.1, x.0, m, el, show))
  {
    assert (items + [x])[..|items|] == items;
  }

  lemma GroupFromAppend(g: Groups, xs: seq<(string, Dict)>, ys: seq<(string, Dict)>, m: map<string, string>, el: Elevations, show: Value -> string)
    ensures GroupFrom(g, xs + ys, m, el, show) == GroupFrom(GroupFrom(g, xs, m, el, show), ys, m, el, show)
  {
    var step := StepOf(m, el, show);
    GroupFromIsFold(g, xs + ys, m, el, show);
    GroupFromIsFold(g, xs, m, el, show);
    GroupFromIsFold(GroupFrom(g, xs, m, el, show), ys, m, el, show);
    FoldAppend(step, g, xs, ys);
  }

  /** One step of batch mode as a function value. */
  function StepOf(m: map<string, string>, el: Elevations, show: Value -> string): (Groups, (string, Dict)) -> Groups
  {
    (acc: Groups, x: (string, Dict)) => AddElement(acc, x.0, x.1, Analyze(x.1, x.0, m, el, show))
  }

  /** A left fold of `step` over `items`, from `g`. */
  function Fold(step: (Groups, (string, Dict)) -> Groups, g: Groups, items: seq<(string, Dict)>): Groups
  {
    if items == [] then g else step(Fold(step, g, items[..|items| - 1]), items[|items| - 1])
  }

  /** Folding over two lists in a row is folding over the first, then over the second from there. */
  lemma {:induction false} FoldAppend(step: (Groups, (string, Dict)) -> Groups, g: Groups, xs: seq<(string, Dict)>, ys: seq<(string, Dict)>)
    ensures Fold(step, g, xs + ys) == Fold(step, Fold(step, g, xs), ys)
    decreases |ys|
  {
    if ys == [] {
      assert xs + ys == xs;
    } else {
      assert (xs + ys)[..|xs + ys| - 1] == xs + ys[..|ys| - 1];
      FoldAppend(step, g, xs, ys[..|ys| - 1]);
    }
  }

  /** Batch mode's grouping is the fold of its step. */
  lemma {:induction false} GroupFromIsFold(g: Groups, items: seq<(string, Dict)>, m: map<string, string>, el: Elevations, show: Value -> string)
    ensures GroupFrom(g, items, m, el, show) == Fold(StepOf(m, el, show), g, items)
    decreases |items|
  {
    if items != [] {
      GroupFromIsFold(g, items[..|items| - 1], m, el, show);
    }
  }


  /** Every grouped element carries the story it is grouped under. */
  predicate Annotated(g: Groups)
  {
    forall s, t, i :: s in g && t in g[s] && 0 <= i < |g[s][t]| ==>
      "assigned_story" in g[s][t][i] && g[s][t][i]["assigned_story"] == Str(s)
  }

  lemma AddKeepsAnnotated(g: Groups, t: string, e: Dict, res: Result<Analysis>)
    requires Annotated(g)
    ensures Annotated(AddElement(g, t, e, res))
  {
    var r := AddElement(g, t, e, res);
    forall s, u, i | s in r && u in r[s] && 0 <= i < |r[s][u]|
      ensures "assigned_story" in r[s][u][i] && r[s][u][i]["assigned_story"] == Str(s)
    {
      assert r[s][u] == Bucket(r, s, u);
      if res.Ok? && s == res.value.storyName && u == t {
        if i < |Bucket(g, s, u)| {
          assert r[s][u][i] == g[s][u][i];
        }
      } else {
        assert r[s][u] == Bucket(g, s, u);
        assert r[s][u][i] == g[s][u][i];
      }
    }
  }

  /** Batch mode writes the assigned story into every element it groups, under that story. */
  lemma {:induction false} GroupedAreAnnotated(items: seq<(string, Dict)>, m: map<string, string>, el: Elevations, show: Value -> string)
    ensures Annotated(GroupAll(items, m, el, show))
  {
    if items != [] {
      var last := items[|items| - 1];
      GroupedAreAnnotated(items[..|items| - 1], m, el, show);
      AddKeepsAnnotated(GroupFrom(map[], items[..|items| - 1], m, el, show), last.0, last.1, Analyze(last.1, last.0, m, el, show));
    }
  }

  /** An element all of whose stages fail leaves the groups as they were. */
  lemma FailedElementSkipped(items: seq<(string, Dict)>, t: string, e: Dict, m: map<string, string>, el: Elevations, show: Value -> string)
    requires Analyze(e, t, m, el, show).Err?
    ensures GroupAll(items + [(t, e)], m, el, show) == GroupAll(items, m, el, show)
  {
    GroupFromSnoc(map[], items, (t, e), m, el, show);
  }

  /** The analyser: the node-story map it was built with and the elevations last set. */
  /** One more element of a type is one more step of the grouping. */
  lemma GroupFromPairsStep(g0: Groups, t: string, elements: seq<Dict>, j: nat, m: map<string, string>, el: Elevations, show: Value -> string)
    requires j < |elements|
    ensures GroupFrom(g0, Pairs(t, elements[..j + 1]), m, el, show)
      == AddElement(GroupFrom(g0, Pairs(t, elements[..j]), m, el, show), t, elements[j], Analyze(elements[j], t, m, el, show))
  {
    assert Pairs(t, elements[..j + 1]) == Pairs(t, elements[..j]) + [(t, elements[j])];
    GroupFromSnoc(g0, Pairs(t, elements[..j]), (t, elements[j]), m, el, show);
  }

  class Analyzer {
    var nodeStoryMap: map<string, string>
    var storyElevations: Elevations

    constructor (m: map<string, string>)
      ensures nodeStoryMap == m && storyElevations == []
    {
      nodeStoryMap := m;
      storyElevations := [];
    }

    /** `set_story_elevations`. */
    method SetStoryElevations(el: Elevations)
      modifies this
      ensures storyElevations == el && nodeStoryMap == old(nodeStoryMap)
    {
      storyElevations := el;
    }

    /** `analyze_element_story_relationship` with the analyser's current state. */
    function AnalyzeElement(e: Dict, t: string, show: Value -> string): (r: Result<Analysis>)
      reads this
      ensures r == Analyze(e, t, nodeStoryMap, storyElevations, show)
    {
      Analyze(e, t, nodeStoryMap, storyElevations, show)
    }

    /** The elements of one type, analysed in order and added to `g0`. */
    method AnalyzeType(g0: Groups, t: string, elements: seq<Dict>, show: Value -> string) returns (g: Groups)
      ensures g == GroupFrom(g0, Pairs(t, elements), nodeStoryMap, storyElevations, show)
    {
      g := g0;
      var j := 0;
      while j < |elements|
        invariant 0 <= j <= |elements|
        invariant g == GroupFrom(g0, Pairs(t, elements[..j]), nodeStoryMap, storyElevations, show)
      {
        var res := AnalyzeElement(elements[j], t, show);
        GroupFromPairsStep(g0, t, elements, j, nodeStoryMap, storyElevations, show);
        g := AddElement(g, t, elements[j], res);
        j := j + 1;
      }
      assert elements[..j] == elements;
    }

    /**
     * `batch_analyze_elements`: the elevations are set, then every element
     * of every type is analysed in order; those that fail are skipped.
     */
    method BatchAnalyze(defs: seq<(string, seq<Dict>)>, el: Elevations, show: Value -> string) returns (groups: Groups)
      modifies this
      ensures storyElevations == el && nodeStoryMap == old(nodeStoryMap)
      ensures groups == GroupAll(Flatten(defs), nodeStoryMap, el, show)
      ensures Annotated(groups)
    {
      SetStoryElevations(el);
      groups := map[];
      var i := 0;
      while i < |defs|
        invariant 0 <= i <= |defs|
        invariant storyElevations == el && nodeStoryMap == old(nodeStoryMap)
        invariant groups == GroupAll(Flatten(defs[..i]), nodeStoryMap, el, show)
      {
        var next := AnalyzeType(groups, defs[i].0, defs[i].1, show);
        GroupFromAppend(map[], Flatten(defs[..i]), Pairs(defs[i].0, defs[i].1), nodeStoryMap, el, show);
        assert defs[..i + 1][..i] == defs[..i];
        groups := next;
        i := i + 1;
      }
      assert defs[..i] == defs;
      GroupedAreAnnotated(Flatten(defs), nodeStoryMap, el, show);
    }
  }
}
