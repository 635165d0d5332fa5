/**
 * The story converter (ifcCreator/core/story_converter.py): it creates IFC
 * storeys from STB stories, sets each element's floor from the node/story
 * map, drops elements already created (by id, then by name) and hands the
 * rest to the element factory; finally it places every tracked element in
 * the storey named by its floor, or in "GL" when that storey does not exist.
 *
 * The project builder is a parameter: `addStorey(name, elevation)` gives the
 * new storey. `show` is Python's `str`.
 */
module StoryConverter {
  import opened Wrappers
  import opened Values
  import Strs
  import opened BaseCreator
  import opened ElementCreationFactory

  /** The element definitions by key ("beam_defs", ...), in dictionary order. */
  type ElementDefs = seq<(string, seq<Dict>)>

  /** The created storeys by name, in dictionary order. */
  type Storeys = seq<(Value, Value)>

  function StoreyNames(s: Storeys): (r: seq<Value>)
    ensures |r| == |s| && forall i :: 0 <= i < |s| ==> r[i] == s[i].0
  {
    seq(|s|, i requires 0 <= i < |s| => s[i].0)
  }

  /** `d[k] = v` on an ordered dictionary. */
  function PutStorey(s: Storeys, k: Value, v: Value): (r: Storeys)
    ensures k in StoreyNames(r)
    ensures forall x :: x in StoreyNames(r) <==> x == k || x in StoreyNames(s)
  {
    if s == [] then
      var r := [(k, v)];
      assert StoreyNames(r)[0] == k;
      r
    else if s[0].0 == k then
      var r := [(k, v)] + s[1..];
      assert StoreyNames(r)[0] == k;
      assert StoreyNames(r)[1..] == StoreyNames(s)[1..];
      assert StoreyNames(s) == [s[0].0] + StoreyNames(s[1..]);
      r
    else
      var rest := PutStorey(s[1..], k, v);
      assert StoreyNames([s[0]] + rest) == [s[0].0] + StoreyNames(rest);
      assert StoreyNames(s) == [s[0].0] + StoreyNames(s[1..]);
      [s[0]] + rest
  }

  /** `created_storeys.get(name)`. */
  function StoreyOf(s: Storeys, k: Value): (r: Value)
    ensures k !in StoreyNames(s) ==> r == Null
  {
    if s == [] then Null
    else if s[0].0 == k then s[0].1
    else
      assert StoreyNames(s) == [s[0].0] + StoreyNames(s[1..]);
      StoreyOf(s[1..], k)
  }

  // ------------------------------------------------------------ storeys

  /** The storey `convert_stb_story_to_ifc_story` adds: name (default "Storey") and elevation = height / 1000. */
  function StoreyParameters(story: Dict): (r: Result<(Value, real)>)
    ensures "name" !in story && "height" !in story ==> r == Ok((Str("Storey"), 0.0))
    ensures r.Ok? && "height" in story ==> ToFloat(story["height"]) == Ok(r.value.1 * 1000.0)
  {
    match ToFloat(LookupOr(story, "height", Num(0.0)))
    case Err(e) => Err(e)
    case Ok(h) => Ok((LookupOr(story, "name", Str("Storey")), h / 1000.0))
  }

  // ------------------------------------------------------------ floor assignment

  /** The first truthy of bottom_node_id, start_node_id, node_id and primary_node_id. */
  function FloorNode(d: Dict): (r: Option<Value>)
    ensures r.Some? ==> Truthy(r.value)
    ensures Truthy(Lookup(d, "bottom_node_id")) ==> r == Some(d["bottom_node_id"])
    ensures !Truthy(Lookup(d, "bottom_node_id")) && Truthy(Lookup(d, "start_node_id")) ==> r == Some(d["start_node_id"])
    ensures r.None? <==> (!Truthy(Lookup(d, "bottom_node_id")) && !Truthy(Lookup(d, "start_node_id"))
      && !Truthy(Lookup(d, "node_id")) && !Truthy(Lookup(d, "primary_node_id")))
  {
    if Truthy(Lookup(d, "bottom_node_id")) then Some(d["bottom_node_id"])
    else if Truthy(Lookup(d, "start_node_id")) then Some(d["start_node_id"])
    else if Truthy(Lookup(d, "node_id")) then Some(d["node_id"])
    else if Truthy(Lookup(d, "primary_node_id")) then Some(d["primary_node_id"])
    else None
  }

  /** The text of a value as `str` writes it. */
  function Text(v: Value, show: Value -> string): string
  {
    if v.Str? then v.s else show(v)
  }

  /** The floor `convert_elements_for_story` writes: the node's story when the map has one, else the current story. */
  function AssignedFloor(d: Dict, m: map<string, string>, current: Value, show: Value -> string): (r: Value)
    ensures (FloorNode(d).Some? && Text(FloorNode(d).value, show) != "" && Text(FloorNode(d).value, show) in m
      && m[Text(FloorNode(d).value, show)] != "") ==> r == Str(m[Text(FloorNode(d).value, show)])
    ensures FloorNode(d).None? ==> r == current
  {
    match FloorNode(d)
    case None => current
    case Some(n) =>
      var nid := Text(n, show);
      if nid != "" && nid in m && m[nid] != "" then Str(m[nid]) else current
  }

  /** Every definition of every type gets its floor set; an existing floor is overwritten. */
  function AssignFloors(defs: ElementDefs, m: map<string, string>, current: Value, show: Value -> string): (r: ElementDefs)
    ensures |r| == |defs|
    ensures forall i :: 0 <= i < |defs| ==> r[i].0 == defs[i].0 && |r[i].1| == |defs[i].1|
    ensures forall i, j :: 0 <= i < |defs| && 0 <= j < |defs[i].1| ==>
      r[i].1[j] == defs[i].1[j]["floor" := AssignedFloor(defs[i].1[j], m, current, show)]
  {
    seq(|defs|, i requires 0 <= i < |defs| =>
      (defs[i].0, seq(|defs[i].1|, j requires 0 <= j < |defs[i].1| =>
        defs[i].1[j]["floor" := AssignedFloor(defs[i].1[j], m, current, show)])))
  }

  /** The floor an element carried before is lost: without a node story it becomes the current story. */
  lemma OwnFloorOverwritten(d: Dict, m: map<string, string>, current: Value, show: Value -> string)
    requires "floor" in d && d["floor"] != current && FloorNode(d).None?
    ensures AssignFloors([("beam_defs", [d])], m, current, show)[0].1[0]["floor"] == current
  {
  }

  // ------------------------------------------------------------ filtering by story

  /** `element.get("type", "").lower()`: a missing type is "", a type that is not text (None included) raises. */
  function TypeOf(e: Dict): (r: Result<string>)
    ensures "type" !in e ==> r == Ok("")
    ensures "type" in e && e["type"].Str? ==> r == Ok(Strs.Lower(e["type"].s))
    ensures "type" in e && !e["type"].Str? ==> r.Err?
  {
    if "type" !in e then Ok("")
    else if e["type"].Str? then Ok(Strs.Lower(e["type"].s))
    else Err(AttributeError("type has no lower"))
  }

  /** `node_story_map.get(id)`: only text ids can be keys. */
  function MapGet(m: map<string, string>, id: Value): (r: Value)
    ensures r != Null ==> id.Str? && id.s in m && r == Str(m[id.s])
  {
    if id.Str? && id.s in m then Str(m[id.s]) else Null
  }

  /** `x in story_node_ids` for a list of node ids. */
  predicate InNodeList(x: Value, ids: Value)
  {
    ids.List? && x in ids.items
  }

  /** One node decides: by the map when it is non-empty and the story has a name, else by the story's node list. */
  predicate NodeDecides(n: Value, ids: Value, floor: Value, m: map<string, string>)
  {
    if |m| > 0 && Truthy(floor) then MapGet(m, n) == floor else InNodeList(n, ids)
  }

  /** `node_ids[0]` when the list (or text) is non-empty. */
  function FirstOf(v: Value): (r: Option<Value>)
    ensures v.List? && v.items != [] ==> r == Some(v.items[0])
  {
    if v.List? && v.items != [] then Some(v.items[0])
    else if v.Str? && v.s != "" then Some(Str([v.s[0]]))
    else None
  }

  /** `_element_belongs_to_story_by_nodes` for an element of lower-cased type `t`: one representative node per element type. */
  predicate BelongsByNodes(e: Dict, t: string, ids: Value, floor: Value, m: map<string, string>)
  {
    if t == "beam" || t == "girder" || t == "brace" then
      Truthy(Lookup(e, "start_node_id")) && NodeDecides(e["start_node_id"], ids, floor, m)
    else if t == "column" || t == "pile" || t == "foundationcolumn" then
      Truthy(Lookup(e, "bottom_node_id")) && NodeDecides(e["bottom_node_id"], ids, floor, m)
    else if t == "wall" || t == "slab" then
      var first := FirstOf(LookupOr(e, "node_ids", List([])));
      if first.Some? then NodeDecides(first.value, ids, floor, m)
      else Truthy(Lookup(e, "primary_node_id")) && NodeDecides(e["primary_node_id"], ids, floor, m)
    else
      Truthy(Lookup(e, "node_id")) && NodeDecides(e["node_id"], ids, floor, m)
  }

  /** `float(p["z"])` of a point: a missing point, key or number raises. */
  function PointZ(p: Value): (r: Result<real>)
    ensures p.Dict? && "z" in p.m && p.m["z"].Num? ==> r == Ok(p.m["z"].r)
    ensures !p.Dict? ==> r.Err?
  {
    if !p.Dict? then Err(TypeError("point is not subscriptable"))
    else if "z" !in p.m then Err(KeyError("z"))
    else ToFloat(p.m["z"])
  }

  /** The midpoint height of two points. */
  function MidZ(a: Value, b: Value): Result<real>
  {
    match (PointZ(a), PointZ(b))
    case (Ok(x), Ok(y)) => Ok((x + y) / 2.0)
    case (Err(e), _) => Err(e)
    case (_, Err(e)) => Err(e)
  }

  /** `_get_element_z_coordinate`: start/end midpoint, bottom/top midpoint, point, top, bottom, else None. */
  function ElementZ(e: Dict): (r: Result<Option<real>>)
    ensures "start_point" in e && "end_point" in e && e["start_point"] != Null && e["end_point"] != Null
      ==> r == (match MidZ(e["start_point"], e["end_point"]) case Ok(z) => Ok(Some(z)) case Err(x) => Err(x))
    ensures (forall k :: k in ["start_point", "end_point", "bottom_point", "top_point", "point"] ==> k !in e) ==> r == Ok(None)
  {
    if "start_point" in e && "end_point" in e && e["start_point"] != Null && e["end_point"] != Null then
      match MidZ(e["start_point"], e["end_point"]) case Ok(z) => Ok(Some(z)) case Err(x) => Err(x)
    else if "bottom_point" in e && "top_point" in e && e["bottom_point"] != Null && e["top_point"] != Null then
      match MidZ(e["bottom_point"], e["top_point"]) case Ok(z) => Ok(Some(z)) case Err(x) => Err(x)
    else if "point" in e then
      match PointZ(e["point"]) case Ok(z) => Ok(Some(z)) case Err(x) => Err(x)
    else if "top_point" in e then
      match PointZ(e["top_point"]) case Ok(z) => Ok(Some(z)) case Err(x) => Err(x)
    else if "bottom_point" in e then
      match PointZ(e["bottom_point"]) case Ok(z) => Ok(Some(z)) case Err(x) => Err(x)
    else Ok(None)
  }

  /** `_element_belongs_to_story_by_coordinates`: base <= z < base + floor_height, base = story height (default 0), floor height default 3000. */
  function BelongsByCoordinates(e: Dict, story: Dict): (r: Result<bool>)
    ensures ElementZ(e) == Ok(None) ==> r == Ok(false)
    ensures ElementZ(e).Ok? && ElementZ(e).value.Some? && "height" !in story && "floor_height" !in story ==>
      r == Ok(0.0 <= ElementZ(e).value.value < 3000.0)
  {
    match ElementZ(e)
    case Err(x) => Err(x)
    case Ok(None) => Ok(false)
    case Ok(Some(z)) =>
      match (ToFloat(LookupOr(story, "height", Num(0.0))), ToFloat(LookupOr(story, "floor_height", Num(3000.0))))
      case (Ok(base), Ok(h)) => Ok(base <= z < base + h)
      case (Err(x), _) => Err(x)
      case (_, Err(x)) => Err(x)
  }

  /**
   * Whether `filter_elements_by_story` keeps an element: an equal floor
   * keeps it, a different non-empty floor drops it; without a floor the
   * node rule, then the height rule, then "walls and slabs are kept" decide.
   * The type is lower-cased before any of these, so a type that is not text
   * raises whatever the floor.
   */
  function ShouldInclude(e: Dict, story: Dict, m: map<string, string>): (r: Result<bool>)
    ensures TypeOf(e).Err? ==> r == Err(TypeOf(e).error)
    ensures TypeOf(e).Ok? && Lookup(e, "floor") == Lookup(story, "name") ==> r == Ok(true)
    ensures TypeOf(e).Ok? && Lookup(e, "floor") != Lookup(story, "name") && Truthy(Lookup(e, "floor")) ==> r == Ok(false)
    ensures (TypeOf(e).Ok? && !Truthy(Lookup(e, "floor")) && Lookup(e, "floor") != Lookup(story, "name")
      && Truthy(LookupOr(story, "node_ids", List([])))
      && BelongsByNodes(e, TypeOf(e).value, LookupOr(story, "node_ids", List([])), Lookup(story, "name"), m)) ==> r == Ok(true)
    ensures r == Ok(false) && !Truthy(Lookup(e, "floor")) ==> TypeOf(e).Ok? && TypeOf(e).value != "wall" && TypeOf(e).value != "slab"
  {
    match TypeOf(e)
    case Err(x) => Err(x)
    case Ok(t) =>
      var floor := Lookup(e, "floor");
      var name := Lookup(story, "name");
      var ids := LookupOr(story, "node_ids", List([]));
      if floor == name then Ok(true)
      else if Truthy(floor) then Ok(false)
      else if Truthy(ids) && BelongsByNodes(e, t, ids, name, m) then Ok(true)
      else
        match BelongsByCoordinates(e, story)
        case Err(x) => Err(x)
        case Ok(true) => Ok(true)
        case Ok(false) => Ok(t == "wall" || t == "slab")
  }

  /** The elements `filter_elements_by_story` keeps, in order; the first raising element raises. */
  function FilterByStory(es: seq<Dict>, story: Dict, m: map<string, string>): (r: Result<seq<Dict>>)
    ensures r.Ok? ==> |r.value| <= |es| && forall d :: d in r.value ==> d in es && ShouldInclude(d, story, m) == Ok(true)
  {
    if es == [] then Ok([])
    else
      var p := es[..|es| - 1];
      var e := es[|es| - 1];
      match FilterByStory(p, story, m)
      case Err(x) => Err(x)
      case Ok(kept) =>
        match ShouldInclude(e, story, m)
        case Err(x) => Err(x)
        case Ok(b) => Ok(if b then kept + [e] else kept)
  }

  // ------------------------------------------------------------ removing elements created before

  /** `_filter_uncreated_elements`: each type keeps the definitions whose id is not tracked. */
  function FilterUncreatedDefs(defs: ElementDefs, ts: seq<Tracked>): (r: ElementDefs)
    ensures |r| == |defs| && forall i :: 0 <= i < |defs| ==> r[i] == (defs[i].0, FilterUncreated(defs[i].1, TrackedIds(ts)))
  {
    seq(|defs|, i requires 0 <= i < |defs| => (defs[i].0, FilterUncreated(defs[i].1, TrackedIds(ts))))
  }

  /** `element.get("name") or element.get("stb_section_name", "")`. */
  function NameOf(e: Dict): Value
  {
    if Truthy(Lookup(e, "name")) then e["name"] else LookupOr(e, "stb_section_name", Str(""))
  }

  /** The definitions whose name is empty or not yet tracked, in order. */
  function UniqueByName(es: seq<Dict>, ts: seq<Tracked>): (r: seq<Dict>)
    ensures forall d :: d in r <==> d in es && !(Truthy(NameOf(d)) && CreatedByName(ts, NameOf(d), None))
  {
    if es == [] then []
    else
      var rest := UniqueByName(es[1..], ts);
      assert forall d :: d in es <==> d == es[0] || d in es[1..];
      (if Truthy(NameOf(es[0])) && CreatedByName(ts, NameOf(es[0]), None) then [] else [es[0]]) + rest
  }

  /** `_deduplicate_by_name_and_position`. */
  function DeduplicateByName(defs: ElementDefs, ts: seq<Tracked>): (r: ElementDefs)
    ensures |r| == |defs| && forall i :: 0 <= i < |defs| ==> r[i] == (defs[i].0, UniqueByName(defs[i].1, ts))
  {
    seq(|defs|, i requires 0 <= i < |defs| => (defs[i].0, UniqueByName(defs[i].1, ts)))
  }

  /** Names are only checked against what was created before: two new elements with one name are both kept. */
  lemma SameNameInOneBatchKept(a: Dict, b: Dict)
    requires NameOf(a) == NameOf(b) && a != b
    ensures UniqueByName([a, b], []) == [a, b]
  {
    assert !CreatedByName([], NameOf(a), None);
    assert !CreatedByName([], NameOf(b), None);
    assert [a, b][1..] == [b];
    assert [b][1..] == [];
    assert UniqueByName([], []) == [];
    assert UniqueByName([b], []) == [b];
  }

  // ------------------------------------------------------------ creation

  /** `element_defs.get(key)` on the ordered dictionary, [] when absent. */
  function DefsOf(defs: ElementDefs, key: string): seq<Dict>
  {
    if defs == [] then [] else if defs[0].0 == key then defs[0].1 else DefsOf(defs[1..], key)
  }

  /** The order `_create_elements` creates the kinds in, with their keys. */
  const CreationOrder: seq<(string, Kind)> := [
    ("beam_defs", Beam), ("column_defs", Column), ("brace_defs", Brace), ("pile_defs", Pile),
    ("slab_defs", Slab), ("wall_defs", Wall), ("footing_defs", Footing), ("foundation_column_defs", FoundationColumn)]

  // ------------------------------------------------------------ placing elements in storeys

  /** `storey_elements = {name: [] for name in created_storeys}`. */
  function EmptyGroups(s: Storeys): (r: seq<(Value, seq<Value>)>)
    ensures |r| == |s| && forall i :: 0 <= i < |s| ==> r[i] == (s[i].0, [])
  {
    seq(|s|, i requires 0 <= i < |s| => (s[i].0, []))
  }

  function GroupNames(g: seq<(Value, seq<Value>)>): (r: seq<Value>)
    ensures |r| == |g| && forall i :: 0 <= i < |g| ==> r[i] == g[i].0
  {
    seq(|g|, i requires 0 <= i < |g| => g[i].0)
  }

  /** The list of the first group named `k`. */
  function GroupOf(g: seq<(Value, seq<Value>)>, k: Value): seq<Value>
  {
    if g == [] then [] else if g[0].0 == k then g[0].1 else GroupOf(g[1..], k)
  }

  /** Appends `v` to the first group named `k`. */
  function AddTo(g: seq<(Value, seq<Value>)>, k: Value, v: Value): (r: seq<(Value, seq<Value>)>)
    ensures |r| == |g| && forall i :: 0 <= i < |g| ==> r[i].0 == g[i].0
  {
    if g == [] then []
    else if g[0].0 == k then [(k, g[0].1 + [v])] + g[1..]
    else [g[0]] + AddTo(g[1..], k, v)
  }

  lemma {:induction false} GroupOfAddTo(g: seq<(Value, seq<Value>)>, k: Value, v: Value, key: Value)
    requires k in GroupNames(g)
    ensures GroupOf(AddTo(g, k, v), key) == GroupOf(g, key) + (if key == k then [v] else [])
  {
    if g[0].0 != k {
      assert k in GroupNames(g[1..]) by {
        var i :| 0 <= i < |g| && GroupNames(g)[i] == k;
        assert GroupNames(g[1..])[i - 1] == k;
      }
      GroupOfAddTo(g[1..], k, v, key);
    }
  }

  /** Where a tracked element goes: nowhere without element or floor, its floor's storey if created, else "GL". */
  function Target(names: seq<Value>, t: Tracked): (r: Option<Value>)
    ensures r.Some? <==> Truthy(t.ifcElement) && Truthy(t.floorName)
    ensures r.Some? && t.floorName in names ==> r.value == t.floorName
    ensures r.Some? && t.floorName !in names ==> r.value == Str("GL")
  {
    if !Truthy(t.ifcElement) || !Truthy(t.floorName) then None
    else if t.floorName in names then Some(t.floorName)
    else Some(Str("GL"))
  }

  /** The grouping loop over the tracked elements. */
  function Group(g: seq<(Value, seq<Value>)>, ts: seq<Tracked>): (r: seq<(Value, seq<Value>)>)
    ensures GroupNames(r) == GroupNames(g)
  {
    if ts == [] then g
    else
      var prev := Group(g, ts[..|ts| - 1]);
      var t := ts[|ts| - 1];
      match Target(GroupNames(g), t)
      case None => prev
      case Some(k) => AddTo(prev, k, t.ifcElement)
  }

  /** The elements of `ts` bound for storey `key`, in order. */
  function BoundFor(names: seq<Value>, ts: seq<Tracked>, key: Value): seq<Value>
  {
    if ts == [] then []
    else BoundFor(names, ts[..|ts| - 1], key) + (if Target(names, ts[|ts| - 1]) == Some(key) then [ts[|ts| - 1].ifcElement] else [])
  }

  /** Each storey receives exactly the tracked elements bound for it, in tracking order. */
  lemma {:induction false} GroupCollectsBound(g: seq<(Value, seq<Value>)>, ts: seq<Tracked>, key: Value)
    requires Str("GL") in GroupNames(g)
    ensures GroupOf(Group(g, ts), key) == GroupOf(g, key) + BoundFor(GroupNames(g), ts, key)
  {
    if ts != [] {
      GroupCollectsBound(g, ts[..|ts| - 1], key);
      var t := ts[|ts| - 1];
      var k := Target(GroupNames(g), t);
      if k.Some? {
        var prev := Group(g, ts[..|ts| - 1]);
        assert GroupNames(prev) == GroupNames(g);
        GroupOfAddTo(prev, k.value, t.ifcElement, key);
      }
    }
  }

  /** The containment relations: every non-empty group whose storey is truthy, in storey order. */
  function Relations(g: seq<(Value, seq<Value>)>, s: Storeys): (r: seq<(Value, seq<Value>)>)
    ensures |r| <= |g|
    ensures forall i :: 0 <= i < |r| ==> r[i].1 != [] && Truthy(StoreyOf(s, r[i].0))
  {
    if g == [] then []
    else (if g[0].1 != [] && Truthy(StoreyOf(s, g[0].0)) then [g[0]] else []) + Relations(g[1..], s)
  }

  /** The storeys once "GL" is ensured. */
  function WithGL(s: Storeys, gl: Value): (r: Storeys)
    ensures Str("GL") in StoreyNames(r)
    ensures Str("GL") in StoreyNames(s) ==> r == s
  {
    if Str("GL") in StoreyNames(s) then s else PutStorey(s, Str("GL"), gl)
  }

  /** `associate_elements_to_storeys`: the relations it creates. */
  function Associate(s: Storeys, ts: seq<Tracked>, gl: Value): seq<(Value, seq<Value>)>
  {
    if ts == [] then []
    else
      var s' := WithGL(s, gl);
      Relations(Group(EmptyGroups(s'), ts), s')
  }

  /** An element whose floor has no storey is placed in "GL"; one with a created storey goes there. */
  lemma ElementGoesToItsStoreyOrGL(s: Storeys, ts: seq<Tracked>, gl: Value, i: nat)
    requires i < |ts| && Truthy(ts[i].ifcElement) && Truthy(ts[i].floorName)
    ensures var s' := WithGL(s, gl);
      var key := if ts[i].floorName in StoreyNames(s') then ts[i].floorName else Str("GL");
      ts[i].ifcElement in GroupOf(Group(EmptyGroups(s'), ts), key)
  {
    var s' := WithGL(s, gl);
    var g := EmptyGroups(s');
    assert GroupNames(g) == StoreyNames(s');
    var key := if ts[i].floorName in StoreyNames(s') then ts[i].floorName else Str("GL");
    GroupCollectsBound(g, ts, key);
    BoundContains(GroupNames(g), ts, key, i);
  }

  lemma {:induction false} BoundContains(names: seq<Value>, ts: seq<Tracked>, key: Value, i: nat)
    requires i < |ts| && Target(names, ts[i]) == Some(key)
    ensures ts[i].ifcElement in BoundFor(names, ts, key)
  {
    if i < |ts| - 1 {
      assert ts[..|ts| - 1][i] == ts[i];
      BoundContains(names, ts[..|ts| - 1], key, i);
    }
  }

  // ------------------------------------------------------------ element definitions

  /**
   * `_get_element_definitions`: the definitions when they are set and
   * non-empty; otherwise the XML content (possibly none) is handed to the
   * STB parser, whose failure gives {}. The no-XML warning sits after the
   * first branch's return and is never reached.
   */
  function GetElementDefinitions(defs: Option<ElementDefs>, xml: Option<string>, parse: Option<string> -> Result<ElementDefs>): (r: ElementDefs)
    ensures defs.Some? && defs.value != [] ==> r == defs.value
    ensures (defs.None? || defs.value == []) && parse(xml).Ok? ==> r == parse(xml).value
    ensures (defs.None? || defs.value == []) && parse(xml).Err? ==> r == []
  {
    if defs.Some? && defs.value != [] then defs.value
    else match parse(xml) case Ok(d) => d case Err(_) => []
  }

  /** Without definitions and without XML content, the parser is still asked: no "no XML" shortcut returns {} first. */
  lemma NoXmlStillParsed(parse: Option<string> -> Result<ElementDefs>, d: ElementDefs)
    requires parse(None) == Ok(d)
    ensures GetElementDefinitions(None, None, parse) == d
    ensures GetElementDefinitions(Some([]), None, parse) == d
  {
  }

  // ------------------------------------------------------------ creating the elements

  /** What `_create_elements` changes: the factory's tracked list and counters, and the running total. */
  datatype CreationState = CreationState(created: seq<Tracked>, usage: map<string, int>, counts: map<Kind, int>, total: nat)

  /** The factory's counters after it made `made` elements of kind `k` and tracked them as `tracked`. */
  function Tally(s: CreationState, k: Kind, made: seq<Value>, tracked: seq<Tracked>): (r: CreationState)
    requires StatKey(k) in s.usage
    ensures r.usage.Keys == s.usage.Keys
  {
    CreationState(
      s.created + tracked,
      CountUsage(s.usage, k, |made|),
      CountCreator(s.counts, k, |made|),
      s.total + |made|)
  }

  /** One kind of `_create_elements`: an empty list is skipped, else the factory creates and tracks its elements. */
  function CreateStep(s: CreationState, k: Kind, ds: seq<Dict>, creator: Result<Dict -> Result<Value>>): (r: CreationState)
    requires StatKey(k) in s.usage
    ensures r.usage.Keys == s.usage.Keys
    ensures |r.created| == |s.created| + (r.total - s.total)
  {
    if ds == [] || creator.Err? then s
    else Tally(s, k, Created(ds, creator.value), Track(k, ds, creator.value))
  }

  /** The state after the first `i` kinds of `CreationOrder`. */
  function CreateFold(defs: ElementDefs, s: CreationState, creators: Kind -> Result<Dict -> Result<Value>>, i: nat): (r: CreationState)
    requires i <= |CreationOrder|
    requires forall k: Kind :: StatKey(k) in s.usage
    ensures r.usage.Keys == s.usage.Keys
  {
    if i == 0 then s
    else
      var k := CreationOrder[i - 1].1;
      CreateStep(CreateFold(defs, s, creators, i - 1), k, DefsOf(defs, CreationOrder[i - 1].0), creators(k))
  }

  /** Every element counted in the total is tracked exactly once: the tracked list grows by the total. */
  lemma {:induction false} CreateFoldCountsTracked(defs: ElementDefs, s: CreationState, creators: Kind -> Result<Dict -> Result<Value>>, i: nat)
    requires i <= |CreationOrder|
    requires forall k: Kind :: StatKey(k) in s.usage
    ensures CreateFold(defs, s, creators, i).total >= s.total
    ensures |CreateFold(defs, s, creators, i).created| == |s.created| + (CreateFold(defs, s, creators, i).total - s.total)
    ensures s.created <= CreateFold(defs, s, creators, i).created
  {
    if i > 0 {
      CreateFoldCountsTracked(defs, s, creators, i - 1);
    }
  }

  /** When no kind has a definition, nothing is created and nothing changes. */
  lemma {:induction false} CreateFoldNoDefs(defs: ElementDefs, s: CreationState, creators: Kind -> Result<Dict -> Result<Value>>, i: nat)
    requires i <= |CreationOrder|
    requires forall k: Kind :: StatKey(k) in s.usage
    requires forall j :: 0 <= j < i ==> DefsOf(defs, CreationOrder[j].0) == []
    ensures CreateFold(defs, s, creators, i) == s
  {
    if i > 0 {
      CreateFoldNoDefs(defs, s, creators, i - 1);
    }
  }

  /** One `if element_defs.get(key): ... total_created += len(...)` block of `_create_elements`. */
  method CreateKind(k: Kind, ds: seq<Dict>, f: Factory, creator: Result<Dict -> Result<Value>>, total: nat) returns (total': nat)
    requires StatKey(k) in f.usage
    modifies f
    ensures ds == [] || creator.Err? ==>
      f.created == old(f.created) && f.usage == old(f.usage) && f.creatorCounts == old(f.creatorCounts) && total' == total
    ensures ds != [] && creator.Ok? ==>
      CreationState(f.created, f.usage, f.creatorCounts, total')
      == Tally(CreationState(old(f.created), old(f.usage), old(f.creatorCounts), total), k, Created(ds, creator.value), Track(k, ds, creator.value))
  {
    total' := total;
    if ds != [] {
      var made := f.CreateElementsOf(k, ds, creator);
      total' := total + |made|;
    }
  }

  // ------------------------------------------------------------ the converter

  class Converter {
    var elementDefinitions: Option<ElementDefs>
    var xmlContent: Option<string>
    var currentStoryName: Value
    var createdStoreys: Storeys
    var nodeStoryMap: map<string, string>

    constructor (xml: Option<string>)
      ensures elementDefinitions == None && xmlContent == xml && currentStoryName == Null
      ensures createdStoreys == [] && nodeStoryMap == map[]
    {
      elementDefinitions := None;
      xmlContent := xml;
      currentStoryName := Null;
      createdStoreys := [];
      nodeStoryMap := map[];
    }

    /** `set_element_definitions`. */
    method SetElementDefinitions(defs: ElementDefs)
      modifies this
      ensures elementDefinitions == Some(defs)
      ensures createdStoreys == old(createdStoreys) && nodeStoryMap == old(nodeStoryMap) && currentStoryName == old(currentStoryName)
    {
      elementDefinitions := Some(defs);
    }

    /** `set_node_story_map`. */
    method SetNodeStoryMap(m: map<string, string>)
      modifies this
      ensures nodeStoryMap == m
      ensures createdStoreys == old(createdStoreys) && elementDefinitions == old(elementDefinitions) && currentStoryName == old(currentStoryName)
    {
      nodeStoryMap := m;
    }

    /** `convert_stb_story_to_ifc_story`: the storey is added and recorded under the story's name. */
    method ConvertStbStoryToIfcStory(story: Dict, addStorey: (Value, real) -> Value) returns (r: Result<Value>)
      modifies this
      ensures StoreyParameters(story).Err? ==> r.Err? && createdStoreys == old(createdStoreys)
      ensures StoreyParameters(story).Ok? ==>
        var p := StoreyParameters(story).value;
        r == Ok(addStorey(p.0, p.1)) && createdStoreys == PutStorey(old(createdStoreys), p.0, addStorey(p.0, p.1))
      ensures nodeStoryMap == old(nodeStoryMap) && elementDefinitions == old(elementDefinitions) && currentStoryName == old(currentStoryName)
    {
      var p := StoreyParameters(story);
      if p.Err? {
        return Err(p.error);
      }
      var storey := addStorey(p.value.0, p.value.1);
      createdStoreys := PutStorey(createdStoreys, p.value.0, storey);
      r := Ok(storey);
    }

    /** `ensure_gl_storey_exists`: a "GL" storey at elevation 0 is added when missing. */
    method EnsureGlStoreyExists(addStorey: (Value, real) -> Value)
      modifies this
      ensures createdStoreys == WithGL(old(createdStoreys), addStorey(Str("GL"), 0.0))
      ensures nodeStoryMap == old(nodeStoryMap) && elementDefinitions == old(elementDefinitions) && currentStoryName == old(currentStoryName)
    {
      if Str("GL") !in StoreyNames(createdStoreys) {
        createdStoreys := PutStorey(createdStoreys, Str("GL"), addStorey(Str("GL"), 0.0));
      }
    }

    /** `filter_elements_by_story`, element by element. */
    method FilterElementsByStory(es: seq<Dict>, story: Dict) returns (r: Result<seq<Dict>>)
      ensures r == FilterByStory(es, story, nodeStoryMap)
    {
      var kept: seq<Dict> := [];
      var i := 0;
      while i < |es|
        invariant 0 <= i <= |es|
        invariant FilterByStory(es[..i], story, nodeStoryMap) == Ok(kept)
      {
        assert es[..i + 1][..i] == es[..i];
        var b := ShouldInclude(es[i], story, nodeStoryMap);
        if b.Err? {
          FilterErrorSticks(es, i + 1, story, nodeStoryMap);
          return Err(b.error);
        }
        if b.value {
          kept := kept + [es[i]];
        }
        i := i + 1;
      }
      assert es[..i] == es;
      r := Ok(kept);
    }

    /**
     * `associate_elements_to_storeys`: without tracked elements nothing
     * happens; otherwise "GL" is ensured and each tracked element goes to
     * its floor's storey or to "GL".
     */
    method AssociateElementsToStoreys(ts: seq<Tracked>, addStorey: (Value, real) -> Value) returns (rels: seq<(Value, seq<Value>)>)
      modifies this
      ensures rels == Associate(old(createdStoreys), ts, addStorey(Str("GL"), 0.0))
      ensures ts == [] ==> createdStoreys == old(createdStoreys)
      ensures ts != [] ==> createdStoreys == WithGL(old(createdStoreys), addStorey(Str("GL"), 0.0))
      ensures nodeStoryMap == old(nodeStoryMap) && elementDefinitions == old(elementDefinitions) && currentStoryName == old(currentStoryName)
    {
      if ts == [] {
        return [];
      }
      EnsureGlStoreyExists(addStorey);
      var g := EmptyGroups(createdStoreys);
      var names := GroupNames(g);
      var i := 0;
      while i < |ts|
        invariant 0 <= i <= |ts|
        invariant g == Group(EmptyGroups(createdStoreys), ts[..i])
      {
        assert ts[..i + 1][..i] == ts[..i];
        var target := Target(names, ts[i]);
        if target.Some? {
          g := AddTo(g, target.value, ts[i].ifcElement);
        }
        i := i + 1;
      }
      assert ts[..i] == ts;
      rels := Relations(g, createdStoreys);
    }

    /**
     * `convert_elements_for_story`: the floors are set from the node map
     * (falling back to the story's name), elements created before are
     * dropped by id and by name, and the rest is created kind by kind. The
     * floors are written into the definition dicts themselves, so the
     * stored definitions change only when they were the source; parsed
     * ones are not kept.
     */
    method ConvertElementsForStory(story: Dict, f: Factory, creators: Kind -> Result<Dict -> Result<Value>>, show: Value -> string,
                                   parse: Option<string> -> Result<ElementDefs>)
      returns (total: nat)
      requires forall k: Kind :: StatKey(k) in f.usage
      modifies this, f
      ensures currentStoryName == Lookup(story, "name")
      ensures var d := GetElementDefinitions(old(elementDefinitions), xmlContent, parse);
        d == [] ==>
          total == 0 && elementDefinitions == old(elementDefinitions)
          && f.created == old(f.created) && f.usage == old(f.usage) && f.creatorCounts == old(f.creatorCounts)
      ensures var d := GetElementDefinitions(old(elementDefinitions), xmlContent, parse);
        d != [] ==>
          var floored := AssignFloors(d, nodeStoryMap, Lookup(story, "name"), show);
          var unique := DeduplicateByName(FilterUncreatedDefs(floored, old(f.created)), old(f.created));
          var s := CreateFold(unique, CreationState(old(f.created), old(f.usage), old(f.creatorCounts), 0), creators, |CreationOrder|);
          f.created == s.created && f.usage == s.usage && f.creatorCounts == s.counts && total == s.total
          && elementDefinitions == (if old(elementDefinitions).Some? && old(elementDefinitions).value != [] then Some(floored) else old(elementDefinitions))
      ensures createdStoreys == old(createdStoreys) && nodeStoryMap == old(nodeStoryMap)
      ensures forall k: Kind :: StatKey(k) in f.usage
    {
      currentStoryName := Lookup(story, "name");
      var defs := GetElementDefinitions(elementDefinitions, xmlContent, parse);
      if defs == [] {
        return 0;
      }
      defs := AssignFloors(defs, nodeStoryMap, currentStoryName, show);
      if elementDefinitions.Some? && elementDefinitions.value != [] {
        elementDefinitions := Some(defs);
      }
      var uncreated := FilterUncreatedDefs(defs, f.created);
      var unique := DeduplicateByName(uncreated, f.created);
      total := CreateElements(unique, f, creators);
    }

    /** `_create_elements`: each kind with a non-empty list, in the fixed order; the count of created elements. */
    method CreateElements(defs: ElementDefs, f: Factory, creators: Kind -> Result<Dict -> Result<Value>>) returns (total: nat)
      requires forall k: Kind :: StatKey(k) in f.usage
      modifies f
      ensures var s := CreateFold(defs, CreationState(old(f.created), old(f.usage), old(f.creatorCounts), 0), creators, |CreationOrder|);
        f.created == s.created && f.usage == s.usage && f.creatorCounts == s.counts && total == s.total
      ensures forall k: Kind :: StatKey(k) in f.usage
    {
      ghost var s0 := CreationState(f.created, f.usage, f.creatorCounts, 0);
      total := 0;
      var i := 0;
      while i < |CreationOrder|
        invariant 0 <= i <= |CreationOrder|
        invariant forall k: Kind :: StatKey(k) in f.usage
        invariant var s := CreateFold(defs, s0, creators, i);
          f.created == s.created && f.usage == s.usage && f.creatorCounts == s.counts && total == s.total
      {
        var k := CreationOrder[i].1;
        var ds := DefsOf(defs, CreationOrder[i].0);
        assert CreateFold(defs, s0, creators, i + 1) == CreateStep(CreateFold(defs, s0, creators, i), k, ds, creators(k));
        total := CreateKind(k, ds, f, creators(k), total);
        i := i + 1;
      }
    }
  }

  lemma {:induction false} FilterErrorSticks(es: seq<Dict>, n: nat, story: Dict, m: map<string, string>)
    requires 0 < n <= |es|
    requires FilterByStory(es[..n - 1], story, m).Ok? && ShouldInclude(es[n - 1], story, m).Err?
    ensures FilterByStory(es, story, m) == Err(ShouldInclude(es[n - 1], story, m).error)
  {
    if n == |es| {
      assert es[..n - 1] == es[..|es| - 1];
    } else {
      var p := es[..|es| - 1];
      assert p[..n - 1] == es[..n - 1];
      assert p[n - 1] == es[n - 1];
      FilterErrorSticks(p, n, story, m);
    }
  }
}
