/**
 * Grid axes (ifcCreator/specialized/grid_creator.py): the definition
 * processor keeps the groups that have at least one well-formed axis, and
 * the grid creator sorts every non-degenerate axis into the U or the V
 * direction by its group's name, or by the group's angle.
 *
 * An axis is kept as its tag, start point and direction vector (end minus
 * start); the normalisation by the square root of its length is not modelled.
 */
module GridCreator {
  import opened Wrappers
  import opened Values
  import Strs
  import opened Vectors
  import Validator

  // ------------------------------------------------------------ the definition processor

  /** A point given as a dictionary with x, y and z. */
  predicate IsPointDict(v: Value)
  {
    v.Dict? && "x" in v.m && "y" in v.m && "z" in v.m
  }

  /** `_validate_axis`: name, start_point and end_point present, both points dictionaries with x, y, z. */
  predicate ValidAxis(a: Value)
  {
    a.Dict? && "name" in a.m && "start_point" in a.m && "end_point" in a.m
    && IsPointDict(a.m["start_point"]) && IsPointDict(a.m["end_point"])
  }

  /** The axes of a group: its "axes" list, [] when missing. */
  function AxesOf(g: Dict): seq<Value>
  {
    var axes := LookupOr(g, "axes", List([]));
    if axes.List? then axes.items else []
  }

  /** The valid axes, in order. */
  function ValidAxes(axes: seq<Value>): (r: seq<Value>)
    ensures |r| <= |axes|
    ensures forall a :: a in r <==> a in axes && ValidAxis(a)
  {
    if axes == [] then []
    else
      assert forall a :: a in axes <==> a in axes[..|axes| - 1] || a == axes[|axes| - 1];
      ValidAxes(axes[..|axes| - 1]) + (if ValidAxis(axes[|axes| - 1]) then [axes[|axes| - 1]] else [])
  }

  /** `_process_single_group`: the group with only its valid axes and origin/angle defaulting to 0, or None. */
  function ProcessSingleGroup(g: Dict): (r: Option<Dict>)
    ensures r.None? <==> forall a :: a in AxesOf(g) ==> !ValidAxis(a)
    ensures r.Some? ==> r.value.Keys == {"group_name", "origin_x", "origin_y", "angle", "axes"}
    ensures r.Some? ==> r.value["axes"] == List(ValidAxes(AxesOf(g)))
    ensures r.Some? ==> r.value["group_name"] == LookupOr(g, "group_name", Str("Unknown"))
    ensures r.Some? && "origin_x" !in g ==> r.value["origin_x"] == Num(0.0)
    ensures r.Some? && "origin_y" !in g ==> r.value["origin_y"] == Num(0.0)
    ensures r.Some? && "angle" !in g ==> r.value["angle"] == Num(0.0)
  {
    var valid := ValidAxes(AxesOf(g));
    if valid == [] then
      assert forall a :: a in AxesOf(g) ==> !ValidAxis(a);
      None
    else
      assert valid[0] in AxesOf(g);
      Some(map[
        "group_name" := LookupOr(g, "group_name", Str("Unknown")),
        "origin_x" := LookupOr(g, "origin_x", Num(0.0)),
        "origin_y" := LookupOr(g, "origin_y", Num(0.0)),
        "angle" := LookupOr(g, "angle", Num(0.0)),
        "axes" := List(valid)])
  }

  /** The processed groups, in order; groups without a valid axis are dropped. */
  function ProcessedGroups(gs: seq<Dict>): (r: seq<Dict>)
    ensures |r| <= |gs|
  {
    if gs == [] then []
    else
      var p := ProcessSingleGroup(gs[|gs| - 1]);
      ProcessedGroups(gs[..|gs| - 1]) + (if p.Some? then [p.value] else [])
  }

  /** Every processed group holds only valid axes, and at least one. */
  lemma {:induction false} ProcessedGroupsValid(gs: seq<Dict>)
    ensures forall g: Dict :: g in ProcessedGroups(gs) ==>
      "axes" in g && g["axes"].List? && g["axes"].items != [] && forall a :: a in g["axes"].items ==> ValidAxis(a)
  {
    if gs != [] {
      ProcessedGroupsValid(gs[..|gs| - 1]);
      var p := ProcessSingleGroup(gs[|gs| - 1]);
      if p.Some? {
        var valid := ValidAxes(AxesOf(gs[|gs| - 1]));
        assert p.value["axes"] == List(valid);
        assert valid != [] by {
          var a :| a in AxesOf(gs[|gs| - 1]) && ValidAxis(a);
        }
      }
    }
  }

  /** `GridDefinitionProcessor.process`. */
  method Process(gs: seq<Dict>) returns (r: seq<Dict>)
    ensures r == ProcessedGroups(gs)
  {
    r := [];
    var i := 0;
    while i < |gs|
      invariant 0 <= i <= |gs|
      invariant r == ProcessedGroups(gs[..i])
    {
      assert gs[..i + 1][..i] == gs[..i];
      var p := ProcessSingleGroup(gs[i]);
      if p.Some? {
        r := r + [p.value];
      }
      i := i + 1;
    }
    assert gs[..i] == gs;
  }

  // ------------------------------------------------------------ the grid creator

  datatype GridAxis = GridAxis(tag: Value, start: Vec3, direction: Vec3)

  datatype Grid = Grid(uAxes: seq<GridAxis>, vAxes: seq<GridAxis>)

  /**
   * `float(p[k])` where the coordinate differences must also be numbers: a
   * number, or a boolean read as 1 or 0 (a Python bool is an int); text
   * fails at the subtraction.
   */
  function Coord(p: Value, k: string): (r: Option<real>)
    ensures r.Some? <==> p.Dict? && k in p.m && Validator.Numeric(p.m[k])
    ensures r.Some? && p.m[k].Num? ==> r.value == p.m[k].r
    ensures r.Some? && p.m[k].Bool? ==> r.value == (if p.m[k].b then 1.0 else 0.0)
  {
    if p.Dict? && k in p.m && Validator.Numeric(p.m[k]) then Some(Validator.NumValue(p.m[k])) else None
  }

  function PointOf(p: Value): (r: Option<Vec3>)
    ensures r.Some? ==> IsPointDict(p)
  {
    match (Coord(p, "x"), Coord(p, "y"), Coord(p, "z"))
    case (Some(x), Some(y), Some(z)) => Some(Vec3(x, y, z))
    case _ => None
  }

  /** `_create_grid_axis`: None when a coordinate is missing or the axis has length 0, i.e. end equals start. */
  function CreateGridAxis(name: Value, s: Value, e: Value): (r: Option<GridAxis>)
    ensures r.Some? ==> r.value.direction != Zero && r.value.tag == name
    ensures r.Some? <==> PointOf(s).Some? && PointOf(e).Some? && PointOf(s) != PointOf(e)
  {
    match (PointOf(s), PointOf(e))
    case (Some(a), Some(b)) =>
      var d := Sub(b, a);
      if d != Zero then Some(GridAxis(name, a, d)) else None
    case _ => None
  }

  /** Python's `a % 180` for a float: the result lies in [0, 180). */
  function AngleMod(a: real): (m: real)
    ensures 0.0 <= m < 180.0
    ensures ((a - m) / 180.0).Floor as real == (a - m) / 180.0
  {
    var k := (a / 180.0).Floor;
    assert a == (a - 180.0 * (k as real)) + 180.0 * (k as real);
    a - 180.0 * (k as real)
  }

  datatype Direction = U | V

  /** The direction an angle gives: U within 45 degrees of the X axis (mod 180), else V. */
  function AngleDirection(angle: real): Direction
  {
    var m := AngleMod(angle);
    if m < 45.0 || m > 135.0 then U else V
  }

  /** The direction does not change when the angle turns by half a circle. */
  lemma AngleDirectionPeriodic(angle: real)
    ensures AngleDirection(angle + 180.0) == AngleDirection(angle)
  {
    var k := (angle / 180.0).Floor;
    var k' := ((angle + 180.0) / 180.0).Floor;
    assert (angle + 180.0) / 180.0 == angle / 180.0 + 1.0;
    assert k' == k + 1;
  }

  /**
   * The direction of a group: a name with "X" in it (upper-cased) is U,
   * else one with "Y" is V, else the angle decides. A name that is not text
   * raises, and so does an angle that is neither a number nor a boolean
   * (`True % 180` is 1).
   */
  function GroupDirection(g: Dict): (r: Result<Direction>)
    ensures var n := LookupOr(g, "group_name", Str("Unknown"));
      n.Str? && Strs.Contains(Strs.Upper(n.s), "X") ==> r == Ok(U)
    ensures var n := LookupOr(g, "group_name", Str("Unknown"));
      n.Str? && !Strs.Contains(Strs.Upper(n.s), "X") && Strs.Contains(Strs.Upper(n.s), "Y") ==> r == Ok(V)
  {
    var n := LookupOr(g, "group_name", Str("Unknown"));
    if !n.Str? then Err(AttributeError("group_name has no upper"))
    else if Strs.Contains(Strs.Upper(n.s), "X") then Ok(U)
    else if Strs.Contains(Strs.Upper(n.s), "Y") then Ok(V)
    else
      var angle := LookupOr(g, "angle", Num(0.0));
      if Validator.Numeric(angle) then Ok(AngleDirection(Validator.NumValue(angle))) else Err(TypeError("angle is not a number"))
  }

  /** The U and V axes gathered so far. */
  type Axes = (seq<GridAxis>, seq<GridAxis>)

  /** One axis of one group: a falsy point skips it, a degenerate axis is dropped, others go to U or V. */
  function Step(acc: Result<Axes>, g: Dict, a: Value): (r: Result<Axes>)
    ensures acc.Err? ==> r == acc
    ensures r.Ok? ==> acc.Ok? && |r.value.0| + |r.value.1| <= |acc.value.0| + |acc.value.1| + 1
  {
    if acc.Err? then acc
    else if !a.Dict? then Err(AttributeError("axis has no get"))
    else
      var name := LookupOr(a.m, "name", Str("Unknown"));
      var s := Lookup(a.m, "start_point");
      var e := Lookup(a.m, "end_point");
      if !Truthy(s) || !Truthy(e) then acc
      else
        match CreateGridAxis(name, s, e)
        case None => acc
        case Some(ax) =>
          match GroupDirection(g)
          case Err(x) => Err(x)
          case Ok(U) => Ok((acc.value.0 + [ax], acc.value.1))
          case Ok(V) => Ok((acc.value.0, acc.value.1 + [ax]))
  }

  /** Every (group, axis) pair, group by group. */
  function Pairs(gs: seq<Dict>): seq<(Dict, Value)>
  {
    if gs == [] then []
    else Pairs(gs[..|gs| - 1]) + GroupPairs(gs[|gs| - 1])
  }

  function GroupPairs(g: Dict): seq<(Dict, Value)>
  {
    seq(|AxesOf(g)|, j requires 0 <= j < |AxesOf(g)| => (g, AxesOf(g)[j]))
  }

  /** The collection loop as a fold over the pairs. */
  function Collect(ps: seq<(Dict, Value)>): (r: Result<Axes>)
    ensures r.Ok? ==> forall ax :: ax in r.value.0 + r.value.1 ==> ax.direction != Zero
  {
    if ps == [] then Ok(([], []))
    else
      var prev := Collect(ps[..|ps| - 1]);
      var r := Step(prev, ps[|ps| - 1].0, ps[|ps| - 1].1);
      assert r.Ok? ==> forall ax :: ax in r.value.0 + r.value.1 ==> ax in prev.value.0 + prev.value.1 || ax.direction != Zero;
      r
  }

  lemma CollectSnoc(ps: seq<(Dict, Value)>, p: (Dict, Value))
    ensures Collect(ps + [p]) == Step(Collect(ps), p.0, p.1)
  {
    assert (ps + [p])[..|ps|] == ps;
  }

  /** An exception ends the loop: once the fold fails it stays failed. */
  lemma {:induction false} CollectErrSticks(xs: seq<(Dict, Value)>, ys: seq<(Dict, Value)>)
    requires Collect(xs).Err?
    ensures Collect(xs + ys) == Collect(xs)
    decreases |ys|
  {
    if ys == [] {
      assert xs + ys == xs;
    } else {
      assert (xs + ys)[..|xs + ys| - 1] == xs + ys[..|ys| - 1];
      CollectErrSticks(xs, ys[..|ys| - 1]);
    }
  }

  /** With every axis well placed and every group named with "X", all axes become U axes, in order. */
  lemma {:induction false} AllXGroupsAreU(ps: seq<(Dict, Value)>)
    requires forall i :: 0 <= i < |ps| ==> GroupDirection(ps[i].0) == Ok(U) && ps[i].1.Dict?
    ensures Collect(ps).Ok? && Collect(ps).value.1 == []
  {
    if ps != [] {
      assert forall i :: 0 <= i < |ps| - 1 ==> ps[..|ps| - 1][i] == ps[i];
      AllXGroupsAreU(ps[..|ps| - 1]);
    }
  }

  /** `create_grid_from_axes_groups`: None without groups, without a file, on an exception, or with no axis. */
  function GridOf(gs: seq<Dict>, hasFile: bool): (r: Option<Grid>)
    ensures gs == [] || !hasFile ==> r.None?
    ensures r.Some? ==> r.value.uAxes != [] || r.value.vAxes != []
    ensures r.Some? ==> forall ax :: ax in r.value.uAxes + r.value.vAxes ==> ax.direction != Zero
  {
    if gs == [] || !hasFile then None
    else
      match Collect(Pairs(gs))
      case Err(_) => None
      case Ok((u, v)) => if u == [] && v == [] then None else Some(Grid(u, v))
  }

  /** One more axis of the group is one more step of the fold. */
  lemma GroupPrefixStep(done: seq<(Dict, Value)>, g: Dict, j: nat)
    requires j < |AxesOf(g)|
    ensures Collect(done + GroupPairs(g)[..j + 1]) == Step(Collect(done + GroupPairs(g)[..j]), g, AxesOf(g)[j])
  {
    assert done + GroupPairs(g)[..j + 1] == (done + GroupPairs(g)[..j]) + [(g, AxesOf(g)[j])];
    CollectSnoc(done + GroupPairs(g)[..j], (g, AxesOf(g)[j]));
  }

  /** A failure on some axis of the group is the result of the whole group. */
  lemma GroupPrefixErr(done: seq<(Dict, Value)>, g: Dict, j: nat)
    requires j <= |AxesOf(g)|
    requires Collect(done + GroupPairs(g)[..j]).Err?
    ensures Collect(done + GroupPairs(g)) == Collect(done + GroupPairs(g)[..j])
  {
    CollectErrSticks(done + GroupPairs(g)[..j], GroupPairs(g)[j..]);
    assert (done + GroupPairs(g)[..j]) + GroupPairs(g)[j..] == done + GroupPairs(g);
  }

  /** The inner loop of `create_grid_from_axes_groups`: the axes of one group. */
  method CollectGroup(done: seq<(Dict, Value)>, g: Dict, u0: seq<GridAxis>, v0: seq<GridAxis>) returns (r: Result<Axes>)
    requires Collect(done) == Ok((u0, v0))
    ensures r == Collect(done + GroupPairs(g))
  {
    var axes := AxesOf(g);
    var u, v := u0, v0;
    var j := 0;
    assert done + GroupPairs(g)[..0] == done;
    while j < |axes|
      invariant 0 <= j <= |axes|
      invariant Collect(done + GroupPairs(g)[..j]) == Ok((u, v))
    {
      GroupPrefixStep(done, g, j);
      var next := Step(Ok((u, v)), g, axes[j]);
      if next.Err? {
        GroupPrefixErr(done, g, j + 1);
        return next;
      }
      u, v := next.value.0, next.value.1;
      j := j + 1;
    }
    assert GroupPairs(g)[..j] == GroupPairs(g);
    r := Ok((u, v));
  }

  /** The loops of `create_grid_from_axes_groups`. */
  method CreateGridFromAxesGroups(gs: seq<Dict>, hasFile: bool) returns (r: Option<Grid>)
    ensures r == GridOf(gs, hasFile)
  {
    if gs == [] || !hasFile {
      return None;
    }
    var u: seq<GridAxis> := [];
    var v: seq<GridAxis> := [];
    var i := 0;
    while i < |gs|
      invariant 0 <= i <= |gs|
      invariant Collect(Pairs(gs[..i])) == Ok((u, v))
    {
      assert gs[..i + 1][..i] == gs[..i];
      var res := CollectGroup(Pairs(gs[..i]), gs[i], u, v);
      if res.Err? {
        PairsPrefix(gs, i + 1);
        CollectErrSticks(Pairs(gs[..i + 1]), Pairs(gs)[|Pairs(gs[..i + 1])|..]);
        return None;
      }
      u, v := res.value.0, res.value.1;
      i := i + 1;
    }
    assert gs[..i] == gs;
    if u == [] && v == [] {
      return None;
    }
    r := Some(Grid(u, v));
  }

  /** The pairs of a prefix of the groups are a prefix of all pairs. */
  lemma {:induction false} PairsPrefix(gs: seq<Dict>, n: nat)
    requires n <= |gs|
    ensures Pairs(gs[..n]) <= Pairs(gs)
    ensures Pairs(gs) == Pairs(gs[..n]) + Pairs(gs)[|Pairs(gs[..n])|..]
    decreases |gs|
  {
    if n < |gs| {
      assert gs[..|gs| - 1][..n] == gs[..n];
      PairsPrefix(gs[..|gs| - 1], n);
    } else {
      assert gs[..n] == gs;
    }
  }
}
