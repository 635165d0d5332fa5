/**
 * The column section extractor (stbParser/column_section_extractor.py): S
 * and CFT columns through the shared Same/NotSame processor with the
 * NotSame results merged into one section, the S ThreeTypes shortcut, RC
 * rectangles and circles, and SRC composites of an RC part and a steel part.
 */
module ColumnSection {
  import opened Wrappers
  import opened Values
  import opened Xml
  import opened SectionBase
  import UnifiedSection

  /** This extractor's own `_is_tag`: a suffix test on the full tag. */
  predicate TagIs(e: Element, name: string)
  {
    UnifiedSection.TagIs(e, name)
  }

  /** `_extract_steel_section_dict` of this extractor: suffix tests in its own order. */
  function ColumnSteelDict(e: Element): (r: Option<Dict>)
    ensures TagIs(e, "StbSecBuild-H") ==> r == BuildHSection(e)
    ensures !TagIs(e, "StbSecBuild-H") && TagIs(e, "StbSecRoll-H") ==> r == HSection(e)
  {
    if TagIs(e, "StbSecBuild-H") then BuildHSection(e)
    else if TagIs(e, "StbSecRoll-H") then HSection(e)
    else if TagIs(e, "StbSecRoll-BOX") then BoxSection(e)
    else if TagIs(e, "StbSecBuild-BOX") then BuildBoxSection(e)
    else if TagIs(e, "StbSecPipe") then PipeSection(e)
    else if TagIs(e, "StbSecRoll-C") then CSteelSection(e)
    else if TagIs(e, "StbSecRoll-L") then LParams(e)
    else if TagIs(e, "StbSecLipC") then LipCSection(e)
    else if TagIs(e, "StbSecFlatBar") then FlatBarSection(e)
    else if TagIs(e, "StbSecRoundBar") then RoundBarSection(e)
    else if TagIs(e, "StbSecFiveTypes") then FiveTypesSection(e)
    else None
  }

  // ---------------------------------------------------------------- S and CFT shapes

  /**
   * `_process_steel_column_shape` / `_process_cft_column_shape`: the shape's
   * section labelled with the column's name, the shape name and the structure
   * type; the CFT variant also copies a truthy `strength` attribute.
   */
  function ColumnShape(steel: Element, elem: Element, name: Value, structure: string, cft: bool): (r: Option<Dict>)
    ensures r.Some? <==> Present(ColumnSteelDict(steel))
    ensures r.Some? ==> (Has(r.value, "stb_name", name) && Has(r.value, "stb_shape_name", OptStr(Get(elem, "shape")))
      && Has(r.value, "stb_structure_type", Str(structure)))
    ensures r.Some? && cft && HasTruthy(elem, "strength") ==> Has(r.value, "strength_main", Str(elem.attrs["strength"]))
  {
    var d := ColumnSteelDict(steel);
    if !Present(d) then None
    else
      var s := d.value["stb_name" := name]["stb_shape_name" := OptStr(Get(elem, "shape"))]["stb_structure_type" := Str(structure)];
      Some(if cft && HasTruthy(elem, "strength") then s["strength_main" := Str(elem.attrs["strength"])] else s)
  }

  /** The S column shape processor for a column named `name`. */
  function SShapeProc(name: Value): UnifiedSection.ShapeProc
  {
    (steel, elem) => ColumnShape(steel, elem, name, "S", false)
  }

  /** The CFT column shape processor for a column named `name`. */
  function CftShapeProc(name: Value): UnifiedSection.ShapeProc
  {
    (steel, elem) => ColumnShape(steel, elem, name, "CFT", true)
  }

  /** The context a pass hands to the pattern processor. */
  function Context(sec: Element, structure: string): Dict
  {
    map["sec_id" := OptStr(Get(sec, "id")), "sec_name" := NameOf(sec), "structure_type" := Str(structure)]
  }

  // ---------------------------------------------------------------- merging NotSame results

  /** `next(r for r in results if r.get("position") == pos)`: the first result at `pos`. */
  function FirstAt(results: seq<Dict>, pos: string): (r: Option<Dict>)
    ensures r.Some? ==> exists i :: (0 <= i < |results| && results[i] == r.value && Has(results[i], "position", Str(pos))
      && forall j :: 0 <= j < i ==> !Has(results[j], "position", Str(pos)))
    ensures r.None? <==> forall i :: 0 <= i < |results| ==> !Has(results[i], "position", Str(pos))
  {
    if results == [] then None
    else if Has(results[0], "position", Str(pos)) then Some(results[0])
    else
      var r := FirstAt(results[1..], pos);
      assert forall i :: 1 <= i < |results| ==> results[1..][i - 1] == results[i];
      r
  }

  /** The dictionary of a tapered column made of two NotSame sections. */
  function TaperedColumnDict(taper: string, bottom: Dict, top: Dict, name: Value, structure: string): (p: Dict)
    ensures Has(p, "section_type", Str(taper)) && Has(p, "start_section", Dict(bottom)) && Has(p, "end_section", Dict(top))
    ensures Has(p, "stb_name", name) && Has(p, "stb_structure_type", Str(structure))
  {
    map["section_type" := Str(taper), "start_section" := Dict(bottom), "end_section" := Dict(top), "stb_name" := name,
      "stb_structure_type" := Str(structure)]
  }

  /**
   * What one column stores for a non-empty result list: a single result as
   * it is; for two, the BOTTOM one when both ends have the same shape name, a
   * taper from BOTTOM to TOP when they differ, or the one end found; for more
   * than two, nothing.
   */
  function MergeResults(results: seq<Dict>, name: Value, taper: string, structure: string): (r: Option<Dict>)
    ensures |results| == 1 ==> r == Some(results[0])
    ensures |results| > 2 ==> r.None?
    ensures var b := FirstAt(results, "BOTTOM"); var t := FirstAt(results, "TOP");
      |results| == 2 && b.Some? && t.Some? && Lookup(b.value, "stb_shape_name") == Lookup(t.value, "stb_shape_name") ==> r == b
    ensures var b := FirstAt(results, "BOTTOM"); var t := FirstAt(results, "TOP");
      (|results| == 2 && b.Some? && t.Some? && Lookup(b.value, "stb_shape_name") != Lookup(t.value, "stb_shape_name")) ==>
        r == Some(TaperedColumnDict(taper, b.value, t.value, name, structure))
    ensures var b := FirstAt(results, "BOTTOM"); var t := FirstAt(results, "TOP");
      |results| == 2 && (b.Some? != t.Some?) ==> r == (if b.Some? then b else t)
    ensures |results| == 2 && r.Some? ==> FirstAt(results, "BOTTOM").Some? || FirstAt(results, "TOP").Some?
  {
    if |results| == 1 then Some(results[0])
    else if |results| == 2 then
      var b := FirstAt(results, "BOTTOM");
      var t := FirstAt(results, "TOP");
      if b.Some? && t.Some? then
        if Lookup(b.value, "stb_shape_name") == Lookup(t.value, "stb_shape_name") then b
        else Some(TaperedColumnDict(taper, b.value, t.value, name, structure))
      else if b.Some? then b
      else t
    else None
  }

  // ---------------------------------------------------------------- ThreeTypes

  /** `shape_bottom or shape_center or shape_top`, kept only when non-empty. */
  function ThreeTypesShape(tt: Element): (r: Option<string>)
    ensures HasTruthy(tt, "shape_bottom") ==> r == Some(tt.attrs["shape_bottom"])
    ensures !HasTruthy(tt, "shape_bottom") && HasTruthy(tt, "shape_center") ==> r == Some(tt.attrs["shape_center"])
    ensures !HasTruthy(tt, "shape_bottom") && !HasTruthy(tt, "shape_center") && HasTruthy(tt, "shape_top") ==>
      r == Some(tt.attrs["shape_top"])
    ensures r.None? <==> !HasTruthy(tt, "shape_bottom") && !HasTruthy(tt, "shape_center") && !HasTruthy(tt, "shape_top")
  {
    if HasTruthy(tt, "shape_bottom") then Some(tt.attrs["shape_bottom"])
    else if HasTruthy(tt, "shape_center") then Some(tt.attrs["shape_center"])
    else if HasTruthy(tt, "shape_top") then Some(tt.attrs["shape_top"])
    else None
  }

  /** The note a ThreeTypes column carries: its representative section stands for all three. */
  const ThreeTypesNote: string := "ThreeTypes柱断面（代表断面を使用）"

  /** The S ThreeTypes shortcut: the chosen shape's section stands for the whole column. */
  function ThreeTypesSection(tt: Element, name: Value, cache: map<string, Element>): (r: Option<Dict>)
    ensures r.Some? <==> (ThreeTypesShape(tt).Some? && ThreeTypesShape(tt).value in cache
      && Present(ColumnSteelDict(cache[ThreeTypesShape(tt).value])))
    ensures r.Some? ==> (Has(r.value, "stb_shape_name", Str(ThreeTypesShape(tt).value)) && Has(r.value, "stb_name", name)
      && Has(r.value, "strength_main", OptStr(Get(tt, "strength_main"))) && Has(r.value, "stb_structure_type", Str("S")))
  {
    match ThreeTypesShape(tt)
    case None => None
    case Some(shape) =>
      if shape !in cache || !Present(ColumnSteelDict(cache[shape])) then None
      else
        Some(ColumnSteelDict(cache[shape]).value["strength_main" := OptStr(Get(tt, "strength_main"))]["stb_name" := name]
          ["stb_shape_name" := Str(shape)]["stb_structure_type" := Str("S")]["note" := Str(ThreeTypesNote)])
  }

  // ---------------------------------------------------------------- the S and CFT passes

  /** One S column: the merged Same/NotSame results, else the ThreeTypes shortcut. */
  function SColumnSection(sec: Element, cache: map<string, Element>): Option<Dict>
  {
    match Below(sec, "StbSecSteelFigureColumn_S")
    case None => None
    case Some(fig) =>
      var results := UnifiedSection.SameNotSameResults(fig, SShapeProc(NameOf(sec)), Context(sec, "S"), cache);
      if results != [] then MergeResults(results, NameOf(sec), "TAPERED_S", "S")
      else
        match Child(fig, "StbSecSteelColumn_S_ThreeTypes")
        case None => None
        case Some(tt) => ThreeTypesSection(tt, NameOf(sec), cache)
  }

  /** One CFT column: the merged Same/NotSame results; there is no ThreeTypes shortcut. */
  function CftColumnSection(sec: Element, cache: map<string, Element>): Option<Dict>
  {
    match Below(sec, "StbSecSteelFigureColumn_CFT")
    case None => None
    case Some(fig) =>
      var results := UnifiedSection.SameNotSameResults(fig, CftShapeProc(NameOf(sec)), Context(sec, "CFT"), cache);
      if results != [] then MergeResults(results, NameOf(sec), "TAPERED_CFT", "CFT") else None
  }

  // ---------------------------------------------------------------- RC columns

  /** The RC rectangle of a column named `name`. */
  function RcRectDict(wx: real, wy: real, name: Value): (p: Dict)
    ensures Has(p, "section_type", Str("RECTANGLE")) && Has(p, "width_x", Num(wx)) && Has(p, "width_y", Num(wy))
    ensures Has(p, "stb_name", name) && Has(p, "stb_structure_type", Str("RC"))
  {
    map["section_type" := Str("RECTANGLE"), "width_x" := Num(wx), "width_y" := Num(wy), "stb_name" := name,
      "stb_structure_type" := Str("RC")]
  }

  /** The RC circle of diameter `d` of a column named `name`. */
  function RcCircleDict(d: real, name: Value): (p: Dict)
    ensures Has(p, "section_type", Str("CIRCLE")) && Has(p, "radius", Num(d / 2.0))
    ensures Has(p, "stb_name", name) && Has(p, "stb_structure_type", Str("RC"))
  {
    map["section_type" := Str("CIRCLE"), "radius" := Num(d / 2.0), "stb_name" := name, "stb_structure_type" := Str("RC")]
  }

  /**
   * `_extract_rc_column_sections` for one section: a Rect figure decides
   * alone and needs both widths truthy; only without one is a Circle read.
   */
  function RcColumnSection(sec: Element): (r: Option<Dict>)
    ensures var fig := Below(sec, "StbSecFigureColumn_RC");
      fig.Some? && Child(fig.value, "StbSecColumn_RC_Rect").Some? ==>
        var rect := Child(fig.value, "StbSecColumn_RC_Rect").value;
        (r.Some? <==> TruthyNum(FloatAttr(rect, "width_X", None)) && TruthyNum(FloatAttr(rect, "width_Y", None)))
    ensures var fig := Below(sec, "StbSecFigureColumn_RC");
      (fig.Some? && Child(fig.value, "StbSecColumn_RC_Rect").Some? && r.Some?) ==>
        var rect := Child(fig.value, "StbSecColumn_RC_Rect").value;
        r.value == WithConcrete(RcRectDict(FloatAttr(rect, "width_X", None).value, FloatAttr(rect, "width_Y", None).value,
          NameOf(sec)), Get(sec, "strength_concrete"))
    ensures var fig := Below(sec, "StbSecFigureColumn_RC");
      (fig.Some? && Child(fig.value, "StbSecColumn_RC_Rect").None? && r.Some?) ==>
        var circle := Child(fig.value, "StbSecColumn_RC_Circle");
        (circle.Some? && TruthyNum(FloatAttr(circle.value, "D", None))
          && r.value == WithConcrete(RcCircleDict(FloatAttr(circle.value, "D", None).value, NameOf(sec)), Get(sec, "strength_concrete")))
    ensures Below(sec, "StbSecFigureColumn_RC").None? ==> r.None?
  {
    match Below(sec, "StbSecFigureColumn_RC")
    case None => None
    case Some(fig) =>
      match Child(fig, "StbSecColumn_RC_Rect")
      case Some(rect) =>
        var w := FloatAttr(rect, "width_X", None);
        var h := FloatAttr(rect, "width_Y", None);
        if TruthyNum(w) && TruthyNum(h) then Some(WithConcrete(RcRectDict(w.value, h.value, NameOf(sec)), Get(sec, "strength_concrete")))
        else None
      case None =>
        match Child(fig, "StbSecColumn_RC_Circle")
        case None => None
        case Some(circle) =>
          var d := FloatAttr(circle, "D", None);
          if TruthyNum(d) then Some(WithConcrete(RcCircleDict(d.value, NameOf(sec)), Get(sec, "strength_concrete"))) else None
  }

  // ---------------------------------------------------------------- SRC columns

  /** The widths of an SRC figure's Rect child, when both are truthy. */
  function SrcRectWidths(fig: Element): (r: Option<(real, real)>)
    ensures r.Some? ==> r.value.0 != 0.0 && r.value.1 != 0.0
  {
    match Child(fig, "StbSecColumn_SRC_Rect")
    case None => None
    case Some(rect) =>
      var wx := FloatAttr(rect, "width_X", None);
      var wy := FloatAttr(rect, "width_Y", None);
      if TruthyNum(wx) && TruthyNum(wy) then Some((wx.value, wy.value)) else None
  }

  /** The diameter of an SRC figure's Circle child, when it is truthy. */
  function SrcCircleDiameter(fig: Element): (r: Option<real>)
    ensures r.Some? ==> r.value != 0.0
  {
    match Child(fig, "StbSecColumn_SRC_Circle")
    case None => None
    case Some(circle) =>
      var d := FloatAttr(circle, "D", None);
      if TruthyNum(d) then d else None
  }

  /** The RC rectangle of an SRC member. */
  function SrcRectDict(wx: real, wy: real): (p: Dict)
    ensures Has(p, "section_type", Str("RECTANGLE")) && Has(p, "width_x", Num(wx)) && Has(p, "width_y", Num(wy))
    ensures Has(p, "material_type", Str("RC"))
  {
    map["section_type" := Str("RECTANGLE"), "width_x" := Num(wx), "width_y" := Num(wy), "material_type" := Str("RC")]
  }

  /** The RC circle of diameter `d` of an SRC member. */
  function SrcCircleDict(d: real): (p: Dict)
    ensures Has(p, "section_type", Str("CIRCLE")) && Has(p, "radius", Num(d / 2.0)) && Has(p, "material_type", Str("RC"))
  {
    map["section_type" := Str("CIRCLE"), "radius" := Num(d / 2.0), "material_type" := Str("RC")]
  }

  /** `_extract_src_rc_section`: a valid rectangle, else a valid circle (an invalid rectangle falls through). */
  function SrcRcPart(sec: Element): (r: Option<Dict>)
    ensures r.Some? ==> Has(r.value, "material_type", Str("RC"))
    ensures Below(sec, "StbSecFigureColumn_SRC").None? ==> r.None?
    ensures var fig := Below(sec, "StbSecFigureColumn_SRC");
      fig.Some? ==> (r.Some? <==> SrcRectWidths(fig.value).Some? || SrcCircleDiameter(fig.value).Some?)
    ensures var fig := Below(sec, "StbSecFigureColumn_SRC");
      fig.Some? && SrcRectWidths(fig.value).Some? ==>
        r == Some(SrcRectDict(SrcRectWidths(fig.value).value.0, SrcRectWidths(fig.value).value.1))
    ensures var fig := Below(sec, "StbSecFigureColumn_SRC");
      (fig.Some? && SrcRectWidths(fig.value).None? && SrcCircleDiameter(fig.value).Some?) ==>
        r == Some(SrcCircleDict(SrcCircleDiameter(fig.value).value))
  {
    match Below(sec, "StbSecFigureColumn_SRC")
    case None => None
    case Some(fig) =>
      match SrcRectWidths(fig)
      case Some((wx, wy)) => Some(SrcRectDict(wx, wy))
      case None =>
        match SrcCircleDiameter(fig)
        case Some(d) => Some(SrcCircleDict(d))
        case None => None
  }

  /** A steel part labelled with its encasement, strength and shape name. */
  function Encased(d: Dict, encase: Option<string>, strength: string, shape: string): (r: Dict)
    ensures Has(r, "strength_main", Str(strength)) && Has(r, "steel_shape_name", Str(shape))
    ensures encase.Some? ==> Has(r, "encase_type", Str(encase.value))
    ensures forall k :: k in d && k != "encase_type" && k != "strength_main" && k != "steel_shape_name" ==> Has(r, k, d[k])
  {
    var e := if encase.Some? then d["encase_type" := Str(encase.value)] else d;
    e["strength_main" := Str(strength)]["steel_shape_name" := Str(shape)]
  }

  /** The cached steel element of a truthy `shape` attribute. */
  function CachedShape(x: Element, cache: map<string, Element>): (r: Option<Element>)
    ensures r.Some? <==> HasTruthy(x, "shape") && x.attrs["shape"] in cache
    ensures r.Some? ==> r.value == cache[x.attrs["shape"]]
  {
    if HasTruthy(x, "shape") && x.attrs["shape"] in cache then Some(cache[x.attrs["shape"]]) else None
  }

  /** The SameShapeBox branch: a Roll-BOX or Build-BOX shape. */
  function SrcBox(box: Element, cache: map<string, Element>): (r: Option<Dict>)
    ensures r.Some? ==> Has(r.value, "strength_main", Str(GetOr(box, "strength", "BCR295")))
    ensures r.Some? ==> Has(r.value, "encase_type", Str(GetOr(box, "encase_type", "ENCASEDANDINFILLED")))
  {
    match CachedShape(box, cache)
    case None => None
    case Some(steel) =>
      var info := if TagIs(steel, "StbSecRoll-BOX") then BoxSection(steel)
        else if TagIs(steel, "StbSecBuild-BOX") then BuildBoxSection(steel) else None;
      if Present(info) then
        Some(Encased(info.value, Some(GetOr(box, "encase_type", "ENCASEDANDINFILLED")), GetOr(box, "strength", "BCR295"), box.attrs["shape"]))
      else None
  }

  /** The SameShapePipe branch. */
  function SrcPipe(pipe: Element, cache: map<string, Element>): (r: Option<Dict>)
    ensures r.Some? ==> Has(r.value, "strength_main", Str(GetOr(pipe, "strength", "SN400B")))
  {
    match CachedShape(pipe, cache)
    case None => None
    case Some(steel) =>
      var info := PipeSection(steel);
      if Present(info) then
        Some(Encased(info.value, Some(GetOr(pipe, "encase_type", "ENCASEDANDINFILLED")), GetOr(pipe, "strength", "SN400B"), pipe.attrs["shape"]))
      else None
  }

  /** The SameShapeH branch. */
  function SrcH(h: Element, cache: map<string, Element>): (r: Option<Dict>)
    ensures r.Some? ==> Has(r.value, "strength_main", Str(GetOr(h, "strength_main", "SN400B")))
  {
    match CachedShape(h, cache)
    case None => None
    case Some(steel) =>
      var info := HSection(steel);
      if Present(info) then Some(Encased(info.value, None, GetOr(h, "strength_main", "SN400B"), h.attrs["shape"])) else None
  }

  /** One H shape of a Cross or T pair, labelled with its shape name and strength. */
  function PairPart(x: Element, shapeAttr: string, strengthAttr: string, cache: map<string, Element>): (r: Option<Dict>)
    requires HasTruthy(x, shapeAttr) && x.attrs[shapeAttr] in cache
    ensures r.Some? <==> Present(HSection(cache[x.attrs[shapeAttr]]))
    ensures r.Some? ==> (Has(r.value, "steel_shape_name", Str(x.attrs[shapeAttr]))
      && Has(r.value, "strength_main", Str(GetOr(x, strengthAttr, "SN400B"))))
  {
    var h := HSection(cache[x.attrs[shapeAttr]]);
    if Present(h) then Some(Encased(h.value, None, GetOr(x, strengthAttr, "SN400B"), x.attrs[shapeAttr])) else None
  }

  /** The dictionary of a Cross (`cross`) or T composite of two H shapes. */
  function PairDict(cross: bool, direction: Value, a: Dict, b: Dict): (p: Dict)
    ensures Has(p, "section_type", Str(if cross then "CROSS_COMPOSITE" else "T_COMPOSITE"))
    ensures cross ==> Has(p, "x_section", Dict(a)) && Has(p, "y_section", Dict(b))
    ensures !cross ==> Has(p, "h_section", Dict(a)) && Has(p, "t_section", Dict(b))
  {
    if cross then map["section_type" := Str("CROSS_COMPOSITE"), "direction_type" := direction, "x_section" := Dict(a), "y_section" := Dict(b)]
    else map["section_type" := Str("T_COMPOSITE"), "direction_type" := direction, "h_section" := Dict(a), "t_section" := Dict(b)]
  }

  /**
   * A pair of H shapes (`_extract_src_cross_section` with shape_X/shape_Y,
   * `_extract_src_t_section` with shape_H/shape_T): both shape names must be
   * non-empty, cached and parse.
   */
  function SrcPair(x: Element, cross: bool, cache: map<string, Element>): (r: Option<Dict>)
    ensures var a := if cross then "shape_X" else "shape_H"; var b := if cross then "shape_Y" else "shape_T";
      r.Some? <==> (HasTruthy(x, a) && HasTruthy(x, b) && x.attrs[a] in cache && x.attrs[b] in cache
        && Present(HSection(cache[x.attrs[a]])) && Present(HSection(cache[x.attrs[b]])))
  {
    var a := if cross then "shape_X" else "shape_H";
    var b := if cross then "shape_Y" else "shape_T";
    if !(HasTruthy(x, a) && HasTruthy(x, b)) || x.attrs[a] !in cache || x.attrs[b] !in cache then None
    else
      var pa := PairPart(x, a, if cross then "strength_main_X" else "strength_main_H", cache);
      var pb := PairPart(x, b, if cross then "strength_main_Y" else "strength_main_T", cache);
      if pa.Some? && pb.Some? then Some(PairDict(cross, OptStr(Get(x, "direction_type")), pa.value, pb.value)) else None
  }

  /**
   * `_extract_src_same_steel_section`: BOX, then PIPE (each falling through
   * when it does not resolve), then Cross, then T (each deciding alone), then H.
   */
  function SrcSameSteel(same: Element, cache: map<string, Element>): (r: Option<Dict>)
    ensures var box := Child(same, "StbSecColumn_SRC_SameShapeBox");
      box.Some? && SrcBox(box.value, cache).Some? ==> r == SrcBox(box.value, cache)
    ensures var box := Child(same, "StbSecColumn_SRC_SameShapeBox"); var pipe := Child(same, "StbSecColumn_SRC_SameShapePipe");
      (box.None? || SrcBox(box.value, cache).None?) && pipe.Some? && SrcPipe(pipe.value, cache).Some? ==> r == SrcPipe(pipe.value, cache)
  {
    var box := Child(same, "StbSecColumn_SRC_SameShapeBox");
    var boxInfo := if box.Some? then SrcBox(box.value, cache) else None;
    if boxInfo.Some? then boxInfo
    else
      var pipe := Child(same, "StbSecColumn_SRC_SameShapePipe");
      var pipeInfo := if pipe.Some? then SrcPipe(pipe.value, cache) else None;
      if pipeInfo.Some? then pipeInfo
      else
        match Child(same, "StbSecColumn_SRC_SameShapeCross")
        case Some(cross) => SrcPair(cross, true, cache)
        case None =>
          match Child(same, "StbSecColumn_SRC_SameShapeT")
          case Some(t) => SrcPair(t, false, cache)
          case None =>
            match Child(same, "StbSecColumn_SRC_SameShapeH")
            case Some(h) => SrcH(h, cache)
            case None => None
  }

  /** `_extract_src_steel_section`: only the Same configuration is read. */
  function SrcSteelPart(sec: Element, cache: map<string, Element>): (r: Option<Dict>)
    ensures var fig := Below(sec, "StbSecSteelFigureColumn_SRC");
      (fig.None? || Child(fig.value, "StbSecSteelColumn_SRC_Same").None?) ==> r.None?
  {
    match Below(sec, "StbSecSteelFigureColumn_SRC")
    case None => None
    case Some(fig) =>
      match Child(fig, "StbSecSteelColumn_SRC_Same")
      case None => None
      case Some(same) => SrcSameSteel(same, cache)
  }

  /** The rebar dictionary of an arrangement and its RectSame bars. */
  function RebarDict(rebar: Element, bar: Element): Dict
  {
    map[
      "cover_start_x" := OptNum(FloatAttr(rebar, "depth_cover_start_X", None)),
      "cover_end_x" := OptNum(FloatAttr(rebar, "depth_cover_end_X", None)),
      "cover_start_y" := OptNum(FloatAttr(rebar, "depth_cover_start_Y", None)),
      "cover_end_y" := OptNum(FloatAttr(rebar, "depth_cover_end_Y", None)),
      "kind_corner" := Str(GetOr(rebar, "kind_corner", "NONE")),
      "d_main" := OptStr(Get(bar, "D_main")),
      "d_band" := OptStr(Get(bar, "D_band")),
      "strength_main" := OptStr(Get(bar, "strength_main")),
      "strength_band" := OptStr(Get(bar, "strength_band")),
      "n_main_x_1st" := OptNum(FloatAttr(bar, "N_main_X_1st", None)),
      "n_main_y_1st" := OptNum(FloatAttr(bar, "N_main_Y_1st", None)),
      "n_main_total" := OptNum(FloatAttr(bar, "N_main_total", None)),
      "pitch_band" := OptNum(FloatAttr(bar, "pitch_band", None)),
      "n_band_direction_x" := OptNum(FloatAttr(bar, "N_band_direction_X", None)),
      "n_band_direction_y" := OptNum(FloatAttr(bar, "N_band_direction_Y", None))]
  }

  /** `_extract_src_rebar_section`: present only for a RectSame arrangement. */
  function SrcRebar(sec: Element): (r: Option<Dict>)
    ensures r.Some? <==> (Below(sec, "StbSecBarArrangementColumn_SRC").Some?
      && Child(Below(sec, "StbSecBarArrangementColumn_SRC").value, "StbSecBarColumn_SRC_RectSame").Some?)
  {
    match Below(sec, "StbSecBarArrangementColumn_SRC")
    case None => None
    case Some(rebar) =>
      match Child(rebar, "StbSecBarColumn_SRC_RectSame")
      case None => None
      case Some(bar) => Some(RebarDict(rebar, bar))
  }

  /** The SRC composite of an RC part and a steel part. */
  function CompositeDict(name: Value, strength: string, rc: Dict, steel: Dict, rebar: Option<Dict>): (p: Dict)
    ensures Has(p, "section_type", Str("SRC_COMPOSITE")) && Has(p, "stb_structure_type", Str("SRC"))
    ensures Has(p, "strength_concrete", Str(strength)) && Has(p, "rc_section", Dict(rc)) && Has(p, "steel_section", Dict(steel))
    ensures Has(p, "stb_name", name)
  {
    map["section_type" := Str("SRC_COMPOSITE"), "stb_structure_type" := Str("SRC"), "stb_name" := name,
      "strength_concrete" := Str(strength), "rc_section" := Dict(rc), "steel_section" := Dict(steel),
      "rebar_section" := if rebar.Some? then Dict(rebar.value) else Null]
  }

  /** One SRC column: stored only when both the RC part and the steel part are found; strength defaults to Fc21. */
  function SrcColumnSection(sec: Element, cache: map<string, Element>): (r: Option<Dict>)
    ensures r.Some? <==> Present(SrcRcPart(sec)) && Present(SrcSteelPart(sec, cache))
    ensures r.Some? ==> r.value == CompositeDict(NameOf(sec), GetOr(sec, "strength_concrete", "Fc21"),
      SrcRcPart(sec).value, SrcSteelPart(sec, cache).value, SrcRebar(sec))
  {
    var rc := SrcRcPart(sec);
    var steel := SrcSteelPart(sec, cache);
    if Present(rc) && Present(steel) then
      Some(CompositeDict(NameOf(sec), GetOr(sec, "strength_concrete", "Fc21"), rc.value, steel.value, SrcRebar(sec)))
    else None
  }

  // ---------------------------------------------------------------- the extractor

  function SColumnPass(cache: map<string, Element>): Element -> Option<Dict>
  {
    sec => SColumnSection(sec, cache)
  }

  function CftColumnPass(cache: map<string, Element>): Element -> Option<Dict>
  {
    sec => CftColumnSection(sec, cache)
  }

  function SrcColumnPass(cache: map<string, Element>): Element -> Option<Dict>
  {
    sec => SrcColumnSection(sec, cache)
  }

  /** The map `ColumnSectionExtractor.extract_sections` returns: S, RC, CFT and SRC passes in that order. */
  function ColumnSectionsData(root: Element, cache: map<string, Element>): map<string, Dict>
  {
    match Below(root, "StbSections")
    case None => map[]
    case Some(s) =>
      var d1 := StoreAll(AllBelow(s, "StbSecColumn_S"), SColumnPass(cache), map[]);
      var d2 := StoreAll(AllBelow(s, "StbSecColumn_RC"), RcColumnSection, d1);
      var d3 := StoreAll(AllBelow(s, "StbSecColumn_CFT"), CftColumnPass(cache), d2);
      StoreAll(AllBelow(s, "StbSecColumn_SRC"), SrcColumnPass(cache), d3)
  }

  /** `ColumnSectionExtractor.extract_sections`. */
  method ExtractColumnSections(root: Element) returns (data: map<string, Dict>)
    ensures data == ColumnSectionsData(root, SteelCache(root))
    ensures Below(root, "StbSections").None? ==> data == map[]
  {
    var cache := BuildSteelSectionCache(root);
    data := map[];
    var sections := Below(root, "StbSections");
    if sections.None? {
      return;
    }
    var s := sections.value;
    data := StorePass(AllBelow(s, "StbSecColumn_S"), SColumnPass(cache), data);
    data := StorePass(AllBelow(s, "StbSecColumn_RC"), RcColumnSection, data);
    data := StorePass(AllBelow(s, "StbSecColumn_CFT"), CftColumnPass(cache), data);
    data := StorePass(AllBelow(s, "StbSecColumn_SRC"), SrcColumnPass(cache), data);
  }
}
