/**
 * The SRC section extractor (stbParser/src_section_extractor.py): steel
 * reinforced concrete columns and beams, each stored as a composite of an RC
 * part and a steel part (plus rebar information when present) and only when
 * both parts are found.
 */
module SrcSection {
  import opened Wrappers
  import opened Values
  import opened Xml
  import opened SectionBase
  import ColumnSection

  // ---------------------------------------------------------------- column steel (Same configuration)

  /**
   * A SameShapeH, SameShapeBox or SameShapePipe element: its non-empty
   * `shape` must be cached and parse with the family parser `parse`; the
   * result is labelled with the encasement (default ENCASEDANDINFILLED), the
   * `strength` attribute (default `strengthDefault`) and the shape name.
   */
  function SameShape(x: Element, parse: Element -> Option<Dict>, strengthDefault: string, cache: map<string, Element>): (r: Option<Dict>)
    ensures r.Some? <==> HasTruthy(x, "shape") && x.attrs["shape"] in cache && Present(parse(cache[x.attrs["shape"]]))
    ensures r.Some? ==> (Has(r.value, "encase_type", Str(GetOr(x, "encase_type", "ENCASEDANDINFILLED")))
      && Has(r.value, "strength_main", Str(GetOr(x, "strength", strengthDefault)))
      && Has(r.value, "steel_shape_name", Str(x.attrs["shape"]))
      && ("section_type" in parse(cache[x.attrs["shape"]]).value ==>
        Has(r.value, "section_type", parse(cache[x.attrs["shape"]]).value["section_type"])))
  {
    if !HasTruthy(x, "shape") || x.attrs["shape"] !in cache then None
    else
      var info := parse(cache[x.attrs["shape"]]);
      if !Present(info) then None
      else Some(ColumnSection.Encased(info.value, Some(GetOr(x, "encase_type", "ENCASEDANDINFILLED")), GetOr(x, "strength", strengthDefault), x.attrs["shape"]))
  }

  /** The dictionary of a T (`cross` false) or Cross composite of two H shapes. */
  function SrcPairDict(cross: bool, direction: Value, a: Dict, b: Dict): (p: Dict)
    ensures Has(p, "section_type", Str(if cross then "CROSS_COMPOSITE" else "T_COMPOSITE")) && Has(p, "direction_type", direction)
    ensures cross ==> Has(p, "h1_section", Dict(a)) && Has(p, "h2_section", Dict(b))
    ensures !cross ==> Has(p, "h_section", Dict(a)) && Has(p, "t_section", Dict(b))
  {
    if cross then map["section_type" := Str("CROSS_COMPOSITE"), "direction_type" := direction, "h1_section" := Dict(a), "h2_section" := Dict(b)]
    else map["section_type" := Str("T_COMPOSITE"), "direction_type" := direction, "h_section" := Dict(a), "t_section" := Dict(b)]
  }

  /** The shape attribute names of a T (shape_H, shape_T) or a Cross (shape_X, shape_Y). */
  function PairAttrs(cross: bool): (string, string)
  {
    if cross then ("shape_X", "shape_Y") else ("shape_H", "shape_T")
  }

  /**
   * `_extract_src_t_section` / `_extract_src_cross_section`: both shape
   * names non-empty, both cached, and both parsed as H shapes.
   */
  function SrcPair(x: Element, cross: bool, cache: map<string, Element>): (r: Option<Dict>)
    ensures var (a, b) := PairAttrs(cross);
      r.Some? <==> (HasTruthy(x, a) && HasTruthy(x, b) && x.attrs[a] in cache && x.attrs[b] in cache
        && Present(HSection(cache[x.attrs[a]])) && Present(HSection(cache[x.attrs[b]])))
    ensures r.Some? ==> Has(r.value, "section_type", Str(if cross then "CROSS_COMPOSITE" else "T_COMPOSITE"))
    ensures var (a, b) := PairAttrs(cross); !(HasTruthy(x, a) && HasTruthy(x, b)) ==> r.None?
  {
    var (a, b) := PairAttrs(cross);
    if !(HasTruthy(x, a) && HasTruthy(x, b)) || x.attrs[a] !in cache || x.attrs[b] !in cache then None
    else
      var pa := ColumnSection.PairPart(x, a, if cross then "strength_main_X" else "strength_main_H", cache);
      var pb := ColumnSection.PairPart(x, b, if cross then "strength_main_Y" else "strength_main_T", cache);
      if pa.Some? && pb.Some? then Some(SrcPairDict(cross, OptStr(Get(x, "direction_type")), pa.value, pb.value)) else None
  }

  /** The H, Box and Pipe branches of a Same element, as the cascade sees them (`None` when absent or failing). */
  function SameH(same: Element, cache: map<string, Element>): Option<Dict>
  {
    match Child(same, "StbSecColumn_SRC_SameShapeH")
    case None => None
    case Some(h) => SameShape(h, HSection, "SN400B", cache)
  }

  function SameBox(same: Element, cache: map<string, Element>): Option<Dict>
  {
    match Child(same, "StbSecColumn_SRC_SameShapeBox")
    case None => None
    case Some(box) => SameShape(box, BoxSection, "BCR295", cache)
  }

  function SamePipe(same: Element, cache: map<string, Element>): Option<Dict>
  {
    match Child(same, "StbSecColumn_SRC_SameShapePipe")
    case None => None
    case Some(pipe) => SameShape(pipe, PipeSection, "SN400B", cache)
  }

  /**
   * `_extract_src_same_steel_section`: H, then BOX, then PIPE, each falling
   * through when it does not resolve; then T and Cross, each deciding alone.
   */
  function SrcSameSteel(same: Element, cache: map<string, Element>): (r: Option<Dict>)
    ensures SameH(same, cache).Some? ==> r == SameH(same, cache)
    ensures SameH(same, cache).None? && SameBox(same, cache).Some? ==> r == SameBox(same, cache)
    ensures SameH(same, cache).None? && SameBox(same, cache).None? && SamePipe(same, cache).Some? ==> r == SamePipe(same, cache)
    ensures var t := Child(same, "StbSecColumn_SRC_SameShapeT");
      SameH(same, cache).None? && SameBox(same, cache).None? && SamePipe(same, cache).None? && t.Some? ==>
        r == SrcPair(t.value, false, cache)
    ensures var t := Child(same, "StbSecColumn_SRC_SameShapeT"); var c := Child(same, "StbSecColumn_SRC_SameShapeCross");
      SameH(same, cache).None? && SameBox(same, cache).None? && SamePipe(same, cache).None? && t.None? ==>
        r == (if c.Some? then SrcPair(c.value, true, cache) else None)
  {
    var h := SameH(same, cache);
    if h.Some? then h
    else
      var box := SameBox(same, cache);
      if box.Some? then box
      else
        var pipe := SamePipe(same, cache);
        if pipe.Some? then pipe
        else
          match Child(same, "StbSecColumn_SRC_SameShapeT")
          case Some(t) => SrcPair(t, false, cache)
          case None =>
            match Child(same, "StbSecColumn_SRC_SameShapeCross")
            case Some(c) => SrcPair(c, true, cache)
            case None => None
  }

  /**
   * Whatever the Same cascade yields is one of the five layouts it knows:
   * an H, BOX or PIPE shape, or a T or Cross composite.
   */
  lemma SameSteelKinds(same: Element, cache: map<string, Element>)
    ensures var r := SrcSameSteel(same, cache);
      r.Some? ==> ("section_type" in r.value && r.value["section_type"] in
        {Str("H"), Str("BOX"), Str("PIPE"), Str("T_COMPOSITE"), Str("CROSS_COMPOSITE")})
  {
    var r := SrcSameSteel(same, cache);
    if SameH(same, cache).Some? {
      var h := Child(same, "StbSecColumn_SRC_SameShapeH").value;
      assert Has(HSection(cache[h.attrs["shape"]]).value, "section_type", Str("H"));
    } else if SameBox(same, cache).Some? {
      var b := Child(same, "StbSecColumn_SRC_SameShapeBox").value;
      assert Has(BoxSection(cache[b.attrs["shape"]]).value, "section_type", Str("BOX"));
    } else if SamePipe(same, cache).Some? {
      var p := Child(same, "StbSecColumn_SRC_SameShapePipe").value;
      assert Has(PipeSection(cache[p.attrs["shape"]]).value, "section_type", Str("PIPE"));
    }
  }

  /** `_extract_src_steel_section`: a Same configuration is read; NotSame, or neither, gives nothing. */
  function SrcSteelPart(sec: Element, cache: map<string, Element>): (r: Option<Dict>)
    ensures var fig := Below(sec, "StbSecSteelFigureColumn_SRC");
      fig.Some? && Child(fig.value, "StbSecSteelColumn_SRC_Same").Some? ==>
        r == SrcSameSteel(Child(fig.value, "StbSecSteelColumn_SRC_Same").value, cache)
    ensures var fig := Below(sec, "StbSecSteelFigureColumn_SRC");
      (fig.None? || Child(fig.value, "StbSecSteelColumn_SRC_Same").None?) ==> r.None?
  {
    match Below(sec, "StbSecSteelFigureColumn_SRC")
    case None => None
    case Some(fig) =>
      match Child(fig, "StbSecSteelColumn_SRC_Same")
      case None => None
      case Some(same) => SrcSameSteel(same, cache)
  }

  /** A NotSame steel figure without a Same child never yields a steel part, so the column is not stored. */
  lemma NotSameUnsupported(sec: Element, cache: map<string, Element>)
    requires Below(sec, "StbSecSteelFigureColumn_SRC").Some?
    requires Child(Below(sec, "StbSecSteelFigureColumn_SRC").value, "StbSecSteelColumn_SRC_NotSame").Some?
    requires Child(Below(sec, "StbSecSteelFigureColumn_SRC").value, "StbSecSteelColumn_SRC_Same").None?
    ensures SrcColumnSection(sec, cache).None?
  {
  }

  // ---------------------------------------------------------------- SRC columns

  /** One SRC column: the composite of its RC and steel parts, strength defaulting to Fc21. */
  function SrcColumnSection(sec: Element, cache: map<string, Element>): (r: Option<Dict>)
    ensures r.Some? <==> Present(ColumnSection.SrcRcPart(sec)) && Present(SrcSteelPart(sec, cache))
    ensures r.Some? ==> r.value == ColumnSection.CompositeDict(NameOf(sec), GetOr(sec, "strength_concrete", "Fc21"),
      ColumnSection.SrcRcPart(sec).value, SrcSteelPart(sec, cache).value, ColumnSection.SrcRebar(sec))
  {
    var rc := ColumnSection.SrcRcPart(sec);
    var steel := SrcSteelPart(sec, cache);
    if Present(rc) && Present(steel) then
      Some(ColumnSection.CompositeDict(NameOf(sec), GetOr(sec, "strength_concrete", "Fc21"), rc.value, steel.value, ColumnSection.SrcRebar(sec)))
    else None
  }

  // ---------------------------------------------------------------- SRC beams

  /** The width and depth of an SRC beam's Rect figure, when both are truthy. */
  function BeamRectSizes(sec: Element): (r: Option<(real, real)>)
    ensures r.Some? ==> r.value.0 != 0.0 && r.value.1 != 0.0
    ensures Below(sec, "StbSecFigureBeam_SRC").None? ==> r.None?
  {
    match Below(sec, "StbSecFigureBeam_SRC")
    case None => None
    case Some(fig) =>
      match Child(fig, "StbSecBeam_SRC_Rect")
      case None => None
      case Some(rect) =>
        var w := FloatAttr(rect, "width", None);
        var d := FloatAttr(rect, "depth", None);
        if TruthyNum(w) && TruthyNum(d) then Some((w.value, d.value)) else None
  }

  /** `_extract_src_rc_beam_section`: a Rect with truthy width and depth; the depth is stored as height. */
  function SrcBeamRcPart(sec: Element): (r: Option<Dict>)
    ensures r.Some? <==> BeamRectSizes(sec).Some?
    ensures r.Some? ==> (Has(r.value, "section_type", Str("RECTANGLE")) && Has(r.value, "material_type", Str("RC"))
      && Has(r.value, "width", Num(BeamRectSizes(sec).value.0)) && Has(r.value, "height", Num(BeamRectSizes(sec).value.1)))
  {
    match BeamRectSizes(sec)
    case None => None
    case Some((w, d)) => Some(map["section_type" := Str("RECTANGLE"), "width" := Num(w), "height" := Num(d), "material_type" := Str("RC")])
  }

  /**
   * `_extract_src_steel_beam_section`: the Same element's non-empty shape,
   * cached and parsed by the generic shape dispatch, labelled with the
   * encasement (default ENCASED) and strength (default SN400B).
   */
  function SrcBeamSteelPart(sec: Element, cache: map<string, Element>): (r: Option<Dict>)
    ensures var fig := Below(sec, "StbSecSteelFigureBeam_SRC");
      (fig.None? || Child(fig.value, "StbSecSteelBeam_SRC_Same").None?) ==> r.None?
    ensures var fig := Below(sec, "StbSecSteelFigureBeam_SRC");
      fig.Some? && Child(fig.value, "StbSecSteelBeam_SRC_Same").Some? ==>
        var same := Child(fig.value, "StbSecSteelBeam_SRC_Same").value;
        (r.Some? <==> HasTruthy(same, "shape") && same.attrs["shape"] in cache && Present(ShapeParams(cache[same.attrs["shape"]])))
        && (r.Some? ==> (Has(r.value, "encase_type", Str(GetOr(same, "encase_type", "ENCASED")))
          && Has(r.value, "strength_main", Str(GetOr(same, "strength_main", "SN400B")))
          && Has(r.value, "steel_shape_name", Str(same.attrs["shape"]))
          && SteelType(r.value)))
  {
    match Below(sec, "StbSecSteelFigureBeam_SRC")
    case None => None
    case Some(fig) =>
      match Child(fig, "StbSecSteelBeam_SRC_Same")
      case None => None
      case Some(same) =>
        if !HasTruthy(same, "shape") || same.attrs["shape"] !in cache then None
        else
          var info := ShapeParams(cache[same.attrs["shape"]]);
          if !Present(info) then None
          else Some(ColumnSection.Encased(info.value, Some(GetOr(same, "encase_type", "ENCASED")), GetOr(same, "strength_main", "SN400B"), same.attrs["shape"]))
  }

  /** `_extract_src_rebar_beam_section`: a fixed marker whenever a bar arrangement is present. */
  function SrcBeamRebar(sec: Element): (r: Option<Dict>)
    ensures r.Some? <==> Below(sec, "StbSecBarArrangementBeam_SRC").Some?
    ensures r.Some? ==> Has(r.value, "rebar_type", Str("SRC_BEAM_REBAR")) && Has(r.value, "extracted", Bool(true))
  {
    if Below(sec, "StbSecBarArrangementBeam_SRC").None? then None
    else Some(map["rebar_type" := Str("SRC_BEAM_REBAR"), "extracted" := Bool(true)])
  }

  /** One SRC beam: the composite of its RC and steel parts, strength defaulting to Fc21. */
  function SrcBeamSection(sec: Element, cache: map<string, Element>): (r: Option<Dict>)
    ensures r.Some? <==> Present(SrcBeamRcPart(sec)) && Present(SrcBeamSteelPart(sec, cache))
    ensures r.Some? ==> r.value == ColumnSection.CompositeDict(NameOf(sec), GetOr(sec, "strength_concrete", "Fc21"),
      SrcBeamRcPart(sec).value, SrcBeamSteelPart(sec, cache).value, SrcBeamRebar(sec))
  {
    var rc := SrcBeamRcPart(sec);
    var steel := SrcBeamSteelPart(sec, cache);
    if Present(rc) && Present(steel) then
      Some(ColumnSection.CompositeDict(NameOf(sec), GetOr(sec, "strength_concrete", "Fc21"), rc.value, steel.value, SrcBeamRebar(sec)))
    else None
  }

  /** Without a `strength_concrete` attribute a stored SRC column or beam records Fc21. */
  lemma ConcreteDefaultsToFc21(sec: Element, cache: map<string, Element>, beam: bool)
    requires "strength_concrete" !in sec.attrs
    ensures var r := if beam then SrcBeamSection(sec, cache) else SrcColumnSection(sec, cache);
      r.Some? ==> Has(r.value, "strength_concrete", Str("Fc21")) && Has(r.value, "section_type", Str("SRC_COMPOSITE"))
  {
  }

  // ---------------------------------------------------------------- the extractor

  function SrcColumnPass(cache: map<string, Element>): Element -> Option<Dict>
  {
    sec => SrcColumnSection(sec, cache)
  }

  function SrcBeamPass(cache: map<string, Element>): Element -> Option<Dict>
  {
    sec => SrcBeamSection(sec, cache)
  }

  /** The map `SRCSectionExtractor.extract_sections` returns: the column pass, then the beam pass. */
  function SrcSectionsData(root: Element, cache: map<string, Element>): map<string, Dict>
  {
    match Below(root, "StbSections")
    case None => map[]
    case Some(s) =>
      StoreAll(AllBelow(s, "StbSecBeam_SRC"), SrcBeamPass(cache), StoreAll(AllBelow(s, "StbSecColumn_SRC"), SrcColumnPass(cache), map[]))
  }

  /** An id is stored exactly when some SRC column or beam with that id has both parts. */
  lemma SrcSectionsKeys(root: Element, cache: map<string, Element>, id: string)
    requires Below(root, "StbSections").Some?
    ensures var s := Below(root, "StbSections").value;
      var cols := AllBelow(s, "StbSecColumn_SRC"); var beams := AllBelow(s, "StbSecBeam_SRC");
      id in SrcSectionsData(root, cache) <==>
        (exists i :: 0 <= i < |cols| && StoredBy(cols[i], SrcColumnPass(cache), id))
        || (exists i :: 0 <= i < |beams| && StoredBy(beams[i], SrcBeamPass(cache), id))
  {
    var s := Below(root, "StbSections").value;
    var cols := AllBelow(s, "StbSecColumn_SRC");
    StoreAllKeys(cols, SrcColumnPass(cache), map[], id);
    StoreAllKeys(AllBelow(s, "StbSecBeam_SRC"), SrcBeamPass(cache), StoreAll(cols, SrcColumnPass(cache), map[]), id);
  }

  /** `SRCSectionExtractor.extract_sections`. */
  method ExtractSrcSections(root: Element) returns (data: map<string, Dict>)
    ensures data == SrcSectionsData(root, SteelCache(root))
    ensures Below(root, "StbSections").None? ==> data == map[]
  {
    var cache := BuildSteelSectionCache(root);
    data := map[];
    var sections := Below(root, "StbSections");
    if sections.None? {
      return;
    }
    var s := sections.value;
    data := StorePass(AllBelow(s, "StbSecColumn_SRC"), SrcColumnPass(cache), data);
    data := StorePass(AllBelow(s, "StbSecBeam_SRC"), SrcBeamPass(cache), data);
  }
}
