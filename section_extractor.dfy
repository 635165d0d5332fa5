/**
 * The column and beam section passes (stbParser/section_extractor.py): RC
 * columns, the StbSecSteel shapes by id, S and CFT columns (Same or a
 * BOTTOM/TOP NotSame pair), S beams (Straight, Joint; Haunch skipped) and RC
 * beams, each pass writing into one shared `sections_data` map.
 */
module SectionExtractor {
  import opened Wrappers
  import opened Values
  import Strs
  import opened Xml
  import opened SectionBase

  // ---------------------------------------------------------------- RC columns

  /** The dictionary of an RC column rectangle. */
  function RcColumnRectDict(wx: real, wy: real, name: Value): (p: Dict)
    ensures Has(p, "section_type", Str("RECTANGLE")) && Has(p, "width_x", Num(wx)) && Has(p, "width_y", Num(wy))
    ensures Has(p, "stb_name", name)
  {
    map["section_type" := Str("RECTANGLE"), "width_x" := Num(wx), "width_y" := Num(wy), "stb_name" := name]
  }

  /** `_extract_rc_rect_section`: both widths must be numbers. */
  function RcColumnRect(sec: Element): (r: Option<Dict>)
    ensures var f := Path(sec, "StbSecFigureColumn_RC", "StbSecColumn_RC_Rect");
      r.Some? <==> (f.Some? && Req(f.value, "width_X").Some? && Req(f.value, "width_Y").Some?)
    ensures var f := Path(sec, "StbSecFigureColumn_RC", "StbSecColumn_RC_Rect");
      r.Some? ==> r.value == RcColumnRectDict(Req(f.value, "width_X").value, Req(f.value, "width_Y").value, NameOf(sec))
  {
    match Path(sec, "StbSecFigureColumn_RC", "StbSecColumn_RC_Rect")
    case None => None
    case Some(f) =>
      var wx := Req(f, "width_X");
      var wy := Req(f, "width_Y");
      if wx.None? || wy.None? then None else Some(RcColumnRectDict(wx.value, wy.value, NameOf(sec)))
  }

  /** The dictionary of an RC column circle of diameter `d`: the radius is half of it. */
  function RcColumnCircleDict(d: real, name: Value): (p: Dict)
    ensures Has(p, "section_type", Str("CIRCLE")) && Has(p, "radius", Num(d / 2.0)) && Has(p, "stb_name", name)
  {
    map["section_type" := Str("CIRCLE"), "radius" := Num(d / 2.0), "stb_name" := name]
  }

  /** `_extract_rc_circle_section`: D is the diameter. */
  function RcColumnCircle(sec: Element): (r: Option<Dict>)
    ensures var f := Path(sec, "StbSecFigureColumn_RC", "StbSecColumn_RC_Circle");
      r.Some? <==> (f.Some? && Req(f.value, "D").Some?)
    ensures var f := Path(sec, "StbSecFigureColumn_RC", "StbSecColumn_RC_Circle");
      r.Some? ==> r.value == RcColumnCircleDict(Req(f.value, "D").value, NameOf(sec))
  {
    match Path(sec, "StbSecFigureColumn_RC", "StbSecColumn_RC_Circle")
    case None => None
    case Some(f) =>
      var d := Req(f, "D");
      if d.None? then None else Some(RcColumnCircleDict(d.value, NameOf(sec)))
  }

  /** One RC column: the rectangle when it parses, otherwise the circle. */
  function RcColumnSection(sec: Element): (r: Option<Dict>)
    ensures RcColumnRect(sec).Some? ==> r == RcColumnRect(sec)
    ensures RcColumnRect(sec).None? ==> r == RcColumnCircle(sec)
  {
    if RcColumnRect(sec).Some? then RcColumnRect(sec) else RcColumnCircle(sec)
  }

  // ---------------------------------------------------------------- steel shapes

  /**
   * `_extract_steel_section_dict`: exact local-name tests in a fixed order;
   * LipC is a substring test on the full tag. With `roundBar` false the
   * RoundBar test is missing, as in the CFT NotSame chain.
   */
  function SteelSectionDict(e: Element, roundBar: bool): (r: Option<Dict>)
    ensures r.Some? ==> SteelType(r.value)
    ensures HasName(e, "StbSecRoll-H") ==> r == HSection(e)
    ensures HasName(e, "StbSecBuild-H") ==> r == BuildHSection(e)
  {
    if HasName(e, "StbSecBuild-H") then BuildHSection(e)
    else if HasName(e, "StbSecRoll-H") then HSection(e)
    else if HasName(e, "StbSecPipe") then PipeSection(e)
    else if roundBar && HasName(e, "StbSecRoundBar") then RoundBarSection(e)
    else if HasName(e, "StbSecBuild-BOX") then BuildBoxSection(e)
    else if HasName(e, "StbSecRoll-BOX") then BoxSection(e)
    else if HasName(e, "StbSecRoll-C") then CParams(e)
    else if HasName(e, "StbSecRoll-L") then LParams(e)
    else if Strs.Contains(e.tag, "LipC") then LipCSection(e)
    else None
  }

  /** A shape section labelled with the strength, the section's name and the shape name. */
  function Stamp(d: Dict, strength: Value, name: Value, shape: string): (r: Dict)
    ensures Has(r, "strength_main", strength) && Has(r, "stb_name", name) && Has(r, "stb_shape_name", Str(shape))
    ensures forall k :: k in d && k != "strength_main" && k != "stb_name" && k != "stb_shape_name" ==> Has(r, k, d[k])
  {
    d["strength_main" := strength]["stb_name" := name]["stb_shape_name" := Str(shape)]
  }

  /**
   * A Same, Straight or Joint element: its shape must be non-empty and cached
   * and must parse; the parsed section is then stamped. The element's
   * strength attribute is `strengthAttr` and may be absent.
   */
  function ShapeSection(x: Element, cache: map<string, Element>, name: Value, strengthAttr: string): (r: Option<Dict>)
    ensures r.Some? <==> (HasTruthy(x, "shape") && x.attrs["shape"] in cache
      && SteelSectionDict(cache[x.attrs["shape"]], true).Some?)
    ensures r.Some? ==> (Has(r.value, "stb_shape_name", Str(x.attrs["shape"])) && Has(r.value, "stb_name", name)
      && Has(r.value, "strength_main", OptStr(Get(x, strengthAttr)))
      && Has(r.value, "section_type", SteelSectionDict(cache[x.attrs["shape"]], true).value["section_type"]))
  {
    if !HasTruthy(x, "shape") || x.attrs["shape"] !in cache then None
    else
      match SteelSectionDict(cache[x.attrs["shape"]], true)
      case None => None
      case Some(d) => Some(Stamp(d, OptStr(Get(x, strengthAttr)), name, x.attrs["shape"]))
  }

  // ---------------------------------------------------------------- NotSame pairs

  /** The BOTTOM and TOP sections collected from a column's NotSame elements. */
  datatype Ends = Ends(bottom: Option<Dict>, top: Option<Dict>)

  /**
   * What one NotSame element contributes: its pos and its stamped section,
   * when it has a pos and a shape and the shape is cached and parses.
   */
  function Resolve(ns: Element, cache: map<string, Element>, name: Value, strengthAttr: string, roundBar: bool)
    : (r: Option<(string, Dict)>)
    ensures r.Some? <==> (HasTruthy(ns, "pos") && HasTruthy(ns, "shape") && ns.attrs["shape"] in cache
      && SteelSectionDict(cache[ns.attrs["shape"]], roundBar).Some?)
    ensures r.Some? ==> (r.value.0 == ns.attrs["pos"] && Has(r.value.1, "stb_shape_name", Str(ns.attrs["shape"]))
      && Has(r.value.1, "stb_name", name) && Has(r.value.1, "strength_main", OptStr(Get(ns, strengthAttr))))
  {
    if !HasTruthy(ns, "pos") || !HasTruthy(ns, "shape") || ns.attrs["shape"] !in cache then None
    else
      match SteelSectionDict(cache[ns.attrs["shape"]], roundBar)
      case None => None
      case Some(d) => Some((ns.attrs["pos"], Stamp(d, OptStr(Get(ns, strengthAttr)), name, ns.attrs["shape"])))
  }

  /** The resolved element sits at `pos`. */
  predicate AtPos(r: Option<(string, Dict)>, pos: string)
  {
    r.Some? && r.value.0 == pos
  }

  /** The end a position names. */
  function EndAt(ends: Ends, pos: string): Option<Dict>
    requires pos == "BOTTOM" || pos == "TOP"
  {
    if pos == "BOTTOM" then ends.bottom else ends.top
  }

  /** One resolved element replaces the end its pos names; any other pos changes nothing. */
  function EndsStep(ends: Ends, r: Option<(string, Dict)>): Ends
  {
    match r
    case None => ends
    case Some((pos, d)) =>
      if pos == "BOTTOM" then ends.(bottom := Some(d))
      else if pos == "TOP" then ends.(top := Some(d))
      else ends
  }

  /** The ends after the resolved elements `rs`, visited in order, starting with neither. */
  function FoldEnds(rs: seq<Option<(string, Dict)>>): Ends
  {
    if rs == [] then Ends(None, None) else EndsStep(FoldEnds(rs[..|rs| - 1]), rs[|rs| - 1])
  }

  /** The NotSame elements resolved one by one, in document order. */
  function Resolutions(nss: seq<Element>, cache: map<string, Element>, name: Value, strengthAttr: string, roundBar: bool)
    : (rs: seq<Option<(string, Dict)>>)
    ensures |rs| == |nss|
    ensures forall i :: 0 <= i < |nss| ==> rs[i] == Resolve(nss[i], cache, name, strengthAttr, roundBar)
  {
    if nss == [] then []
    else Resolutions(nss[..|nss| - 1], cache, name, strengthAttr, roundBar) + [Resolve(nss[|nss| - 1], cache, name, strengthAttr, roundBar)]
  }

  /** The ends the NotSame loop leaves behind. */
  function NotSameEnds(nss: seq<Element>, cache: map<string, Element>, name: Value, strengthAttr: string, roundBar: bool): Ends
  {
    FoldEnds(Resolutions(nss, cache, name, strengthAttr, roundBar))
  }

  /**
   * An end is set exactly when some element resolves at its pos, and it then
   * holds the section of the last such element: later ones overwrite.
   */
  lemma FoldEndsLast(rs: seq<Option<(string, Dict)>>, pos: string)
    requires pos == "BOTTOM" || pos == "TOP"
    ensures EndAt(FoldEnds(rs), pos).Some? <==> exists i :: 0 <= i < |rs| && AtPos(rs[i], pos)
    ensures EndAt(FoldEnds(rs), pos).Some? ==>
      exists i :: (0 <= i < |rs| && AtPos(rs[i], pos) && EndAt(FoldEnds(rs), pos).value == rs[i].value.1
        && forall j :: i < j < |rs| ==> !AtPos(rs[j], pos))
  {
    FoldEndsIsLast(rs, pos);
    var i := LastAt(rs, pos);
    if i >= 0 {
      assert AtPos(rs[i], pos);
    }
  }

  /** The index of the last element resolved at `pos`, or -1 when there is none. */
  function LastAt(rs: seq<Option<(string, Dict)>>, pos: string): (i: int)
    ensures -1 <= i < |rs|
    ensures i >= 0 ==> AtPos(rs[i], pos) && forall j :: i < j < |rs| ==> !AtPos(rs[j], pos)
    ensures i < 0 ==> forall j :: 0 <= j < |rs| ==> !AtPos(rs[j], pos)
  {
    if rs == [] then -1
    else if AtPos(rs[|rs| - 1], pos) then |rs| - 1
    else
      var k := LastAt(rs[..|rs| - 1], pos);
      assert forall j :: 0 <= j < |rs| - 1 ==> rs[..|rs| - 1][j] == rs[j];
      k
  }

  /** The end at `pos` is the section of the last element resolved there. */
  lemma {:induction false} FoldEndsIsLast(rs: seq<Option<(string, Dict)>>, pos: string)
    requires pos == "BOTTOM" || pos == "TOP"
    ensures EndAt(FoldEnds(rs), pos) == (if LastAt(rs, pos) >= 0 then Some(rs[LastAt(rs, pos)].value.1) else None)
    decreases |rs|
  {
    if rs != [] {
      var front := rs[..|rs| - 1];
      FoldEndsIsLast(front, pos);
      if !AtPos(rs[|rs| - 1], pos) {
        var k := LastAt(front, pos);
        if k >= 0 {
          assert front[k] == rs[k];
        }
      }
    }
  }


  /** The NotSame loop: each resolving BOTTOM or TOP element replaces that end. */
  method ResolveNotSame(nss: seq<Element>, cache: map<string, Element>, name: Value, strengthAttr: string, roundBar: bool)
    returns (bottom: Option<Dict>, top: Option<Dict>)
    ensures Ends(bottom, top) == NotSameEnds(nss, cache, name, strengthAttr, roundBar)
  {
    bottom, top := None, None;
    var i := 0;
    while i < |nss|
      invariant 0 <= i <= |nss|
      invariant Ends(bottom, top) == NotSameEnds(nss[..i], cache, name, strengthAttr, roundBar)
    {
      var ns := nss[i];
      ghost var before := Resolutions(nss[..i], cache, name, strengthAttr, roundBar);
      assert nss[..i + 1][..i] == nss[..i];
      assert (before + [Resolve(ns, cache, name, strengthAttr, roundBar)])[..i] == before;
      if HasTruthy(ns, "pos") && HasTruthy(ns, "shape") && ns.attrs["shape"] in cache {
        var d := SteelSectionDict(cache[ns.attrs["shape"]], roundBar);
        if d.Some? {
          var stamped := Stamp(d.value, OptStr(Get(ns, strengthAttr)), name, ns.attrs["shape"]);
          if ns.attrs["pos"] == "BOTTOM" {
            bottom := Some(stamped);
          } else if ns.attrs["pos"] == "TOP" {
            top := Some(stamped);
          }
        }
      }
      i := i + 1;
    }
    assert nss[..i] == nss;
  }

  // ---------------------------------------------------------------- S and CFT columns

  /** The dictionary of a tapered column: start at the bottom, end at the top. */
  function TaperDict(kind: string, bottom: Dict, top: Dict, name: Value): (p: Dict)
    ensures Has(p, "section_type", Str(kind)) && Has(p, "start_section", Dict(bottom)) && Has(p, "end_section", Dict(top))
    ensures Has(p, "stb_name", name)
  {
    map["section_type" := Str(kind), "start_section" := Dict(bottom), "end_section" := Dict(top), "stb_name" := name]
  }

  /** `isReferenceDirection`, lower-cased, equals "true" (absent means "false"). */
  predicate IsReferenceDirection(sec: Element)
  {
    Strs.Lower(GetOr(sec, "isReferenceDirection", "false")) == "true"
  }

  /** How the S and CFT column passes differ. */
  datatype ColumnKind = ColumnKind(figure: string, same: string, notSame: string, strengthAttr: string, taper: string,
    notSameRoundBar: bool, referenceDirection: bool)

  const SColumn := ColumnKind("StbSecSteelFigureColumn_S", "StbSecSteelColumn_S_Same", "StbSecSteelColumn_S_NotSame",
    "strength_main", "TAPERED_S", true, true)

  const CftColumn := ColumnKind("StbSecSteelFigureColumn_CFT", "StbSecSteelColumn_CFT_Same", "StbSecSteelColumn_CFT_NotSame",
    "strength", "TAPERED_CFT", false, false)

  /** The Same section of a steel column, with `is_reference_direction` for S columns. */
  function ColumnSame(same: Element, sec: Element, cache: map<string, Element>, k: ColumnKind): (r: Option<Dict>)
    ensures r.Some? <==> ShapeSection(same, cache, NameOf(sec), k.strengthAttr).Some?
    ensures r.Some? && k.referenceDirection ==> Has(r.value, "is_reference_direction", Bool(IsReferenceDirection(sec)))
    ensures r.Some? && !k.referenceDirection ==> r == ShapeSection(same, cache, NameOf(sec), k.strengthAttr)
  {
    match ShapeSection(same, cache, NameOf(sec), k.strengthAttr)
    case None => None
    case Some(d) => Some(if k.referenceDirection then d["is_reference_direction" := Bool(IsReferenceDirection(sec))] else d)
  }

  /** The tapered section of resolved NotSame elements `rs`: both a bottom and a top end must be set. */
  function Taper(rs: seq<Option<(string, Dict)>>, name: Value, k: ColumnKind): Option<Dict>
  {
    var ends := FoldEnds(rs);
    if rs != [] && ends.bottom.Some? && ends.top.Some? then Some(TaperDict(k.taper, ends.bottom.value, ends.top.value, name))
    else None
  }

  /** A column without a Same element: its NotSame elements resolved in order, then tapered. */
  function ColumnNotSame(nss: seq<Element>, cache: map<string, Element>, name: Value, k: ColumnKind): Option<Dict>
  {
    Taper(Resolutions(nss, cache, name, k.strengthAttr, k.notSameRoundBar), name, k)
  }

  /** `_extract_s_column_sections` / `_extract_cft_column_sections` for one section element. */
  function ColumnSteelSection(sec: Element, cache: map<string, Element>, k: ColumnKind): Option<Dict>
  {
    match Below(sec, k.figure)
    case None => None
    case Some(fig) =>
      match Child(fig, k.same)
      case Some(same) => ColumnSame(same, sec, cache, k)
      case None => ColumnNotSame(Children(fig, k.notSame), cache, NameOf(sec), k)
  }

  /**
   * Without a Same element, a column gets a tapered section exactly when a
   * BOTTOM and a TOP NotSame element both resolve; it starts at the last
   * resolving BOTTOM element's section and ends at the last resolving TOP
   * element's section.
   */
  lemma TaperedOnlyWhenBothEndsResolve(rs: seq<Option<(string, Dict)>>, name: Value, k: ColumnKind)
    ensures Taper(rs, name, k).Some? <==>
      ((exists i :: 0 <= i < |rs| && AtPos(rs[i], "BOTTOM")) && (exists i :: 0 <= i < |rs| && AtPos(rs[i], "TOP")))
    ensures Taper(rs, name, k).Some? ==>
      exists b, t :: (0 <= b < |rs| && 0 <= t < |rs| && AtPos(rs[b], "BOTTOM") && AtPos(rs[t], "TOP")
        && (forall j :: b < j < |rs| ==> !AtPos(rs[j], "BOTTOM")) && (forall j :: t < j < |rs| ==> !AtPos(rs[j], "TOP"))
        && Taper(rs, name, k) == Some(TaperDict(k.taper, rs[b].value.1, rs[t].value.1, name)))
  {
    FoldEndsLast(rs, "BOTTOM");
    FoldEndsLast(rs, "TOP");
  }

  /** The section processor of the S column pass. */
  function SColumnProc(cache: map<string, Element>): Element -> Option<Dict>
  {
    sec => ColumnSteelSection(sec, cache, SColumn)
  }

  /** The section processor of the CFT column pass. */
  function CftColumnProc(cache: map<string, Element>): Element -> Option<Dict>
  {
    sec => ColumnSteelSection(sec, cache, CftColumn)
  }

  // ---------------------------------------------------------------- S beams

  /** The first Joint element whose pos is CENTER. */
  function FirstCenter(js: seq<Element>): (r: Option<Element>)
    ensures r.Some? ==> r.value in js && Get(r.value, "pos") == Some("CENTER")
    ensures r.None? <==> forall i :: 0 <= i < |js| ==> Get(js[i], "pos") != Some("CENTER")
  {
    if js == [] then None
    else if Get(js[0], "pos") == Some("CENTER") then Some(js[0])
    else
      var r := FirstCenter(js[1..]);
      assert forall i :: 1 <= i < |js| ==> js[1..][i - 1] == js[i];
      r
  }

  /** The representative Joint element: the CENTER one, otherwise the first. */
  function JointPick(js: seq<Element>): (r: Element)
    requires js != []
    ensures (exists i :: 0 <= i < |js| && Get(js[i], "pos") == Some("CENTER")) ==> Get(r, "pos") == Some("CENTER") && r in js
    ensures (forall i :: 0 <= i < |js| ==> Get(js[i], "pos") != Some("CENTER")) ==> r == js[0]
  {
    match FirstCenter(js)
    case Some(c) => c
    case None => js[0]
  }

  /** `_extract_s_beam_sections` for one section: Straight, else Joint, else nothing (Haunch is skipped). */
  function SBeamSection(sec: Element, cache: map<string, Element>): (r: Option<Dict>)
    ensures r.Some? ==> Below(sec, "StbSecSteelFigureBeam_S").Some?
    ensures (Below(sec, "StbSecSteelFigureBeam_S").Some?
      && Child(Below(sec, "StbSecSteelFigureBeam_S").value, "StbSecSteelBeam_S_Straight").None?
      && Children(Below(sec, "StbSecSteelFigureBeam_S").value, "StbSecSteelBeam_S_Joint") == []) ==> r.None?
    ensures (Below(sec, "StbSecSteelFigureBeam_S").Some?
      && Child(Below(sec, "StbSecSteelFigureBeam_S").value, "StbSecSteelBeam_S_Straight").None?
      && Children(Below(sec, "StbSecSteelFigureBeam_S").value, "StbSecSteelBeam_S_Joint") != []) ==>
      r == ShapeSection(JointPick(Children(Below(sec, "StbSecSteelFigureBeam_S").value, "StbSecSteelBeam_S_Joint")),
        cache, NameOf(sec), "strength_main")
  {
    match Below(sec, "StbSecSteelFigureBeam_S")
    case None => None
    case Some(fig) =>
      match Child(fig, "StbSecSteelBeam_S_Straight")
      case Some(straight) => ShapeSection(straight, cache, NameOf(sec), "strength_main")
      case None =>
        var joints := Children(fig, "StbSecSteelBeam_S_Joint");
        if joints != [] then ShapeSection(JointPick(joints), cache, NameOf(sec), "strength_main") else None
  }

  /** The section processor of the S beam pass. */
  function SBeamProc(cache: map<string, Element>): Element -> Option<Dict>
  {
    sec => SBeamSection(sec, cache)
  }

  // ---------------------------------------------------------------- RC beams

  /** The dictionary of an RC beam rectangle. */
  function RcBeamDict(width: real, height: real, name: Value): (p: Dict)
    ensures Has(p, "section_type", Str("RECTANGLE")) && Has(p, "width", Num(width)) && Has(p, "height", Num(height))
    ensures Has(p, "stb_name", name)
  {
    map["section_type" := Str("RECTANGLE"), "width" := Num(width), "height" := Num(height), "stb_name" := name]
  }

  /**
   * `_extract_rc_beam_rect_section`: a Rect figure decides alone (width,
   * height); only without one is a Straight figure read (width, depth).
   */
  function RcBeamSection(sec: Element): (r: Option<Dict>)
    ensures var rect := Path(sec, "StbSecFigureBeam_RC", "StbSecBeam_RC_Rect");
      rect.Some? ==> (r.Some? <==> Req(rect.value, "width").Some? && Req(rect.value, "height").Some?)
    ensures var rect := Path(sec, "StbSecFigureBeam_RC", "StbSecBeam_RC_Rect");
      rect.Some? && r.Some? ==> r.value == RcBeamDict(Req(rect.value, "width").value, Req(rect.value, "height").value, NameOf(sec))
    ensures var rect := Path(sec, "StbSecFigureBeam_RC", "StbSecBeam_RC_Rect");
      var st := Path(sec, "StbSecFigureBeam_RC", "StbSecBeam_RC_Straight");
      rect.None? ==> (r.Some? <==> st.Some? && Req(st.value, "width").Some? && Req(st.value, "depth").Some?)
    ensures var rect := Path(sec, "StbSecFigureBeam_RC", "StbSecBeam_RC_Rect");
      var st := Path(sec, "StbSecFigureBeam_RC", "StbSecBeam_RC_Straight");
      rect.None? && r.Some? ==> r.value == RcBeamDict(Req(st.value, "width").value, Req(st.value, "depth").value, NameOf(sec))
  {
    match Path(sec, "StbSecFigureBeam_RC", "StbSecBeam_RC_Rect")
    case Some(rect) =>
      var w := Req(rect, "width");
      var h := Req(rect, "height");
      if w.None? || h.None? then None else Some(RcBeamDict(w.value, h.value, NameOf(sec)))
    case None =>
      match Path(sec, "StbSecFigureBeam_RC", "StbSecBeam_RC_Straight")
      case None => None
      case Some(st) =>
        var w := Req(st, "width");
        var d := Req(st, "depth");
        if w.None? || d.None? then None else Some(RcBeamDict(w.value, d.value, NameOf(sec)))
  }

  // ---------------------------------------------------------------- the passes

  /** The shapes of one family under the first StbSecSteel, stored by their own ids. */
  function SteelFamily(steel: Option<Element>, tag: string): seq<Element>
  {
    if steel.None? then [] else Children(steel.value, tag)
  }

  /** `_extract_steel_sections`: Roll-H, Build-H, Roll-BOX, Roll-L and FlatBar shapes by id, in that order. */
  function SteelPasses(sections: Element, acc: map<string, Dict>): map<string, Dict>
  {
    var steel := Below(sections, "StbSecSteel");
    var d1 := StoreAll(SteelFamily(steel, "StbSecRoll-H"), HSection, acc);
    var d2 := StoreAll(SteelFamily(steel, "StbSecBuild-H"), BuildHSection, d1);
    var d3 := StoreAll(SteelFamily(steel, "StbSecRoll-BOX"), BoxSection, d2);
    var d4 := StoreAll(SteelFamily(steel, "StbSecRoll-L"), LParams, d3);
    StoreAll(SteelFamily(steel, "StbSecFlatBar"), FlatBarSection, d4)
  }

  /** The map `extract_sections` returns for a document whose steel cache is `cache`. */
  function SectionsData(root: Element, cache: map<string, Element>): map<string, Dict>
  {
    match Below(root, "StbSections")
    case None => map[]
    case Some(s) =>
      var d1 := StoreAll(AllBelow(s, "StbSecColumn_RC"), RcColumnSection, map[]);
      var d2 := SteelPasses(s, d1);
      var d3 := StoreAll(AllBelow(s, "StbSecColumn_S"), SColumnProc(cache), d2);
      var d4 := StoreAll(AllBelow(s, "StbSecColumn_CFT"), CftColumnProc(cache), d3);
      var d5 := StoreAll(AllBelow(s, "StbSecBeam_S"), SBeamProc(cache), d4);
      StoreAll(AllBelow(s, "StbSecBeam_RC"), RcBeamSection, d5)
  }

  /** `_extract_steel_sections`: five passes over the StbSecSteel children. */
  method ExtractSteelSections(sections: Element, data0: map<string, Dict>) returns (data: map<string, Dict>)
    ensures data == SteelPasses(sections, data0)
  {
    var steel := Below(sections, "StbSecSteel");
    data := StorePass(SteelFamily(steel, "StbSecRoll-H"), HSection, data0);
    data := StorePass(SteelFamily(steel, "StbSecBuild-H"), BuildHSection, data);
    data := StorePass(SteelFamily(steel, "StbSecRoll-BOX"), BoxSection, data);
    data := StorePass(SteelFamily(steel, "StbSecRoll-L"), LParams, data);
    data := StorePass(SteelFamily(steel, "StbSecFlatBar"), FlatBarSection, data);
  }

  /** `SectionExtractor.extract_sections`: the steel cache is built first, then the six passes run in order. */
  method ExtractSections(root: Element) returns (data: map<string, Dict>)
    ensures data == SectionsData(root, SteelCache(root))
    ensures Below(root, "StbSections").None? ==> data == map[]
  {
    var cache := BuildSteelSectionCache(root);
    data := map[];
    var sections := Below(root, "StbSections");
    if sections.None? {
      return;
    }
    var s := sections.value;
    data := StorePass(AllBelow(s, "StbSecColumn_RC"), RcColumnSection, data);
    data := ExtractSteelSections(s, data);
    data := StorePass(AllBelow(s, "StbSecColumn_S"), SColumnProc(cache), data);
    data := StorePass(AllBelow(s, "StbSecColumn_CFT"), CftColumnProc(cache), data);
    data := StorePass(AllBelow(s, "StbSecBeam_S"), SBeamProc(cache), data);
    data := StorePass(AllBelow(s, "StbSecBeam_RC"), RcBeamSection, data);
  }

  /** The RC beam pass runs last: an id it stores ends with its section, whatever the earlier passes wrote. */
  lemma RcBeamPassWins(root: Element, cache: map<string, Element>, s: Element, i: nat, id: string)
    requires Below(root, "StbSections") == Some(s)
    requires var es := AllBelow(s, "StbSecBeam_RC");
      i < |es| && StoredBy(es[i], RcBeamSection, id) && forall j :: i < j < |es| ==> !StoredBy(es[j], RcBeamSection, id)
    ensures id in SectionsData(root, cache) && SectionsData(root, cache)[id] == RcBeamSection(AllBelow(s, "StbSecBeam_RC")[i]).value
  {
    var d1 := StoreAll(AllBelow(s, "StbSecColumn_RC"), RcColumnSection, map[]);
    var d2 := SteelPasses(s, d1);
    var d3 := StoreAll(AllBelow(s, "StbSecColumn_S"), SColumnProc(cache), d2);
    var d4 := StoreAll(AllBelow(s, "StbSecColumn_CFT"), CftColumnProc(cache), d3);
    var d5 := StoreAll(AllBelow(s, "StbSecBeam_S"), SBeamProc(cache), d4);
    StoreAllLast(AllBelow(s, "StbSecBeam_RC"), RcBeamSection, d5, id, i);
  }
}
