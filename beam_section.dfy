/**
 * The beam section extractor (stbParser/beam_section_extractor.py): steel
 * beams as haunch, FiveTypes, joint, taper or straight sections, and RC
 * beams as haunch, taper or straight rectangles. A haunch-like section
 * keeps one part per position, the last element naming a position winning.
 */
module BeamSection {
  import opened Wrappers
  import opened Values
  import Strs
  import opened Xml
  import opened SectionBase
  import SectionExtractor

  /** The `tag.endswith(...)` test of this extractor. */
  predicate TagEnds(e: Element, suffix: string)
  {
    Strs.EndsWith(e.tag, suffix)
  }

  // ---------------------------------------------------------------- steel parts

  /** The shape chain of the haunch and joint loops. */
  function PartSection(e: Element): (r: Option<Dict>)
    ensures TagEnds(e, "StbSecRoll-H") ==> r == HSection(e)
    ensures !TagEnds(e, "StbSecRoll-H") && TagEnds(e, "StbSecBuild-H") ==> r == BuildHSection(e)
  {
    if TagEnds(e, "StbSecRoll-H") then HSection(e)
    else if TagEnds(e, "StbSecBuild-H") then BuildHSection(e)
    else if TagEnds(e, "StbSecRoll-BOX") then BoxSection(e)
    else if TagEnds(e, "StbSecBuild-BOX") then BuildBoxSection(e)
    else if TagEnds(e, "StbSecPipe") then PipeSection(e)
    else if Strs.Contains(e.tag, "FlatBar") then FlatBarSection(e)
    else if TagEnds(e, "StbSecRoll-C") then CSteelSection(e)
    else if TagEnds(e, "StbSecRoll-L") then LParams(e)
    else if TagEnds(e, "StbSecRoundBar") then RoundBarSection(e)
    else if Strs.Contains(e.tag, "LipC") then LipCSection(e)
    else if TagEnds(e, "StbSecFiveTypes") then FiveTypesSection(e)
    else None
  }

  /** The shape chain of the FiveTypes loop: Roll-H and Build-H share one branch that tests Build-H first. */
  function FivePartSection(e: Element): Option<Dict>
  {
    if TagEnds(e, "StbSecRoll-H") || TagEnds(e, "StbSecBuild-H") then
      (if TagEnds(e, "StbSecBuild-H") then BuildHSection(e) else HSection(e))
    else if TagEnds(e, "StbSecRoll-BOX") then BoxSection(e)
    else if TagEnds(e, "StbSecBuild-BOX") then BuildBoxSection(e)
    else if TagEnds(e, "StbSecPipe") then PipeSection(e)
    else if Strs.Contains(e.tag, "FlatBar") then FlatBarSection(e)
    else if TagEnds(e, "StbSecRoll-C") then CSteelSection(e)
    else if TagEnds(e, "StbSecRoll-L") then LParams(e)
    else if TagEnds(e, "StbSecRoundBar") then RoundBarSection(e)
    else if Strs.Contains(e.tag, "LipC") then LipCSection(e)
    else if TagEnds(e, "StbSecFiveTypes") then FiveTypesSection(e)
    else None
  }

  /** No tag ends with both "StbSecRoll-H" and "StbSecBuild-H": they differ three characters from the end. */
  lemma RollAndBuildExclusive(e: Element)
    ensures !(TagEnds(e, "StbSecRoll-H") && TagEnds(e, "StbSecBuild-H"))
  {
    var t := e.tag;
    if TagEnds(e, "StbSecRoll-H") && |t| >= 13 {
      assert t[|t| - 12..][9] == 'l';
      assert t[|t| - 13..][10] != 'd';
    }
  }

  /** The FiveTypes chain picks the same parser as the haunch chain for every shape element. */
  lemma FiveChainIsPartChain(e: Element)
    ensures FivePartSection(e) == PartSection(e)
  {
    RollAndBuildExclusive(e);
  }

  /** The taper loop's chain: a Pipe also carries the profile type and the taper element's strength (SN400B by default). */
  function TaperPartSection(steel: Element, taper: Element): (r: Option<Dict>)
    ensures TagEnds(steel, "StbSecBuild-H") ==> r == BuildHSection(steel)
    ensures (TagEnds(steel, "StbSecPipe") && !TagEnds(steel, "StbSecBuild-H") && !TagEnds(steel, "StbSecRoll-H")
      && !TagEnds(steel, "StbSecRoll-BOX") && !TagEnds(steel, "StbSecBuild-BOX") && !Strs.Contains(steel.tag, "LipC")
      && !TagEnds(steel, "StbSecRoll-C") && !TagEnds(steel, "StbSecRoll-L") && Present(PipeSection(steel))) ==>
      (r.Some? && Has(r.value, "profile_type", Str("IfcCircleHollowProfileDef"))
        && Has(r.value, "material", Str(GetOr(taper, "strength_main", "SN400B"))))
  {
    if TagEnds(steel, "StbSecBuild-H") then BuildHSection(steel)
    else if TagEnds(steel, "StbSecRoll-H") then HSection(steel)
    else if TagEnds(steel, "StbSecRoll-BOX") then BoxSection(steel)
    else if TagEnds(steel, "StbSecBuild-BOX") then BuildBoxSection(steel)
    else if Strs.Contains(steel.tag, "LipC") then LipCSection(steel)
    else if TagEnds(steel, "StbSecRoll-C") then CParams(steel)
    else if TagEnds(steel, "StbSecRoll-L") then LParams(steel)
    else if TagEnds(steel, "StbSecPipe") then
      (var p := PipeSection(steel);
       if Present(p) then
         Some(p.value["profile_type" := Str("IfcCircleHollowProfileDef")]["material" := Str(GetOr(taper, "strength_main", "SN400B"))])
       else p)
    else if TagEnds(steel, "StbSecRoundBar") then RoundBarSection(steel)
    else if TagEnds(steel, "StbSecFlatBar") then FlatBarSection(steel)
    else if TagEnds(steel, "StbSecFiveTypes") then FiveTypesSection(steel)
    else None
  }

  /** The parser a per-position loop applies to the cached shape element, given the loop's own element. */
  type Chain = (Element, Element) -> Option<Dict>

  /** The parser of the haunch and joint loops. */
  function HaunchChain(): Chain
  {
    (steel: Element, x: Element) => PartSection(steel)
  }

  /** The parser of the FiveTypes loop. */
  function FiveChain(): Chain
  {
    (steel: Element, x: Element) => FivePartSection(steel)
  }

  /** The parser of the taper loop. */
  function TaperChain(): Chain
  {
    (steel: Element, x: Element) => TaperPartSection(steel, x)
  }

  /**
   * One element of a per-position loop: `None` when its pos or shape is empty,
   * the shape is not cached or its section is empty; otherwise the position
   * and the section labelled with the shape name and, when `withName`, the
   * beam's name (the taper loop does not add it).
   */
  function ResolvePart(x: Element, cache: map<string, Element>, name: Value, withName: bool, chain: Chain): (r: Option<(string, Dict)>)
    ensures r.Some? <==> (HasTruthy(x, "pos") && HasTruthy(x, "shape") && x.attrs["shape"] in cache
      && Present(chain(cache[x.attrs["shape"]], x)))
    ensures r.Some? ==> (r.value.0 == x.attrs["pos"] && Has(r.value.1, "steel_shape_name", Str(x.attrs["shape"])))
    ensures r.Some? && withName ==> Has(r.value.1, "stb_name", name)
  {
    if !HasTruthy(x, "pos") || !HasTruthy(x, "shape") || x.attrs["shape"] !in cache then None
    else
      var shape := x.attrs["shape"];
      var d := chain(cache[shape], x);
      if !Present(d) then None
      else
        var labelled := d.value["steel_shape_name" := Str(shape)];
        Some((x.attrs["pos"], if withName then labelled["stb_name" := name] else labelled))
  }

  /** The elements of a per-position loop resolved one by one, in document order. */
  function PartResolutions(es: seq<Element>, cache: map<string, Element>, name: Value, withName: bool, chain: Chain)
    : (rs: seq<Option<(string, Dict)>>)
    ensures |rs| == |es|
    ensures forall i :: 0 <= i < |es| ==> rs[i] == ResolvePart(es[i], cache, name, withName, chain)
  {
    if es == [] then []
    else PartResolutions(es[..|es| - 1], cache, name, withName, chain) + [ResolvePart(es[|es| - 1], cache, name, withName, chain)]
  }

  /** `sections[pos] = info` for every resolved element, in order. */
  function PosMap(rs: seq<Option<(string, Dict)>>): map<string, Dict>
  {
    if rs == [] then map[]
    else
      var m := PosMap(rs[..|rs| - 1]);
      match rs[|rs| - 1]
      case None => m
      case Some((pos, d)) => m[pos := d]
  }

  /** A position is kept exactly when some element resolves to it, and it holds the last such element's section. */
  lemma {:induction false} PosMapLast(rs: seq<Option<(string, Dict)>>, pos: string)
    ensures pos in PosMap(rs) <==> exists i :: 0 <= i < |rs| && SectionExtractor.AtPos(rs[i], pos)
    ensures pos in PosMap(rs) ==>
      exists i :: (0 <= i < |rs| && SectionExtractor.AtPos(rs[i], pos) && PosMap(rs)[pos] == rs[i].value.1
        && forall j :: i < j < |rs| ==> !SectionExtractor.AtPos(rs[j], pos))
    decreases |rs|
  {
    if rs != [] {
      var front := rs[..|rs| - 1];
      var last := |rs| - 1;
      PosMapLast(front, pos);
      assert forall j :: 0 <= j < |front| ==> front[j] == rs[j];
      if SectionExtractor.AtPos(rs[last], pos) {
        assert PosMap(rs)[pos] == rs[last].value.1;
      } else {
        assert pos in PosMap(rs) <==> pos in PosMap(front);
        if pos in PosMap(front) {
          assert PosMap(rs)[pos] == PosMap(front)[pos];
          var k :| (0 <= k < |front| && SectionExtractor.AtPos(front[k], pos) && PosMap(front)[pos] == front[k].value.1
            && forall j :: k < j < |front| ==> !SectionExtractor.AtPos(front[j], pos));
          assert SectionExtractor.AtPos(rs[k], pos);
        }
      }
    }
  }

  /** One more element extends the resolutions by its own. */
  lemma PartResolutionsSnoc(es: seq<Element>, cache: map<string, Element>, name: Value, withName: bool, chain: Chain, i: nat)
    requires i < |es|
    ensures PartResolutions(es[..i + 1], cache, name, withName, chain)
      == PartResolutions(es[..i], cache, name, withName, chain) + [ResolvePart(es[i], cache, name, withName, chain)]
  {
    assert es[..i + 1][..i] == es[..i];
  }

  /** One more resolution updates the map at its position, or leaves it alone. */
  lemma PosMapSnoc(rs: seq<Option<(string, Dict)>>, r: Option<(string, Dict)>)
    ensures PosMap(rs + [r]) == if r.Some? then PosMap(rs)[r.value.0 := r.value.1] else PosMap(rs)
  {
    assert (rs + [r])[..|rs|] == rs;
  }

  /** The part map a per-position loop builds. */
  function Parts(es: seq<Element>, cache: map<string, Element>, name: Value, withName: bool, chain: Chain): map<string, Dict>
  {
    PosMap(PartResolutions(es, cache, name, withName, chain))
  }

  /** The part map is non-empty exactly when some element resolves. */
  lemma PartsNonEmpty(es: seq<Element>, cache: map<string, Element>, name: Value, withName: bool, chain: Chain)
    ensures |Parts(es, cache, name, withName, chain)| > 0 <==>
      exists i :: 0 <= i < |es| && ResolvePart(es[i], cache, name, withName, chain).Some?
  {
    var rs := PartResolutions(es, cache, name, withName, chain);
    var m := PosMap(rs);
    if |m| > 0 {
      var p :| p in m;
      PosMapLast(rs, p);
    }
    if exists i :: 0 <= i < |es| && ResolvePart(es[i], cache, name, withName, chain).Some? {
      var i :| 0 <= i < |es| && ResolvePart(es[i], cache, name, withName, chain).Some?;
      PosMapLast(rs, rs[i].value.0);
    }
  }

  /**
   * `_extract_haunch_sections`, `_extract_joint_sections`, the loop of
   * `_extract_five_type_sections` and that of `_extract_taper_sections`
   * (which reads only the START and END entries of this map).
   */
  method CollectParts(es: seq<Element>, cache: map<string, Element>, name: Value, withName: bool, chain: Chain)
    returns (parts: map<string, Dict>)
    ensures parts == Parts(es, cache, name, withName, chain)
  {
    parts := map[];
    var i := 0;
    while i < |es|
      invariant 0 <= i <= |es|
      invariant parts == PosMap(PartResolutions(es[..i], cache, name, withName, chain))
    {
      var r := ResolvePart(es[i], cache, name, withName, chain);
      PartResolutionsSnoc(es, cache, name, withName, chain, i);
      PosMapSnoc(PartResolutions(es[..i], cache, name, withName, chain), r);
      if r.Some? {
        parts := parts[r.value.0 := r.value.1];
      }
      i := i + 1;
    }
    assert es[..i] == es;
  }

  /** The FiveTypes normalisation: a map whose positions are all START, CENTER or END is rebuilt from those keys. */
  function FiveNormalize(m: map<string, Dict>): map<string, Dict>
  {
    if m.Keys <= {"START", "CENTER", "END"} then map p | p in {"START", "CENTER", "END"} && p in m :: m[p]
    else m
  }

  /** Rebuilding changes only the key order of the Python dict: as a map it is the identity. */
  lemma FiveNormalizeIsIdentity(m: map<string, Dict>)
    ensures FiveNormalize(m) == m
  {
    if m.Keys <= {"START", "CENTER", "END"} {
      var n := map p | p in {"START", "CENTER", "END"} && p in m :: m[p];
      assert n.Keys == m.Keys;
    }
  }

  // ---------------------------------------------------------------- steel beams

  /** A haunch-like section: its kind, the part map and the beam's name. */
  function HaunchDict(kind: string, parts: map<string, Dict>, name: Value): (p: Dict)
    ensures Has(p, "section_type", Str(kind)) && Has(p, "stb_name", name)
    ensures Has(p, "haunch_sections", Dict(map k | k in parts :: Dict(parts[k])))
  {
    map["section_type" := Str(kind), "haunch_sections" := Dict(map k | k in parts :: Dict(parts[k])), "stb_name" := name]
  }

  /** A haunch or joint beam: HAUNCH when at least one part resolved. */
  function HaunchSection(es: seq<Element>, cache: map<string, Element>, name: Value, chain: Chain): (r: Option<Dict>)
    ensures r.Some? <==> exists i :: 0 <= i < |es| && ResolvePart(es[i], cache, name, true, chain).Some?
    ensures r.Some? ==> Has(r.value, "section_type", Str("HAUNCH")) && Has(r.value, "stb_name", name)
  {
    var m := Parts(es, cache, name, true, chain);
    PartsNonEmpty(es, cache, name, true, chain);
    if |m| > 0 then Some(HaunchDict("HAUNCH", m, name)) else None
  }

  /** The section type of a FiveTypes beam with part map `m`. */
  function FiveKind(m: map<string, Dict>): string
  {
    if "HAUNCH_S" in m || "HAUNCH_E" in m then "HAUNCH_FIVE" else "HAUNCH"
  }

  /** A FiveTypes beam: a haunch-like section when at least one part resolved. */
  function FiveSection(es: seq<Element>, cache: map<string, Element>, name: Value, chain: Chain): (r: Option<Dict>)
    ensures r.Some? <==> exists i :: 0 <= i < |es| && ResolvePart(es[i], cache, name, true, chain).Some?
    ensures r.Some? ==> (Has(r.value, "stb_name", name)
      && Has(r.value, "section_type", Str(FiveKind(Parts(es, cache, name, true, chain)))))
  {
    var m := FiveNormalize(Parts(es, cache, name, true, chain));
    FiveNormalizeIsIdentity(Parts(es, cache, name, true, chain));
    PartsNonEmpty(es, cache, name, true, chain);
    if |m| == 0 then None else Some(HaunchDict(FiveKind(m), m, name))
  }

  /** A FiveTypes beam is HAUNCH_FIVE exactly when some part sits at HAUNCH_S or HAUNCH_E, and HAUNCH otherwise. */
  lemma FiveKindIff(es: seq<Element>, cache: map<string, Element>, name: Value, chain: Chain)
    ensures var rs := PartResolutions(es, cache, name, true, chain);
      FiveKind(Parts(es, cache, name, true, chain)) == "HAUNCH_FIVE" <==>
        exists i :: 0 <= i < |rs| && (SectionExtractor.AtPos(rs[i], "HAUNCH_S") || SectionExtractor.AtPos(rs[i], "HAUNCH_E"))
  {
    var rs := PartResolutions(es, cache, name, true, chain);
    PosMapLast(rs, "HAUNCH_S");
    PosMapLast(rs, "HAUNCH_E");
  }

  /** `_extract_taper_sections`: TAPERED_S from the last START and the last END sections, both required. */
  function TaperSection(es: seq<Element>, cache: map<string, Element>, name: Value, chain: Chain): (r: Option<Dict>)
  {
    var m := Parts(es, cache, name, false, chain);
    if "START" in m && "END" in m then Some(SectionExtractor.TaperDict("TAPERED_S", m["START"], m["END"], name))
    else None
  }

  /** A steel taper needs a resolving START and a resolving END; each end is the last element at its position. */
  lemma TaperNeedsBothEnds(es: seq<Element>, cache: map<string, Element>, name: Value, chain: Chain)
    ensures var rs := PartResolutions(es, cache, name, false, chain);
      TaperSection(es, cache, name, chain).Some? <==>
        (exists i :: 0 <= i < |rs| && SectionExtractor.AtPos(rs[i], "START")) && (exists i :: 0 <= i < |rs| && SectionExtractor.AtPos(rs[i], "END"))
    ensures TaperSection(es, cache, name, chain).Some? ==>
      Has(TaperSection(es, cache, name, chain).value, "section_type", Str("TAPERED_S"))
  {
    var rs := PartResolutions(es, cache, name, false, chain);
    PosMapLast(rs, "START");
    PosMapLast(rs, "END");
  }

  /**
   * The straight beam, given what `find_straight_steel_element` found: the
   * shape's parameters labelled with its shape name and the beam's name; a
   * truthy strength_main becomes the material.
   */
  function StraightSection(ref: Option<SteelRef>, name: Value): (r: Option<Dict>)
    ensures r.Some? <==> ref.Some? && Present(ShapeParams(ref.value.steel))
    ensures r.Some? ==> (Has(r.value, "stb_name", name) && Has(r.value, "steel_shape_name", Str(ref.value.shapeName))
      && SteelType(r.value))
    ensures r.Some? && ref.value.strengthMain.Some? && ref.value.strengthMain.value != "" ==>
      Has(r.value, "material", Str(ref.value.strengthMain.value))
  {
    if ref.None? then None
    else
      var p := ShapeParams(ref.value.steel);
      if !Present(p) then None
      else Some(StampStraight(p.value, ref.value.shapeName, name, ref.value.strengthMain))
  }

  /** The labels of a straight beam; the section type of the parameters is kept. */
  function StampStraight(d: Dict, shape: string, name: Value, strength: Option<string>): (p: Dict)
    ensures Has(p, "stb_name", name) && Has(p, "steel_shape_name", Str(shape))
    ensures SteelType(d) ==> SteelType(p)
    ensures strength.Some? && strength.value != "" ==> Has(p, "material", Str(strength.value))
    ensures (strength.None? || strength.value == "") ==> p == d["steel_shape_name" := Str(shape)]["stb_name" := name]
  {
    var labelled := d["steel_shape_name" := Str(shape)]["stb_name" := name];
    match strength
    case Some(s) => if s != "" then labelled["material" := Str(s)] else labelled
    case None => labelled
  }

  /** The lookup of the straight figure's shape. */
  function StraightRef(sec: Element, cache: map<string, Element>): Option<SteelRef>
  {
    FindSteel(Path(sec, "StbSecSteelFigureBeam_S", "StbSecSteelBeam_S_Straight"), cache)
  }

  /** Which figure decides a steel beam: haunch, then FiveTypes, then joint, then taper, then straight. */
  datatype SteelFigure = HaunchFigure(es: seq<Element>) | FiveFigure(es: seq<Element>)
    | JointFigure(es: seq<Element>) | TaperFigure(es: seq<Element>) | StraightFigure

  function FigureElements(sec: Element, child: string): seq<Element>
  {
    AllPath(sec, "StbSecSteelFigureBeam_S", child)
  }

  /** The figure the if/elif chain of the steel pass picks. */
  function SteelFigureOf(sec: Element): (f: SteelFigure)
    ensures f.HaunchFigure? <==> FigureElements(sec, "StbSecSteelBeam_S_Haunch") != []
    ensures f.FiveFigure? ==> FigureElements(sec, "StbSecSteelBeam_S_Haunch") == []
    ensures f.JointFigure? ==> FigureElements(sec, "StbSecSteelBeam_S_Haunch") == [] && FigureElements(sec, "StbSecSteelBeam_S_FiveTypes") == []
    ensures f.TaperFigure? ==> (FigureElements(sec, "StbSecSteelBeam_S_Haunch") == [] && FigureElements(sec, "StbSecSteelBeam_S_FiveTypes") == []
      && FigureElements(sec, "StbSecSteelBeam_S_Joint") == [])
    ensures f.StraightFigure? <==> (FigureElements(sec, "StbSecSteelBeam_S_Haunch") == [] && FigureElements(sec, "StbSecSteelBeam_S_FiveTypes") == []
      && FigureElements(sec, "StbSecSteelBeam_S_Joint") == [] && FigureElements(sec, "StbSecSteelBeam_S_Taper") == [])
    ensures !f.StraightFigure? ==> f.es != []
  {
    var haunch := FigureElements(sec, "StbSecSteelBeam_S_Haunch");
    var five := FigureElements(sec, "StbSecSteelBeam_S_FiveTypes");
    var joint := FigureElements(sec, "StbSecSteelBeam_S_Joint");
    var taper := FigureElements(sec, "StbSecSteelBeam_S_Taper");
    if haunch != [] then HaunchFigure(haunch)
    else if five != [] then FiveFigure(five)
    else if joint != [] then JointFigure(joint)
    else if taper != [] then TaperFigure(taper)
    else StraightFigure
  }

  /** The section of a steel beam whose figure is `fig`; `ref` is the straight lookup, read only for a straight figure. */
  function FigureSection(fig: SteelFigure, ref: Option<SteelRef>, cache: map<string, Element>, name: Value): (r: Option<Dict>)
    ensures r.Some? ==> Has(r.value, "stb_name", name)
  {
    match fig
    case HaunchFigure(es) => HaunchSection(es, cache, name, HaunchChain())
    case FiveFigure(es) => FiveSection(es, cache, name, FiveChain())
    case JointFigure(es) => HaunchSection(es, cache, name, HaunchChain())
    case TaperFigure(es) => TaperSection(es, cache, name, TaperChain())
    case StraightFigure => StraightSection(ref, name)
  }

  /** The section the steel pass stores for one StbSecBeam_S (ids are checked by the pass). */
  function SteelBeamSection(sec: Element, cache: map<string, Element>): (r: Option<Dict>)
    ensures r.Some? ==> Has(r.value, "stb_name", NameOf(sec))
  {
    FigureSection(SteelFigureOf(sec), StraightRef(sec, cache), cache, NameOf(sec))
  }

  /** A beam with haunch elements is a haunch beam or nothing, whatever other figures it also has. */
  lemma HaunchFigureDecides(sec: Element, cache: map<string, Element>)
    requires FigureElements(sec, "StbSecSteelBeam_S_Haunch") != []
    ensures SteelBeamSection(sec, cache).Some? ==> Has(SteelBeamSection(sec, cache).value, "section_type", Str("HAUNCH"))
    ensures SteelBeamSection(sec, cache).Some? <==>
      exists i :: (0 <= i < |FigureElements(sec, "StbSecSteelBeam_S_Haunch")|
        && ResolvePart(FigureElements(sec, "StbSecSteelBeam_S_Haunch")[i], cache, NameOf(sec), true, HaunchChain()).Some?)
  {
  }

  /** A steel beam with taper elements and no haunch, FiveTypes or joint elements is TAPERED_S or nothing; it never falls back to straight. */
  lemma TaperFigureNeverStraight(sec: Element, cache: map<string, Element>)
    requires SteelFigureOf(sec).TaperFigure?
    ensures SteelBeamSection(sec, cache) == TaperSection(FigureElements(sec, "StbSecSteelBeam_S_Taper"), cache, NameOf(sec), TaperChain())
    ensures SteelBeamSection(sec, cache).Some? ==> Has(SteelBeamSection(sec, cache).value, "section_type", Str("TAPERED_S"))
  {
    TaperNeedsBothEnds(FigureElements(sec, "StbSecSteelBeam_S_Taper"), cache, NameOf(sec), TaperChain());
  }

  /** The section processor of the steel pass. */
  function SteelBeamProc(cache: map<string, Element>): Element -> Option<Dict>
  {
    sec => SteelBeamSection(sec, cache)
  }

  /** The haunch and joint branches: the loop, then HAUNCH when it kept a part. */
  method ExtractHaunch(es: seq<Element>, cache: map<string, Element>, name: Value, chain: Chain) returns (r: Option<Dict>)
    ensures r == HaunchSection(es, cache, name, chain)
  {
    var m := CollectParts(es, cache, name, true, chain);
    r := if |m| > 0 then Some(HaunchDict("HAUNCH", m, name)) else None;
  }

  /** `_extract_five_type_sections` and its branch. */
  method ExtractFive(es: seq<Element>, cache: map<string, Element>, name: Value, chain: Chain) returns (r: Option<Dict>)
    ensures r == FiveSection(es, cache, name, chain)
  {
    var m := CollectParts(es, cache, name, true, chain);
    m := FiveNormalize(m);
    r := if |m| == 0 then None
      else Some(HaunchDict(FiveKind(m), m, name));
  }

  /** `_extract_taper_sections`: the loop keeps the last START and the last END. */
  method ExtractTaper(es: seq<Element>, cache: map<string, Element>, name: Value, chain: Chain) returns (r: Option<Dict>)
    ensures r == TaperSection(es, cache, name, chain)
  {
    var m := CollectParts(es, cache, name, false, chain);
    r := if "START" in m && "END" in m then Some(SectionExtractor.TaperDict("TAPERED_S", m["START"], m["END"], name)) else None;
  }

  /** The if/elif chain of `_extract_steel_beam_sections` once the figure is known. */
  method ExtractFigure(fig: SteelFigure, ref: Option<SteelRef>, cache: map<string, Element>, name: Value) returns (r: Option<Dict>)
    ensures r == FigureSection(fig, ref, cache, name)
  {
    match fig
    case HaunchFigure(es) => r := ExtractHaunch(es, cache, name, HaunchChain());
    case FiveFigure(es) => r := ExtractFive(es, cache, name, FiveChain());
    case JointFigure(es) => r := ExtractHaunch(es, cache, name, HaunchChain());
    case TaperFigure(es) => r := ExtractTaper(es, cache, name, TaperChain());
    case StraightFigure => r := StraightSection(ref, name);
  }

  /** The per-beam body of `_extract_steel_beam_sections`. */
  method ExtractSteelBeam(sec: Element, cache: map<string, Element>) returns (r: Option<Dict>)
    ensures r == SteelBeamSection(sec, cache)
  {
    r := ExtractFigure(SteelFigureOf(sec), StraightRef(sec, cache), cache, NameOf(sec));
  }

  // ---------------------------------------------------------------- RC beams

  /** The rectangle every RC beam part is. */
  function RcRect(width: real, height: real, name: Value): (p: Dict)
    ensures Has(p, "section_type", Str("RECTANGLE")) && Has(p, "width", Num(width)) && Has(p, "height", Num(height))
    ensures Has(p, "stb_name", name) && Has(p, "material_type", Str("RC")) && Has(p, "stb_structure_type", Str("RC"))
    ensures "strength_concrete" !in p
  {
    map["section_type" := Str("RECTANGLE"), "width" := Num(width), "height" := Num(height), "stb_name" := name,
      "material_type" := Str("RC"), "stb_structure_type" := Str("RC")]
  }

  /**
   * One RC haunch or taper element: skipped when pos, width or depth is
   * empty; otherwise `float(width)` and `float(depth)` are not guarded, so an
   * unparsable value is a ValueError that leaves the whole extraction.
   */
  function RcPart(x: Element, name: Value): (r: Result<Option<(string, Dict)>>)
    ensures r.Err? <==> (HasTruthy(x, "pos") && HasTruthy(x, "width") && HasTruthy(x, "depth")
      && (Strs.ParseFloat(x.attrs["width"]).None? || Strs.ParseFloat(x.attrs["depth"]).None?))
    ensures r.Ok? && r.value.Some? ==> (HasTruthy(x, "pos") && HasTruthy(x, "width") && HasTruthy(x, "depth")
      && Strs.ParseFloat(x.attrs["width"]).Some? && Strs.ParseFloat(x.attrs["depth"]).Some?
      && r.value.value == (x.attrs["pos"], RcRect(Strs.ParseFloat(x.attrs["width"]).value, Strs.ParseFloat(x.attrs["depth"]).value, name)))
    ensures r.Ok? && r.value.None? <==> !(HasTruthy(x, "pos") && HasTruthy(x, "width") && HasTruthy(x, "depth"))
  {
    if !HasTruthy(x, "pos") || !HasTruthy(x, "width") || !HasTruthy(x, "depth") then Ok(None)
    else match Strs.ParseFloat(x.attrs["width"])
      case None => Err(ValueError(x.attrs["width"]))
      case Some(w) =>
        match Strs.ParseFloat(x.attrs["depth"])
        case None => Err(ValueError(x.attrs["depth"]))
        case Some(h) => Ok(Some((x.attrs["pos"], RcRect(w, h, name))))
  }

  /** The RC elements resolved one by one, in document order. */
  function RcResolutions(es: seq<Element>, name: Value): (rs: seq<Result<Option<(string, Dict)>>>)
    ensures |rs| == |es|
    ensures forall i :: 0 <= i < |es| ==> rs[i] == RcPart(es[i], name)
  {
    if es == [] then [] else RcResolutions(es[..|es| - 1], name) + [RcPart(es[|es| - 1], name)]
  }

  /** `rc_sections[pos] = info` for every complete element, stopping at the first error. */
  function RcFold(rs: seq<Result<Option<(string, Dict)>>>): Result<map<string, Dict>>
  {
    if rs == [] then Ok(map[])
    else match RcFold(rs[..|rs| - 1])
      case Err(e) => Err(e)
      case Ok(m) =>
        match rs[|rs| - 1]
        case Err(e) => Err(e)
        case Ok(None) => Ok(m)
        case Ok(Some((pos, d))) => Ok(m[pos := d])
  }

  /** The RC part map, or the error of the first element that raises. */
  function RcParts(es: seq<Element>, name: Value): Result<map<string, Dict>>
  {
    RcFold(RcResolutions(es, name))
  }

  /** The fold succeeds exactly when no element raised. */
  lemma {:induction false} RcFoldOk(rs: seq<Result<Option<(string, Dict)>>>)
    ensures RcFold(rs).Ok? <==> forall i :: 0 <= i < |rs| ==> rs[i].Ok?
    decreases |rs|
  {
    if rs != [] {
      var front := rs[..|rs| - 1];
      RcFoldOk(front);
      assert forall j :: 0 <= j < |front| ==> front[j] == rs[j];
    }
  }

  /** After a successful fold, a position is kept exactly when some element resolved to it. */
  lemma {:induction false} RcFoldKeys(rs: seq<Result<Option<(string, Dict)>>>, pos: string)
    requires RcFold(rs).Ok?
    ensures pos in RcFold(rs).value <==> exists i :: 0 <= i < |rs| && rs[i].Ok? && SectionExtractor.AtPos(rs[i].value, pos)
    decreases |rs|
  {
    if rs != [] {
      var front := rs[..|rs| - 1];
      var last := |rs| - 1;
      RcFoldKeys(front, pos);
      assert forall j :: 0 <= j < |front| ==> front[j] == rs[j];
      if exists i :: 0 <= i < |rs| && rs[i].Ok? && SectionExtractor.AtPos(rs[i].value, pos) {
        var k :| 0 <= k < |rs| && rs[k].Ok? && SectionExtractor.AtPos(rs[k].value, pos);
        if k < last {
          assert front[k].Ok? && SectionExtractor.AtPos(front[k].value, pos);
        }
      }
    }
  }

  /** The RC loops succeed exactly when no complete element has an unparsable width or depth. */
  lemma RcPartsOk(es: seq<Element>, name: Value)
    ensures RcParts(es, name).Ok? <==> forall i :: 0 <= i < |es| ==> RcPart(es[i], name).Ok?
  {
    RcFoldOk(RcResolutions(es, name));
  }

  /** When the RC loop succeeds, a position is kept exactly when some complete element names it. */
  lemma RcPartsKeys(es: seq<Element>, name: Value, pos: string)
    requires RcParts(es, name).Ok?
    ensures pos in RcParts(es, name).value <==>
      exists i :: 0 <= i < |es| && RcPart(es[i], name).Ok? && SectionExtractor.AtPos(RcPart(es[i], name).value, pos)
  {
    RcFoldKeys(RcResolutions(es, name), pos);
  }

  /** The RC haunch section. */
  function RcHaunchDict(parts: map<string, Dict>, name: Value): (p: Dict)
    ensures Has(p, "section_type", Str("HAUNCH")) && Has(p, "stb_name", name)
    ensures Has(p, "material_type", Str("RC")) && Has(p, "stb_structure_type", Str("RC"))
  {
    HaunchDict("HAUNCH", parts, name)["material_type" := Str("RC")]["stb_structure_type" := Str("RC")]
  }

  /** The RC taper section. */
  function RcTaperDict(start: Dict, end: Dict, name: Value): (p: Dict)
    ensures Has(p, "section_type", Str("TAPERED_RC")) && Has(p, "start_section", Dict(start)) && Has(p, "end_section", Dict(end))
    ensures Has(p, "stb_name", name) && Has(p, "material_type", Str("RC")) && Has(p, "stb_structure_type", Str("RC"))
  {
    SectionExtractor.TaperDict("TAPERED_RC", start, end, name)["material_type" := Str("RC")]["stb_structure_type" := Str("RC")]
  }

  /** `_extract_rc_beam_section_info`: widths that are empty or unparsable give nothing; a truthy strength is copied. */
  function RcStraight(fig: Element, name: Value, strength: Option<string>): (r: Option<Dict>)
    ensures r.Some? <==> (HasTruthy(fig, "width") && HasTruthy(fig, "depth")
      && Req(fig, "width").Some? && Req(fig, "depth").Some?)
    ensures r.Some? ==> (Has(r.value, "section_type", Str("RECTANGLE")) && Has(r.value, "width", Num(Req(fig, "width").value))
      && Has(r.value, "height", Num(Req(fig, "depth").value)) && Has(r.value, "stb_name", name))
    ensures r.Some? ==> ("strength_concrete" in r.value <==> strength.Some? && strength.value != "")
    ensures r.Some? && strength.Some? && strength.value != "" ==> Has(r.value, "strength_concrete", Str(strength.value))
  {
    if !HasTruthy(fig, "width") || !HasTruthy(fig, "depth") then None
    else match (Req(fig, "width"), Req(fig, "depth"))
      case (Some(w), Some(h)) =>
        var d := RcRect(w, h, name);
        (match strength
         case Some(s) => Some(if s != "" then d["strength_concrete" := Str(s)] else d)
         case None => Some(d))
      case _ => None
  }

  function RcFigureElements(sec: Element, child: string): seq<Element>
  {
    AllPath(sec, "StbSecFigureBeam_RC", child)
  }

  /** What follows an RC haunch that stored nothing: a taper (complete or nothing), else the straight figure. */
  function RcAfterHaunch(sec: Element, name: Value): (r: Result<Option<Dict>>)
    ensures r.Ok? && r.value.Some? ==> Has(r.value.value, "stb_name", name)
  {
    var taper := RcFigureElements(sec, "StbSecBeam_RC_Taper");
    if taper != [] then
      match RcParts(taper, name)
      case Err(e) => Err(e)
      case Ok(m) => Ok(if "START" in m && "END" in m then Some(RcTaperDict(m["START"], m["END"], name)) else None)
    else
      match Path(sec, "StbSecFigureBeam_RC", "StbSecBeam_RC_Straight")
      case None => Ok(None)
      case Some(fig) => Ok(RcStraight(fig, name, Get(sec, "strength_concrete")))
  }

  /** The per-beam body of `_extract_rc_beam_sections`: a haunch that resolves wins, else taper, else straight. */
  function RcBeamSection(sec: Element): (r: Result<Option<Dict>>)
    ensures r.Ok? && r.value.Some? ==> Has(r.value.value, "stb_name", NameOf(sec))
  {
    var name := NameOf(sec);
    var haunch := RcFigureElements(sec, "StbSecBeam_RC_Haunch");
    if haunch != [] then
      match RcParts(haunch, name)
      case Err(e) => Err(e)
      case Ok(m) => if |m| > 0 then Ok(Some(RcHaunchDict(m, name))) else RcAfterHaunch(sec, name)
    else RcAfterHaunch(sec, name)
  }

  /**
   * An RC beam with taper elements and no resolving haunch never falls back
   * to its straight figure: without a complete START and END it stores
   * nothing, and with them it is TAPERED_RC.
   */
  lemma IncompleteRcTaperStoresNothing(sec: Element)
    requires RcFigureElements(sec, "StbSecBeam_RC_Haunch") == []
    requires RcFigureElements(sec, "StbSecBeam_RC_Taper") != []
    requires RcParts(RcFigureElements(sec, "StbSecBeam_RC_Taper"), NameOf(sec)).Ok?
    ensures var taper := RcFigureElements(sec, "StbSecBeam_RC_Taper");
      (RcBeamSection(sec) == Ok(None)) <==>
        !((exists i :: 0 <= i < |taper| && RcPart(taper[i], NameOf(sec)).Ok? && SectionExtractor.AtPos(RcPart(taper[i], NameOf(sec)).value, "START"))
          && (exists i :: 0 <= i < |taper| && RcPart(taper[i], NameOf(sec)).Ok? && SectionExtractor.AtPos(RcPart(taper[i], NameOf(sec)).value, "END")))
    ensures RcBeamSection(sec).value.Some? ==> Has(RcBeamSection(sec).value.value, "section_type", Str("TAPERED_RC"))
  {
    var taper := RcFigureElements(sec, "StbSecBeam_RC_Taper");
    RcPartsKeys(taper, NameOf(sec), "START");
    RcPartsKeys(taper, NameOf(sec), "END");
  }

  /** A complete RC haunch element with an unparsable width or depth aborts the extraction. */
  lemma UnparsableRcHaunchRaises(sec: Element, i: nat)
    requires var haunch := RcFigureElements(sec, "StbSecBeam_RC_Haunch");
      i < |haunch| && RcPart(haunch[i], NameOf(sec)).Err?
    ensures RcBeamSection(sec).Err?
  {
    RcPartsOk(RcFigureElements(sec, "StbSecBeam_RC_Haunch"), NameOf(sec));
  }

  /** The RC pass over the StbSecBeam_RC elements, stopping at the first error. */
  function RcPass(es: seq<Element>, acc: map<string, Dict>): Result<map<string, Dict>>
  {
    if es == [] then Ok(acc)
    else match RcPass(es[..|es| - 1], acc)
      case Err(e) => Err(e)
      case Ok(m) =>
        var sec := es[|es| - 1];
        if !HasTruthy(sec, "id") then Ok(m)
        else match RcBeamSection(sec)
          case Err(e) => Err(e)
          case Ok(None) => Ok(m)
          case Ok(Some(d)) => Ok(m[sec.attrs["id"] := d])
  }

  /** Once a prefix of the pass has raised, the whole pass raises the same error. */
  lemma {:induction false} RcPassErrorSticks(es: seq<Element>, acc: map<string, Dict>, k: nat)
    requires k <= |es| && RcPass(es[..k], acc).Err?
    ensures RcPass(es, acc) == RcPass(es[..k], acc)
    decreases |es|
  {
    if k < |es| {
      var front := es[..|es| - 1];
      assert front[..k] == es[..k];
      RcPassErrorSticks(front, acc, k);
    } else {
      assert es[..k] == es;
    }
  }

  /** A section with an empty or missing id never raises and never stores. */
  lemma IdLessRcBeamSkipped(es: seq<Element>, acc: map<string, Dict>, sec: Element)
    requires !HasTruthy(sec, "id")
    ensures RcPass(es + [sec], acc) == RcPass(es, acc)
  {
    assert (es + [sec])[..|es|] == es;
  }

  /** `_extract_rc_beam_sections`: an error raised by any beam leaves the pass. */
  method ExtractRcBeams(es: seq<Element>, acc: map<string, Dict>) returns (r: Result<map<string, Dict>>)
    ensures r == RcPass(es, acc)
  {
    var data := acc;
    var i := 0;
    while i < |es|
      invariant 0 <= i <= |es|
      invariant RcPass(es[..i], acc) == Ok(data)
    {
      var sec := es[i];
      assert es[..i + 1][..i] == es[..i];
      if HasTruthy(sec, "id") {
        var info := RcBeamSection(sec);
        if info.Err? {
          RcPassErrorSticks(es, acc, i + 1);
          return Err(info.error);
        }
        if info.value.Some? {
          data := data[sec.attrs["id"] := info.value.value];
        }
      }
      i := i + 1;
    }
    assert es[..i] == es;
    r := Ok(data);
  }

  // ---------------------------------------------------------------- the extractor

  /** `extract_sections`: the steel pass, then the RC pass; no StbSections gives an empty map. */
  function BeamSectionsData(root: Element, cache: map<string, Element>): Result<map<string, Dict>>
  {
    match Below(root, "StbSections")
    case None => Ok(map[])
    case Some(s) => RcPass(AllBelow(s, "StbSecBeam_RC"), StoreAll(AllBelow(s, "StbSecBeam_S"), SteelBeamProc(cache), map[]))
  }

  method ExtractBeamSections(root: Element) returns (r: Result<map<string, Dict>>)
    ensures r == BeamSectionsData(root, SteelCache(root))
    ensures Below(root, "StbSections").None? ==> r == Ok(map[])
  {
    var cache := BuildSteelSectionCache(root);
    var sections := Below(root, "StbSections");
    if sections.None? {
      return Ok(map[]);
    }
    var s := sections.value;
    var data := StorePass(AllBelow(s, "StbSecBeam_S"), SteelBeamProc(cache), map[]);
    r := ExtractRcBeams(AllBelow(s, "StbSecBeam_RC"), data);
  }

  /** A steel beam stored by the steel pass survives the RC pass unless an RC beam stores under the same id or the pass raises. */
  lemma {:induction false} RcPassKeepsOthers(es: seq<Element>, acc: map<string, Dict>, id: string)
    requires id in acc
    requires forall i :: 0 <= i < |es| ==> !(HasTruthy(es[i], "id") && es[i].attrs["id"] == id)
    ensures RcPass(es, acc).Ok? ==> id in RcPass(es, acc).value && RcPass(es, acc).value[id] == acc[id]
    decreases |es|
  {
    if es != [] {
      var front := es[..|es| - 1];
      assert forall j :: 0 <= j < |front| ==> front[j] == es[j];
      RcPassKeepsOthers(front, acc, id);
    }
  }
}
