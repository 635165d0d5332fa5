/**
 * The shared Same/NotSame pattern processor, the RC shape processor and the
 * steel shape dispatcher (stbParser/unified_section_processor.py).
 */
module UnifiedSection {
  import opened Wrappers
  import opened Values
  import Strs
  import opened Xml
  import opened SectionBase

  /** A per-shape callback: the cached steel element and the Same/NotSame element give a section. */
  type ShapeProc = (Element, Element) -> Option<Dict>

  const SamePatterns: seq<string> := [
    "StbSecSteelColumn_S_Same", "StbSecSteelColumn_CFT_Same", "StbSecSteelColumn_SRC_Same",
    "StbSecSteelBeam_S_Same", "StbSecSteelBrace_S_Same", "StbSecSteelGirder_S_Same"]

  const NotSamePatterns: seq<string> := [
    "StbSecSteelColumn_S_NotSame", "StbSecSteelColumn_CFT_NotSame", "StbSecSteelColumn_SRC_NotSame",
    "StbSecSteelBeam_S_NotSame", "StbSecSteelBrace_S_NotSame", "StbSecSteelGirder_S_NotSame"]

  /** `_find_same_element`: the first child matching the first pattern that matches at all. */
  function FindSame(fig: Element, patterns: seq<string>): (r: Option<Element>)
    ensures r.Some? ==> exists i :: 0 <= i < |patterns| && Child(fig, patterns[i]) == r
    ensures r.None? <==> forall i :: 0 <= i < |patterns| ==> Child(fig, patterns[i]).None?
  {
    if patterns == [] then None
    else match Child(fig, patterns[0])
      case Some(e) => Some(e)
      case None =>
        var rest := FindSame(fig, patterns[1..]);
        assert forall i :: 1 <= i < |patterns| ==> patterns[1..][i - 1] == patterns[i];
        rest
  }

  /** `_find_notsame_elements`: the children matching each pattern, pattern by pattern. */
  function FindNotSame(fig: Element, patterns: seq<string>): (r: seq<Element>)
    ensures forall x :: x in r ==> x in fig.children
  {
    if patterns == [] then []
    else Children(fig, patterns[0]) + FindNotSame(fig, patterns[1..])
  }

  /** `context_info.get("sec_name")` when truthy. */
  function SecName(ctx: Dict): Option<Value>
  {
    if "sec_name" in ctx && Truthy(ctx["sec_name"]) then Some(ctx["sec_name"]) else None
  }

  /** What `_process_same_element` adds to a truthy section: strength when given, the context name. */
  function Decorate(d: Dict, strength: Option<string>, ctx: Dict): (r: Dict)
    ensures r.Keys >= d.Keys
    ensures strength.Some? && strength.value != "" ==> Has(r, "strength_main", Str(strength.value))
    ensures SecName(ctx).Some? ==> Has(r, "stb_name", SecName(ctx).value)
    ensures forall k :: k in d && k != "strength_main" && k != "stb_name" ==> r[k] == d[k]
  {
    var d1 := if strength.Some? && strength.value != "" then d["strength_main" := Str(strength.value)] else d;
    if SecName(ctx).Some? then d1["stb_name" := SecName(ctx).value] else d1
  }

  /** `_process_same_element`: `None` when the shape is empty or not cached. */
  function ProcessSame(same: Element, proc: ShapeProc, ctx: Dict, cache: map<string, Element>): (r: Option<Dict>)
    ensures !HasTruthy(same, "shape") || same.attrs["shape"] !in cache ==> r.None?
    ensures HasTruthy(same, "shape") && same.attrs["shape"] in cache ==>
      (Present(r) <==> Present(proc(cache[same.attrs["shape"]], same)))
  {
    if !HasTruthy(same, "shape") || same.attrs["shape"] !in cache then None
    else
      var d := proc(cache[same.attrs["shape"]], same);
      if Present(d) then Some(Decorate(d.value, Get(same, "strength_main"), ctx)) else d
  }

  /** `_process_notsame_element`: like Same, and records the position, "TOP" when `pos` is absent. */
  function ProcessNotSame(ns: Element, proc: ShapeProc, ctx: Dict, cache: map<string, Element>): (r: Option<Dict>)
    ensures !HasTruthy(ns, "shape") || ns.attrs["shape"] !in cache ==> r.None?
    ensures HasTruthy(ns, "shape") && ns.attrs["shape"] in cache ==>
      (Present(r) <==> Present(proc(cache[ns.attrs["shape"]], ns)))
    ensures Present(r) ==> Has(r.value, "position", Str(GetOr(ns, "pos", "TOP")))
  {
    if !HasTruthy(ns, "shape") || ns.attrs["shape"] !in cache then None
    else
      var d := proc(cache[ns.attrs["shape"]], ns);
      if Present(d) then
        var d1 := if HasTruthy(ns, "strength_main") then d.value["strength_main" := Str(ns.attrs["strength_main"])] else d.value;
        var d2 := d1["position" := Str(GetOr(ns, "pos", "TOP"))];
        Some(if SecName(ctx).Some? then d2["stb_name" := SecName(ctx).value] else d2)
      else d
  }

  /** The truthy NotSame results of `es`, in order. */
  function NotSameResults(es: seq<Element>, proc: ShapeProc, ctx: Dict, cache: map<string, Element>): (r: seq<Dict>)
    ensures |r| <= |es|
  {
    if es == [] then []
    else
      var front := NotSameResults(es[..|es| - 1], proc, ctx, cache);
      var x := ProcessNotSame(es[|es| - 1], proc, ctx, cache);
      if Present(x) then front + [x.value] else front
  }

  /** The list `process_same_notsame_pattern` returns: the Same result first, then the NotSame results. */
  function SameNotSameResults(fig: Element, proc: ShapeProc, ctx: Dict, cache: map<string, Element>): seq<Dict>
  {
    var same := FindSame(fig, SamePatterns);
    var first := if same.Some? then ProcessSame(same.value, proc, ctx, cache) else None;
    (if Present(first) then [first.value] else []) + NotSameResults(FindNotSame(fig, NotSamePatterns), proc, ctx, cache)
  }

  /** `process_same_notsame_pattern`. */
  method ProcessSameNotSamePattern(fig: Element, proc: ShapeProc, ctx: Dict, cache: map<string, Element>)
    returns (results: seq<Dict>)
    ensures results == SameNotSameResults(fig, proc, ctx, cache)
  {
    results := [];
    var same := FindSame(fig, SamePatterns);
    if same.Some? {
      var result := ProcessSame(same.value, proc, ctx, cache);
      if Present(result) {
        results := [result.value];
      }
    }
    var rest := ProcessNotSameElements(FindNotSame(fig, NotSamePatterns), proc, ctx, cache);
    results := results + rest;
  }

  /** The NotSame loop of `process_same_notsame_pattern`: each truthy result is appended in turn. */
  method ProcessNotSameElements(notSame: seq<Element>, proc: ShapeProc, ctx: Dict, cache: map<string, Element>)
    returns (rest: seq<Dict>)
    ensures rest == NotSameResults(notSame, proc, ctx, cache)
  {
    rest := [];
    var i := 0;
    while i < |notSame|
      invariant 0 <= i <= |notSame|
      invariant rest == NotSameResults(notSame[..i], proc, ctx, cache)
    {
      var result := ProcessNotSame(notSame[i], proc, ctx, cache);
      NotSameResultsStep(notSame, i, proc, ctx, cache);
      if Present(result) {
        rest := rest + [result.value];
      }
      i := i + 1;
    }
    assert notSame[..i] == notSame;
  }

  /** One more NotSame element appends its result when that result is truthy. */
  lemma NotSameResultsStep(es: seq<Element>, i: nat, proc: ShapeProc, ctx: Dict, cache: map<string, Element>)
    requires i < |es|
    ensures var x := ProcessNotSame(es[i], proc, ctx, cache);
      NotSameResults(es[..i + 1], proc, ctx, cache)
        == NotSameResults(es[..i], proc, ctx, cache) + (if Present(x) then [x.value] else [])
  {
    assert es[..i + 1][..i] == es[..i];
  }

  /** Every NotSame result carries a position. */
  lemma {:induction false} NotSameResultsHavePosition(es: seq<Element>, proc: ShapeProc, ctx: Dict, cache: map<string, Element>)
    ensures forall d :: d in NotSameResults(es, proc, ctx, cache) ==> "position" in d
    decreases |es|
  {
    if es != [] {
      NotSameResultsHavePosition(es[..|es| - 1], proc, ctx, cache);
    }
  }

  /** NotSame elements whose shapes are all missing from the cache contribute nothing. */
  lemma {:induction false} UncachedShapesGiveNothing(es: seq<Element>, proc: ShapeProc, ctx: Dict, cache: map<string, Element>)
    requires forall i :: 0 <= i < |es| ==> !HasTruthy(es[i], "shape") || es[i].attrs["shape"] !in cache
    ensures NotSameResults(es, proc, ctx, cache) == []
    decreases |es|
  {
    if es != [] {
      UncachedShapesGiveNothing(es[..|es| - 1], proc, ctx, cache);
    }
  }

  /** The results list the Same result first, then exactly the truthy NotSame results in document order. */
  lemma SameComesFirst(fig: Element, proc: ShapeProc, ctx: Dict, cache: map<string, Element>)
    ensures var same := FindSame(fig, SamePatterns);
      var r := SameNotSameResults(fig, proc, ctx, cache);
      var rest := NotSameResults(FindNotSame(fig, NotSamePatterns), proc, ctx, cache);
      if same.Some? && Present(ProcessSame(same.value, proc, ctx, cache))
      then |r| == 1 + |rest| && r[0] == ProcessSame(same.value, proc, ctx, cache).value && r[1..] == rest
      else r == rest
  {
  }

  // ---------------------------------------------------------------- RC shapes

  /** `_process_rc_rect_section`: width/height from width_X/width_Y, then the context's keys win. */
  function RcRect(rect: Element, ctx: Dict): (r: Dict)
    ensures forall k :: k in ctx ==> Has(r, k, ctx[k])
    ensures "section_type" !in ctx ==> Has(r, "section_type", Str("RECTANGLE"))
    ensures "width" !in ctx ==> Has(r, "width", OptNum(FloatAttr(rect, "width_X", None)))
    ensures "height" !in ctx ==> Has(r, "height", OptNum(FloatAttr(rect, "width_Y", None)))
  {
    Update(map[
      "section_type" := Str("RECTANGLE"),
      "width" := OptNum(FloatAttr(rect, "width_X", None)),
      "height" := OptNum(FloatAttr(rect, "width_Y", None)),
      "material_type" := Str("RC")], ctx)
  }

  /** `if radius: radius = radius / 2.0`: a non-zero diameter is halved, `None` and 0.0 stay. */
  function HalfIfTruthy(d: Option<real>): (r: Value)
    ensures d.Some? && d.value != 0.0 ==> r == Num(d.value / 2.0)
    ensures !(d.Some? && d.value != 0.0) ==> r == OptNum(d)
  {
    if d.Some? && d.value != 0.0 then Num(d.value / 2.0) else OptNum(d)
  }

  /** `_process_rc_circle_section`: radius = D/2 and the diameter kept, then the context's keys win. */
  function RcCircle(circle: Element, ctx: Dict): (r: Dict)
    ensures forall k :: k in ctx ==> Has(r, k, ctx[k])
    ensures "radius" !in ctx ==> Has(r, "radius", HalfIfTruthy(FloatAttr(circle, "D", None)))
    ensures "diameter" !in ctx ==> Has(r, "diameter", OptNum(FloatAttr(circle, "D", None)))
  {
    var d := FloatAttr(circle, "D", None);
    Update(map[
      "section_type" := Str("CIRCLE"),
      "radius" := HalfIfTruthy(d),
      "diameter" := OptNum(d),
      "material_type" := Str("RC")], ctx)
  }

  /** `process_rc_shape`: a Rect child wins over a Circle child; neither gives `None`. */
  function ProcessRcShape(fig: Element, ctx: Dict): (r: Option<Dict>)
    ensures Child(fig, "StbSecRC_Rect").Some? ==> r == Some(RcRect(Child(fig, "StbSecRC_Rect").value, ctx))
    ensures Child(fig, "StbSecRC_Rect").None? && Child(fig, "StbSecRC_Circle").Some? ==>
      r == Some(RcCircle(Child(fig, "StbSecRC_Circle").value, ctx))
    ensures r.None? <==> Child(fig, "StbSecRC_Rect").None? && Child(fig, "StbSecRC_Circle").None?
  {
    match Child(fig, "StbSecRC_Rect")
    case Some(rect) => Some(RcRect(rect, ctx))
    case None =>
      match Child(fig, "StbSecRC_Circle")
      case Some(c) => Some(RcCircle(c, ctx))
      case None => None
  }

  /** A circle's radius is half its diameter whenever the diameter is a non-zero number. */
  lemma CircleRadiusIsHalfDiameter(circle: Element, ctx: Dict)
    requires "radius" !in ctx && "diameter" !in ctx
    requires FloatAttr(circle, "D", None).Some? && FloatAttr(circle, "D", None).value != 0.0
    ensures var c := RcCircle(circle, ctx);
      c["radius"].Num? && c["diameter"].Num? && c["diameter"].r == 2.0 * c["radius"].r
  {
  }

  // ---------------------------------------------------------------- steel dispatcher

  /** The steel shape tags the dispatcher recognises, in the order it tests them. */
  datatype ShapeTag = BuildH | RollH | Pipe | BuildBox | RollBox | BuildT | RollT | RollC | RollL | LipC | RollFB | RoundBar | Other

  /** `SteelShapeDispatcher._is_tag`: a suffix test on the full tag. */
  predicate TagIs(e: Element, name: string) { Strs.EndsWith(e.tag, name) }

  /** The dispatcher's tag tests, in the order they are tried. */
  function TagTests(e: Element): (tests: seq<bool>)
    ensures |tests| == 12
  {
    [TagIs(e, "StbSecBuild-H"), TagIs(e, "StbSecRoll-H"), TagIs(e, "StbSecPipe"), TagIs(e, "StbSecBuild-BOX"),
     TagIs(e, "StbSecRoll-BOX"), TagIs(e, "StbSecBuild-T"), TagIs(e, "StbSecRoll-T"), TagIs(e, "StbSecRoll-C"),
     TagIs(e, "StbSecRoll-L"), TagIs(e, "StbSecLipC"), TagIs(e, "StbSecRoll-FB"), TagIs(e, "StbSecRoundBar")]
  }

  /** The shape the k-th test stands for, and `Other` past the last test. */
  function TagAt(k: nat): ShapeTag
  {
    match k
    case 0 => BuildH
    case 1 => RollH
    case 2 => Pipe
    case 3 => BuildBox
    case 4 => RollBox
    case 5 => BuildT
    case 6 => RollT
    case 7 => RollC
    case 8 => RollL
    case 9 => LipC
    case 10 => RollFB
    case 11 => RoundBar
    case _ => Other
  }

  /** The first dispatcher test the element's tag passes. */
  function TagOf(e: Element): (t: ShapeTag)
    ensures t == RollL ==> TagIs(e, "StbSecRoll-L")
    ensures t == Other ==> !TagIs(e, "StbSecBuild-H") && !TagIs(e, "StbSecRoll-H") && !TagIs(e, "StbSecRoundBar")
  {
    var tests := TagTests(e);
    if tests[0] then BuildH
    else if tests[1] then RollH
    else if tests[2] then Pipe
    else if tests[3] then BuildBox
    else if tests[4] then RollBox
    else if tests[5] then BuildT
    else if tests[6] then RollT
    else if tests[7] then RollC
    else if tests[8] then RollL
    else if tests[9] then LipC
    else if tests[10] then RollFB
    else if tests[11] then RoundBar
    else Other
  }

  /** The tag is the shape of the first test the element passes, in the dispatcher's order, and `Other` when it passes none. */
  lemma TagOfFirstPassing(e: Element)
    ensures TagOf(e) == TagAt(FirstTrue(TagTests(e)))
  {
    var tests := TagTests(e);
    var k := FirstTrue(tests);
    assert forall j :: 0 <= j < k ==> !tests[j];
    if k == 0 { assert tests[0]; }
    else if k == 1 { assert tests[1]; }
    else if k == 2 { assert tests[2]; }
    else if k == 3 { assert tests[3]; }
    else if k == 4 { assert tests[4]; }
    else if k == 5 { assert tests[5]; }
    else if k == 6 { assert tests[6]; }
    else if k == 7 { assert tests[7]; }
    else if k == 8 { assert tests[8]; }
    else if k == 9 { assert tests[9]; }
    else if k == 10 { assert tests[10]; }
    else if k == 11 { assert tests[11]; }
  }

  /**
   * `dispatch_steel_shape` as written: the Build-T, Roll-T, Roll-L, LipC and
   * Roll-FB branches call extractor methods the class does not define, and
   * the AttributeError is caught, so those tags give `None`.
   */
  function DispatchSteelShape(e: Element): (r: Option<Dict>)
    ensures TagOf(e) in {BuildT, RollT, RollL, LipC, RollFB, Other} ==> r.None?
    ensures r.Some? ==> SteelType(r.value)
  {
    match TagOf(e)
    case BuildH => BuildHSection(e)
    case RollH => HSection(e)
    case Pipe => PipeSection(e)
    case BuildBox => BuildBoxSection(e)
    case RollBox => BoxSection(e)
    case RollC => CSteelSection(e)
    case RoundBar => RoundBarSection(e)
    case _ => None
  }

  /**
   * The dispatcher with the missing methods replaced by the extractors the
   * base class does define: Roll-L uses the L parameters, LipC the lipped
   * channel and Roll-FB the flat bar. No T extractor exists, so T stays `None`.
   */
  function DispatchSteelShapeFixed(e: Element): (r: Option<Dict>)
    ensures TagOf(e) in {BuildT, RollT, Other} ==> r.None?
    ensures TagOf(e) == RollL ==> r == LParams(e)
    ensures TagOf(e) == LipC ==> r == LipCSection(e)
    ensures TagOf(e) == RollFB ==> r == FlatBarSection(e)
    ensures TagOf(e) !in {RollL, LipC, RollFB} ==> r == DispatchSteelShape(e)
    ensures r.Some? ==> SteelType(r.value)
  {
    match TagOf(e)
    case RollL => LParams(e)
    case LipC => LipCSection(e)
    case RollFB => FlatBarSection(e)
    case _ => DispatchSteelShape(e)
  }

  /** Every well-formed Roll-L shape is lost by the dispatcher as written and kept by the fixed one. */
  lemma RollLLostAsWritten(e: Element)
    requires e.tag == "StbSecRoll-L" && LParams(e).Some?
    ensures DispatchSteelShape(e).None?
    ensures DispatchSteelShapeFixed(e) == LParams(e) && Has(DispatchSteelShapeFixed(e).value, "section_type", Str("L"))
  {
    RollLTag(e);
  }

  /** An equal-leg angle of 100 by 7 is such a shape. */
  lemma RollLExample()
    ensures var e := Element("StbSecRoll-L", map["A" := "100", "B" := "100", "t1" := "7", "t2" := "7"], [], None);
      LParams(e).Some? && DispatchSteelShape(e).None?
  {
    var e := Element("StbSecRoll-L", map["A" := "100", "B" := "100", "t1" := "7", "t2" := "7"], [], None);
    SmallNumerals();
    FloatAttrOfNumeral(e, "A", 100);
    FloatAttrOfNumeral(e, "B", 100);
    FloatAttrOfNumeral(e, "t1", 7);
    FloatAttrOfNumeral(e, "t2", 7);
    RollLLostAsWritten(e);
  }

  lemma SmallNumerals()
    ensures Strs.NatToString(100) == "100" && Strs.NatToString(7) == "7"
  {
  }

  /** An attribute holding the decimal numeral of `n` reads as `n`. */
  lemma FloatAttrOfNumeral(e: Element, name: string, n: nat)
    requires name in e.attrs && e.attrs[name] == Strs.NatToString(n)
    ensures FloatAttr(e, name, None) == Some(n as real)
  {
    Strs.ParseNatToString(n);
  }

  /** The tag `StbSecRoll-L` passes only the Roll-L test. */
  lemma RollLTag(e: Element)
    requires e.tag == "StbSecRoll-L"
    ensures TagOf(e) == RollL
  {
    var t := e.tag;
    assert |t| == 12 && t[11] == 'L';
    NotSuffix(t, "StbSecBuild-H");
    NotSuffix(t, "StbSecRoll-H");
    NotSuffix(t, "StbSecPipe");
    NotSuffix(t, "StbSecBuild-BOX");
    NotSuffix(t, "StbSecRoll-BOX");
    NotSuffix(t, "StbSecBuild-T");
    NotSuffix(t, "StbSecRoll-T");
    NotSuffix(t, "StbSecRoll-C");
    assert Strs.EndsWith(t, "StbSecRoll-L") by { assert t[|t| - 12..] == t; }
  }

  /** A name longer than the text, or ending in another character, is no suffix of it. */
  lemma NotSuffix(s: string, p: string)
    requires |s| > 0 && |p| > 0
    requires |p| > |s| || s[|s| - 1] != p[|p| - 1]
    ensures !Strs.EndsWith(s, p)
  {
    if |p| <= |s| {
      assert s[|s| - |p|..][|p| - 1] == s[|s| - 1];
    }
  }

}
