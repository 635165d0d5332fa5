/**
 * The shared section-parsing layer (stbParser/section_extractor_base.py):
 * attribute helpers, the steel-shape cache keyed by shape name, one parser
 * per steel family that turns an STB shape element into a section
 * dictionary, the FiveTypes name parser, and the generic "store each
 * processed section under its id" pass.
 */
module SectionBase {
  import opened Wrappers
  import opened Values
  import Strs
  import opened Xml

  // ---------------------------------------------------------------- attributes

  /** `_float_attr` / `safe_get_float_attr`: absent or unparsable gives the default. */
  function FloatAttr(e: Element, name: string, default: Option<real>): (r: Option<real>)
    ensures name !in e.attrs ==> r == default
    ensures name in e.attrs && Strs.ParseFloat(e.attrs[name]).Some? ==> r == Strs.ParseFloat(e.attrs[name])
    ensures name in e.attrs && Strs.ParseFloat(e.attrs[name]).None? ==> r == default
  {
    if name !in e.attrs then default
    else match Strs.ParseFloat(e.attrs[name])
      case Some(v) => Some(v)
      case None => default
  }

  /** `float(elem.get(name))`: `None` stands for the TypeError or ValueError it raises. */
  function Req(e: Element, name: string): (r: Option<real>)
    ensures r.Some? <==> name in e.attrs && Strs.ParseFloat(e.attrs[name]).Some?
    ensures r.Some? ==> r == Strs.ParseFloat(e.attrs[name])
  {
    if name in e.attrs then Strs.ParseFloat(e.attrs[name]) else None
  }

  /** `safe_get_str_attr`: the attribute if present (even when empty), else the default. */
  function StrAttr(e: Element, name: string, default: Option<string>): (r: Option<string>)
    ensures name in e.attrs ==> r == Some(e.attrs[name])
    ensures name !in e.attrs ==> r == default
  {
    if name in e.attrs then Some(e.attrs[name]) else default
  }

  /** `validate_required_attrs`: the attributes that are missing, in the order asked. */
  function MissingAttrs(e: Element, names: seq<string>): (r: seq<string>)
    ensures forall n :: n in r <==> n in names && n !in e.attrs
  {
    if names == [] then []
    else (if names[0] !in e.attrs then [names[0]] else []) + MissingAttrs(e, names[1..])
  }

  predicate ValidateRequiredAttrs(e: Element, names: seq<string>)
  {
    MissingAttrs(e, names) == []
  }

  /** `validate_required_attrs` is true exactly when every listed attribute is present. */
  lemma ValidateRequiredAttrsIff(e: Element, names: seq<string>)
    ensures ValidateRequiredAttrs(e, names) <==> forall n :: n in names ==> n in e.attrs
  {
    if !ValidateRequiredAttrs(e, names) {
      var m := MissingAttrs(e, names);
      assert m[0] in m;
    }
  }

  /** The `name` attribute as the dictionaries store it (`None` when absent). */
  function NameOf(e: Element): Value
  {
    OptStr(Get(e, "name"))
  }

  /** `d[k] == v`, with the key present. */
  predicate Has(d: Dict, k: string, v: Value) { k in d && d[k] == v }

  /**
   * `float(r) if r else default`: `Some(v)` is the value to store, `None` the
   * ValueError of an unparsable non-empty `r`.
   */
  function Radius(e: Element, default: Value): (r: Option<Value>)
    ensures !HasTruthy(e, "r") ==> r == Some(default)
    ensures HasTruthy(e, "r") ==> (r.Some? <==> Strs.ParseFloat(e.attrs["r"]).Some?)
    ensures HasTruthy(e, "r") && r.Some? ==> r.value == Num(Strs.ParseFloat(e.attrs["r"]).value)
  {
    if HasTruthy(e, "r") then
      match Strs.ParseFloat(e.attrs["r"])
      case Some(v) => Some(Num(v))
      case None => None
    else Some(default)
  }

  /** A concrete strength is added only when it is non-empty. */
  function WithConcrete(d: Dict, strength: Option<string>): (r: Dict)
    ensures strength.Some? && strength.value != "" ==> Has(r, "strength_concrete", Str(strength.value))
    ensures !(strength.Some? && strength.value != "") ==> r == d
    ensures forall k :: k in d && k != "strength_concrete" ==> Has(r, k, d[k])
  {
    if strength.Some? && strength.value != "" then d["strength_concrete" := Str(strength.value)] else d
  }

  /** An optional float that Python treats as true: present and non-zero. */
  predicate TruthyNum(x: Option<real>)
  {
    x.Some? && x.value != 0.0
  }

  /** The dictionary of an RC slab or wall section: a kind, a thickness and the name, plus a non-empty concrete strength. */
  function ThicknessDict(kind: string, depth: real, name: Value, strength: Option<string>): (p: Dict)
    ensures Has(p, "section_type", Str(kind)) && Has(p, "thickness", Num(depth)) && Has(p, "stb_name", name)
    ensures "strength_concrete" in p <==> strength.Some? && strength.value != ""
    ensures "strength_concrete" in p ==> p["strength_concrete"] == Str(strength.value)
  {
    WithConcrete(map["section_type" := Str(kind), "thickness" := Num(depth), "stb_name" := name], strength)
  }

  // ---------------------------------------------------------------- steel cache

  /** The cache after reading `es` in order: a later element with the same name replaces an earlier one. */
  function CacheOf(es: seq<Element>): map<string, Element>
  {
    if es == [] then map[]
    else
      var c := CacheOf(es[..|es| - 1]);
      var e := es[|es| - 1];
      if HasTruthy(e, "name") then c[e.attrs["name"] := e] else c
  }

  /** A cached name belongs to an element that carries it, and the entry is the last such element. */
  lemma {:induction false} CacheOfEntry(es: seq<Element>, name: string)
    ensures name in CacheOf(es) <==> exists i :: 0 <= i < |es| && HasTruthy(es[i], "name") && es[i].attrs["name"] == name
    ensures name in CacheOf(es) ==> exists i :: (0 <= i < |es| && CacheOf(es)[name] == es[i] && HasTruthy(es[i], "name") && es[i].attrs["name"] == name
      && forall j :: i < j < |es| ==> !(HasTruthy(es[j], "name") && es[j].attrs["name"] == name))
    decreases |es|
  {
    if es != [] {
      var front := es[..|es| - 1];
      CacheOfEntry(front, name);
      assert forall i :: 0 <= i < |front| ==> front[i] == es[i];
      var e := es[|es| - 1];
      if !(HasTruthy(e, "name") && e.attrs["name"] == name) && name in CacheOf(es) {
        var i :| 0 <= i < |front| && CacheOf(front)[name] == front[i] && HasTruthy(front[i], "name") && front[i].attrs["name"] == name
          && forall j :: i < j < |front| ==> !(HasTruthy(front[j], "name") && front[j].attrs["name"] == name);
        assert CacheOf(es)[name] == es[i];
      }
    }
  }

  /** Reading one more element caches it under its name, when it has one. */
  lemma CacheOfStep(es: seq<Element>, i: nat)
    requires i < |es|
    ensures CacheOf(es[..i + 1]) ==
      if HasTruthy(es[i], "name") then CacheOf(es[..i])[es[i].attrs["name"] := es[i]] else CacheOf(es[..i])
  {
    assert es[..i + 1][..i] == es[..i];
  }

  /** The steel shapes of a document by name: empty without StbSections or StbSecSteel. */
  function SteelCache(root: Element): map<string, Element>
  {
    match Below(root, "StbSections")
    case None => map[]
    case Some(sections) =>
      match Below(sections, "StbSecSteel")
      case None => map[]
      case Some(steelRoot) => CacheOf(steelRoot.children)
  }

  /** `_build_steel_section_cache`: every child of the first StbSecSteel under StbSections, by name. */
  method BuildSteelSectionCache(root: Element) returns (cache: map<string, Element>)
    ensures Below(root, "StbSections").None? ==> cache == map[]
    ensures Below(root, "StbSections").Some? && Below(Below(root, "StbSections").value, "StbSecSteel").None? ==> cache == map[]
    ensures Below(root, "StbSections").Some? && Below(Below(root, "StbSections").value, "StbSecSteel").Some? ==>
      cache == CacheOf(Below(Below(root, "StbSections").value, "StbSecSteel").value.children)
    ensures cache == SteelCache(root)
  {
    cache := map[];
    var sections := Below(root, "StbSections");
    if sections.None? { return; }
    var steelRoot := Below(sections.value, "StbSecSteel");
    if steelRoot.None? { return; }
    var es := steelRoot.value.children;
    var i := 0;
    while i < |es|
      invariant 0 <= i <= |es|
      invariant cache == CacheOf(es[..i])
    {
      CacheOfStep(es, i);
      var e := es[i];
      if HasTruthy(e, "name") {
        cache := cache[e.attrs["name"] := e];
      }
      i := i + 1;
    }
    assert es[..i] == es;
  }

  // ---------------------------------------------------------------- steel families

  /** The dictionary of an L shape with the given dimensions. */
  function LDict(a: real, b: real, t1: real, t2: real, r1: Value, name: Value, arrangement: Option<string>): (p: Dict)
    ensures Has(p, "section_type", Str("L"))
    ensures Has(p, "overall_depth", Num(a)) && Has(p, "overall_width", Num(b)) && Has(p, "flange_width", Num(b))
    ensures Has(p, "thickness", Num(t1)) && Has(p, "web_thickness", Num(t1)) && Has(p, "flange_thickness", Num(t2))
    ensures Has(p, "internal_fillet_radius", r1) && Has(p, "stb_name", name)
    ensures "arrangement" in p <==> arrangement.Some?
  {
    var p := map[
      "section_type" := Str("L"),
      "overall_depth" := Num(a),
      "flange_width" := Num(b),
      "overall_width" := Num(b),
      "web_thickness" := Num(t1),
      "flange_thickness" := Num(t2),
      "thickness" := Num(t1),
      "internal_fillet_radius" := r1,
      "stb_name" := name];
    if arrangement.Some? then p["arrangement" := Str(arrangement.value)] else p
  }

  /** The `type` attribute when non-empty: the arrangement of a paired shape. */
  function Arrangement(e: Element): (r: Option<string>)
    ensures r.Some? <==> HasTruthy(e, "type")
  {
    if HasTruthy(e, "type") then Some(e.attrs["type"]) else None
  }

  /** `_extract_l_section_params`: an L shape; A, B, t1, t2 must be numbers. */
  function LParams(e: Element): (r: Option<Dict>)
    ensures r.Some? <==> (FloatAttr(e, "A", None).Some? && FloatAttr(e, "B", None).Some?
      && FloatAttr(e, "t1", None).Some? && FloatAttr(e, "t2", None).Some?)
    ensures r.Some? ==> (Has(r.value, "section_type", Str("L"))
      && Has(r.value, "overall_depth", Num(FloatAttr(e, "A", None).value))
      && Has(r.value, "overall_width", Num(FloatAttr(e, "B", None).value))
      && Has(r.value, "flange_width", Num(FloatAttr(e, "B", None).value))
      && Has(r.value, "thickness", Num(FloatAttr(e, "t1", None).value))
      && Has(r.value, "web_thickness", Num(FloatAttr(e, "t1", None).value))
      && Has(r.value, "internal_fillet_radius", OptNum(FloatAttr(e, "r1", None)))
      && ("arrangement" in r.value <==> HasTruthy(e, "type")))
  {
    var a := FloatAttr(e, "A", None);
    var b := FloatAttr(e, "B", None);
    var t1 := FloatAttr(e, "t1", None);
    var t2 := FloatAttr(e, "t2", None);
    if a.None? || b.None? || t1.None? || t2.None? then None
    else Some(LDict(a.value, b.value, t1.value, t2.value, OptNum(FloatAttr(e, "r1", None)), NameOf(e), Arrangement(e)))
  }

  /** The dictionary of a C shape: like an L shape but without a `thickness` key. */
  function CDict(a: real, b: real, t1: real, t2: real, r1: Value, name: Value, arrangement: Option<string>): (p: Dict)
    ensures Has(p, "section_type", Str("C"))
    ensures Has(p, "overall_depth", Num(a)) && Has(p, "overall_width", Num(b)) && Has(p, "flange_width", Num(b))
    ensures Has(p, "web_thickness", Num(t1)) && Has(p, "flange_thickness", Num(t2)) && "thickness" !in p
    ensures Has(p, "internal_fillet_radius", r1) && Has(p, "stb_name", name)
    ensures "arrangement" in p <==> arrangement.Some?
  {
    var p := map[
      "section_type" := Str("C"),
      "overall_depth" := Num(a),
      "flange_width" := Num(b),
      "overall_width" := Num(b),
      "web_thickness" := Num(t1),
      "flange_thickness" := Num(t2),
      "internal_fillet_radius" := r1,
      "stb_name" := name];
    if arrangement.Some? then p["arrangement" := Str(arrangement.value)] else p
  }

  /** `_extract_c_section_params`: a C shape from A, B, t1, t2; no `thickness` key. */
  function CParams(e: Element): (r: Option<Dict>)
    ensures r.Some? <==> (FloatAttr(e, "A", None).Some? && FloatAttr(e, "B", None).Some?
      && FloatAttr(e, "t1", None).Some? && FloatAttr(e, "t2", None).Some?)
    ensures r.Some? ==> (Has(r.value, "section_type", Str("C"))
      && Has(r.value, "flange_width", Num(FloatAttr(e, "B", None).value))
      && Has(r.value, "overall_width", Num(FloatAttr(e, "B", None).value))
      && Has(r.value, "web_thickness", Num(FloatAttr(e, "t1", None).value))
      && Has(r.value, "flange_thickness", Num(FloatAttr(e, "t2", None).value))
      && "thickness" !in r.value
      && ("arrangement" in r.value <==> HasTruthy(e, "type")))
  {
    var a := FloatAttr(e, "A", None);
    var b := FloatAttr(e, "B", None);
    var t1 := FloatAttr(e, "t1", None);
    var t2 := FloatAttr(e, "t2", None);
    if a.None? || b.None? || t1.None? || t2.None? then None
    else Some(CDict(a.value, b.value, t1.value, t2.value, OptNum(FloatAttr(e, "r1", None)), NameOf(e), Arrangement(e)))
  }

  /** The dictionary of a rolled box: one radius for the corner and both fillets. */
  function BoxDict(a: real, b: real, t: real, rad: Value, name: Value): (p: Dict)
    ensures Has(p, "section_type", Str("BOX"))
    ensures Has(p, "outer_height", Num(a)) && Has(p, "outer_width", Num(b)) && Has(p, "wall_thickness", Num(t))
    ensures Has(p, "corner_radius", rad) && Has(p, "internal_fillet_radius", rad) && Has(p, "external_fillet_radius", rad)
    ensures Has(p, "stb_name", name)
  {
    map[
      "section_type" := Str("BOX"),
      "outer_height" := Num(a),
      "outer_width" := Num(b),
      "wall_thickness" := Num(t),
      "corner_radius" := rad,
      "internal_fillet_radius" := rad,
      "external_fillet_radius" := rad,
      "stb_name" := name]
  }

  /** `extract_box_steel_section`: A, B, t required; `r` (when non-empty) gives all three radii. */
  function BoxSection(e: Element): (r: Option<Dict>)
    ensures r.Some? <==> Req(e, "A").Some? && Req(e, "B").Some? && Req(e, "t").Some? && Radius(e, Null).Some?
    ensures r.Some? ==> (Has(r.value, "section_type", Str("BOX"))
      && Has(r.value, "outer_height", Num(Req(e, "A").value))
      && Has(r.value, "outer_width", Num(Req(e, "B").value))
      && Has(r.value, "wall_thickness", Num(Req(e, "t").value))
      && Has(r.value, "corner_radius", Radius(e, Null).value)
      && Has(r.value, "internal_fillet_radius", Radius(e, Null).value)
      && Has(r.value, "external_fillet_radius", Radius(e, Null).value))
  {
    var a := Req(e, "A");
    var b := Req(e, "B");
    var t := Req(e, "t");
    var rad := Radius(e, Null);
    if a.None? || b.None? || t.None? || rad.None? then None
    else Some(BoxDict(a.value, b.value, t.value, rad.value, NameOf(e)))
  }

  /** The dictionary of the H layout. */
  function HDict(kind: string, a: real, b: real, t1: real, t2: real, fillet: Value, name: Value): (p: Dict)
    ensures Has(p, "section_type", Str(kind))
    ensures Has(p, "overall_depth", Num(a)) && Has(p, "overall_width", Num(b))
    ensures Has(p, "web_thickness", Num(t1)) && Has(p, "flange_thickness", Num(t2))
    ensures Has(p, "fillet_radius", fillet) && Has(p, "stb_name", name)
  {
    map[
      "section_type" := Str(kind),
      "overall_depth" := Num(a),
      "overall_width" := Num(b),
      "web_thickness" := Num(t1),
      "flange_thickness" := Num(t2),
      "fillet_radius" := fillet,
      "stb_name" := name]
  }

  /** The H layout shared by Roll-H and Build-H; they differ only in the fillet default. */
  function HLike(e: Element, kind: string, filletDefault: Value): (r: Option<Dict>)
    ensures r.Some? <==> (Req(e, "A").Some? && Req(e, "B").Some? && Req(e, "t1").Some? && Req(e, "t2").Some?
      && Radius(e, filletDefault).Some?)
    ensures r.Some? ==> (Has(r.value, "section_type", Str(kind))
      && Has(r.value, "overall_depth", Num(Req(e, "A").value))
      && Has(r.value, "overall_width", Num(Req(e, "B").value))
      && Has(r.value, "web_thickness", Num(Req(e, "t1").value))
      && Has(r.value, "flange_thickness", Num(Req(e, "t2").value))
      && Has(r.value, "fillet_radius", Radius(e, filletDefault).value)
      && Has(r.value, "stb_name", NameOf(e)))
  {
    var a := Req(e, "A");
    var b := Req(e, "B");
    var t1 := Req(e, "t1");
    var t2 := Req(e, "t2");
    var rad := Radius(e, filletDefault);
    if a.None? || b.None? || t1.None? || t2.None? || rad.None? then None
    else Some(HDict(kind, a.value, b.value, t1.value, t2.value, rad.value, NameOf(e)))
  }

  /** `extract_h_steel_section`: a missing or empty `r` leaves the fillet radius `None`. */
  function HSection(e: Element): Option<Dict> { HLike(e, "H", Null) }

  /** `extract_build_h_section`: a missing or empty `r` gives a fillet radius of 0.0. */
  function BuildHSection(e: Element): Option<Dict> { HLike(e, "H", Num(0.0)) }

  /** `extract_c_steel_section`: the H layout with section type C. */
  function CSteelSection(e: Element): Option<Dict> { HLike(e, "C", Null) }

  /** Build-H and Roll-H agree except that Build-H's absent fillet radius is 0.0 instead of `None`. */
  lemma BuildHDefaultsFillet(e: Element)
    ensures HSection(e).Some? <==> BuildHSection(e).Some?
    ensures HSection(e).Some? && !HasTruthy(e, "r") ==>
      (HSection(e).value["fillet_radius"] == Null && BuildHSection(e).value["fillet_radius"] == Num(0.0)
      && BuildHSection(e).value == HSection(e).value["fillet_radius" := Num(0.0)])
    ensures HSection(e).Some? && HasTruthy(e, "r") ==> BuildHSection(e) == HSection(e)
  {
  }

  /** The dictionary of a pipe. */
  function PipeDict(d: real, t: real, name: Value): (p: Dict)
    ensures Has(p, "section_type", Str("PIPE"))
    ensures Has(p, "outer_diameter", Num(d)) && Has(p, "wall_thickness", Num(t)) && Has(p, "stb_name", name)
  {
    map["section_type" := Str("PIPE"), "outer_diameter" := Num(d), "wall_thickness" := Num(t), "stb_name" := name]
  }

  /** `extract_pipe_steel_section`: D and t. */
  function PipeSection(e: Element): (r: Option<Dict>)
    ensures r.Some? <==> Req(e, "D").Some? && Req(e, "t").Some?
    ensures r.Some? ==> (Has(r.value, "section_type", Str("PIPE"))
      && Has(r.value, "outer_diameter", Num(Req(e, "D").value))
      && Has(r.value, "wall_thickness", Num(Req(e, "t").value)))
  {
    var d := Req(e, "D");
    var t := Req(e, "t");
    if d.None? || t.None? then None
    else Some(PipeDict(d.value, t.value, NameOf(e)))
  }

  /** The dictionary of a lipped channel: one width and one thickness for both parts. */
  function LipCDict(h: real, a: real, t: real, name: Value, arrangement: Option<string>): (p: Dict)
    ensures Has(p, "section_type", Str("C"))
    ensures Has(p, "overall_depth", Num(h)) && Has(p, "flange_width", Num(a)) && Has(p, "overall_width", Num(a))
    ensures Has(p, "web_thickness", Num(t)) && Has(p, "flange_thickness", Num(t)) && Has(p, "stb_name", name)
    ensures "arrangement" in p <==> arrangement.Some?
  {
    var p := map[
      "section_type" := Str("C"),
      "overall_depth" := Num(h),
      "flange_width" := Num(a),
      "overall_width" := Num(a),
      "web_thickness" := Num(t),
      "flange_thickness" := Num(t),
      "stb_name" := name];
    if arrangement.Some? then p["arrangement" := Str(arrangement.value)] else p
  }

  /** `extract_lip_c_section`: H is the depth, A both widths, t both thicknesses. */
  function LipCSection(e: Element): (r: Option<Dict>)
    ensures r.Some? <==> Req(e, "H").Some? && Req(e, "A").Some? && Req(e, "t").Some?
    ensures r.Some? ==> (Has(r.value, "section_type", Str("C"))
      && Has(r.value, "overall_depth", Num(Req(e, "H").value))
      && Has(r.value, "flange_width", Num(Req(e, "A").value))
      && Has(r.value, "overall_width", Num(Req(e, "A").value))
      && Has(r.value, "web_thickness", Num(Req(e, "t").value))
      && Has(r.value, "flange_thickness", Num(Req(e, "t").value))
      && ("arrangement" in r.value <==> HasTruthy(e, "type")))
  {
    var h := Req(e, "H");
    var a := Req(e, "A");
    var t := Req(e, "t");
    if h.None? || a.None? || t.None? then None
    else Some(LipCDict(h.value, a.value, t.value, NameOf(e), Arrangement(e)))
  }

  /** The dictionary of a built box: two wall thicknesses and one corner radius. */
  function BuildBoxDict(a: real, b: real, t1: real, t2: real, rad: Value, name: Value): (p: Dict)
    ensures Has(p, "section_type", Str("BOX"))
    ensures Has(p, "outer_height", Num(a)) && Has(p, "outer_width", Num(b))
    ensures Has(p, "wall_thickness", Num(t1)) && Has(p, "wall_thickness_2", Num(t2))
    ensures Has(p, "corner_radius", rad) && Has(p, "stb_name", name)
  {
    map[
      "section_type" := Str("BOX"),
      "outer_height" := Num(a),
      "outer_width" := Num(b),
      "wall_thickness" := Num(t1),
      "wall_thickness_2" := Num(t2),
      "corner_radius" := rad,
      "stb_name" := name]
  }

  /** `extract_build_box_section`: A, B, t1, t2 required; t1 is the wall thickness. */
  function BuildBoxSection(e: Element): (r: Option<Dict>)
    ensures r.Some? <==> (Req(e, "A").Some? && Req(e, "B").Some? && Req(e, "t1").Some? && Req(e, "t2").Some?
      && Radius(e, Null).Some?)
    ensures r.Some? ==> (Has(r.value, "section_type", Str("BOX"))
      && Has(r.value, "wall_thickness", Num(Req(e, "t1").value))
      && Has(r.value, "wall_thickness_2", Num(Req(e, "t2").value))
      && Has(r.value, "corner_radius", Radius(e, Null).value))
  {
    var a := Req(e, "A");
    var b := Req(e, "B");
    var t1 := Req(e, "t1");
    var t2 := Req(e, "t2");
    var rad := Radius(e, Null);
    if a.None? || b.None? || t1.None? || t2.None? || rad.None? then None
    else Some(BuildBoxDict(a.value, b.value, t1.value, t2.value, rad.value, NameOf(e)))
  }

  /** The dictionary of a rectangle. */
  function RectDict(w: real, h: real, name: Value): (p: Dict)
    ensures Has(p, "section_type", Str("RECTANGLE"))
    ensures Has(p, "width", Num(w)) && Has(p, "height", Num(h)) && Has(p, "stb_name", name)
  {
    map["section_type" := Str("RECTANGLE"), "width" := Num(w), "height" := Num(h), "stb_name" := name]
  }

  /** `extract_flat_bar_section`: a RECTANGLE of width B and height t. */
  function FlatBarSection(e: Element): (r: Option<Dict>)
    ensures r.Some? <==> Req(e, "B").Some? && Req(e, "t").Some?
    ensures r.Some? ==> (Has(r.value, "section_type", Str("RECTANGLE"))
      && Has(r.value, "width", Num(Req(e, "B").value)) && Has(r.value, "height", Num(Req(e, "t").value)))
  {
    var b := Req(e, "B");
    var t := Req(e, "t");
    if b.None? || t.None? then None
    else Some(RectDict(b.value, t.value, NameOf(e)))
  }

  /** The dictionary of a round bar. */
  function CircleDict(radius: real, name: Value): (p: Dict)
    ensures Has(p, "section_type", Str("CIRCLE")) && Has(p, "radius", Num(radius)) && Has(p, "stb_name", name)
  {
    map["section_type" := Str("CIRCLE"), "radius" := Num(radius), "stb_name" := name]
  }

  /** `extract_round_bar_section`: a CIRCLE whose radius is the attribute R. */
  function RoundBarSection(e: Element): (r: Option<Dict>)
    ensures r.Some? <==> Req(e, "R").Some?
    ensures r.Some? ==> Has(r.value, "section_type", Str("CIRCLE")) && Has(r.value, "radius", Num(Req(e, "R").value))
  {
    var rr := Req(e, "R");
    if rr.None? then None
    else Some(CircleDict(rr.value, NameOf(e)))
  }

  /** The section types the family parsers produce. */
  predicate SteelType(d: Dict)
  {
    "section_type" in d && d["section_type"] in {Str("H"), Str("BOX"), Str("C"), Str("L"), Str("PIPE"), Str("CIRCLE"), Str("RECTANGLE")}
  }

  /** The tag tests of `process_steel_shape_params`, in the order they are tried. */
  function ShapeTests(t: string): (tests: seq<bool>)
    ensures |tests| == 10
  {
    [Strs.Contains(t, "Roll-H"), Strs.Contains(t, "Build-H"), Strs.Contains(t, "Roll-BOX"), Strs.Contains(t, "Build-BOX"),
     Strs.Contains(t, "Roll-C"), Strs.Contains(t, "Roll-L"), Strs.Contains(t, "Pipe"), Strs.Contains(t, "RoundBar"),
     Strs.Contains(t, "FlatBar"), Strs.Contains(t, "LipC")]
  }

  /** The family parser the k-th test selects, and `None` past the last test. */
  function ShapeParser(e: Element, k: nat): Option<Dict>
  {
    match k
    case 0 => HSection(e)
    case 1 => BuildHSection(e)
    case 2 => BoxSection(e)
    case 3 => BuildBoxSection(e)
    case 4 => CParams(e)
    case 5 => LParams(e)
    case 6 => PipeSection(e)
    case 7 => RoundBarSection(e)
    case 8 => FlatBarSection(e)
    case 9 => LipCSection(e)
    case _ => None
  }

  /**
   * `process_steel_shape_params`: substring dispatch on the tag, first match
   * wins. The result is the parser of the first pattern the tag contains:
   * Roll-H, Build-H, Roll-BOX, Build-BOX, Roll-C, Roll-L, Pipe, RoundBar,
   * FlatBar, LipC.
   */
  function ShapeParams(e: Element): (r: Option<Dict>)
    ensures r.Some? ==> SteelType(r.value)
  {
    var tests := ShapeTests(e.tag);
    if tests[0] then HSection(e)
    else if tests[1] then BuildHSection(e)
    else if tests[2] then BoxSection(e)
    else if tests[3] then BuildBoxSection(e)
    else if tests[4] then CParams(e)
    else if tests[5] then LParams(e)
    else if tests[6] then PipeSection(e)
    else if tests[7] then RoundBarSection(e)
    else if tests[8] then FlatBarSection(e)
    else if tests[9] then LipCSection(e)
    else None
  }

  /** The result is the parser of the first pattern the tag contains, and `None` when it contains none. */
  lemma ShapeParamsDispatch(e: Element)
    ensures ShapeParams(e) == ShapeParser(e, FirstTrue(ShapeTests(e.tag)))
  {
    var tests := ShapeTests(e.tag);
    var k := FirstTrue(tests);
    assert forall j :: 0 <= j < k ==> !tests[j];
    if k == 0 { assert tests[0]; }
    else if k == 1 { assert tests[1]; }
    else if k == 2 { assert tests[2]; }
    else if k == 3 { assert tests[3]; }
    else if k == 4 { assert tests[4]; }
    else if k == 5 { assert tests[5]; }
    else if k == 6 { assert tests[6]; }
    else if k == 7 { assert tests[7]; }
    else if k == 8 { assert tests[8]; }
    else if k == 9 { assert tests[9]; }
  }

  // ---------------------------------------------------------------- Same / Straight lookups

  /** What `find_same_steel_element` / `find_straight_steel_element` return. */
  datatype SteelRef = SteelRef(figure: Element, steel: Element, shapeName: string, strengthMain: Option<string>)

  /**
   * `find_same_steel_element` and `find_straight_steel_element`, given the
   * result of the xpath lookup: `None` when the element is missing, its shape
   * is empty or the shape is not in the cache.
   */
  function FindSteel(found: Option<Element>, cache: map<string, Element>): (r: Option<SteelRef>)
    ensures r.Some? <==> found.Some? && HasTruthy(found.value, "shape") && found.value.attrs["shape"] in cache
    ensures r.Some? ==> (r.value.figure == found.value && r.value.shapeName == found.value.attrs["shape"]
      && r.value.steel == cache[r.value.shapeName] && r.value.strengthMain == Get(found.value, "strength_main"))
  {
    if found.None? || !HasTruthy(found.value, "shape") || found.value.attrs["shape"] !in cache then None
    else
      var shape := found.value.attrs["shape"];
      Some(SteelRef(found.value, cache[shape], shape, Get(found.value, "strength_main")))
  }

  // ---------------------------------------------------------------- FiveTypes names

  /** The dictionary of a paired channel: the overall width is twice one flange. */
  function ChannelDict(depth: real, width: real, web: real, flange: real, arrangement: string, name: string): (p: Dict)
    ensures Has(p, "section_type", Str("COMPOUND_CHANNEL")) && Has(p, "arrangement", Str(arrangement))
    ensures Has(p, "overall_depth", Num(depth)) && Has(p, "flange_width", Num(width))
    ensures Has(p, "overall_width", Num(2.0 * width))
    ensures Has(p, "web_thickness", Num(web)) && Has(p, "flange_thickness", Num(flange))
    ensures Has(p, "stb_name", Str(name))
  {
    map[
      "section_type" := Str("COMPOUND_CHANNEL"),
      "arrangement" := Str(arrangement),
      "overall_depth" := Num(depth),
      "overall_width" := Num(width * 2.0),
      "flange_width" := Num(width),
      "web_thickness" := Num(web),
      "flange_thickness" := Num(flange),
      "stb_name" := Str(name)]
  }

  /** `2CB-AxBxt1xt2` / `2CF-...`: the prefix removed, then four sizes separated by 'x'. */
  function DoubleChannel(name: string, prefix: string, arrangement: string): (r: Option<Dict>)
    requires |prefix| > 0
    ensures var parts := Strs.Split(Strs.Replace(name, prefix, ""), "x");
      r.Some? <==> (|parts| >= 4 && Strs.ParseFloat(parts[0]).Some? && Strs.ParseFloat(parts[1]).Some?
        && Strs.ParseFloat(parts[2]).Some? && Strs.ParseFloat(parts[3]).Some?)
    ensures var parts := Strs.Split(Strs.Replace(name, prefix, ""), "x");
      r.Some? ==> r.value == ChannelDict(Strs.ParseFloat(parts[0]).value, Strs.ParseFloat(parts[1]).value,
        Strs.ParseFloat(parts[2]).value, Strs.ParseFloat(parts[3]).value, arrangement, name)
  {
    var parts := Strs.Split(Strs.Replace(name, prefix, ""), "x");
    if |parts| < 4 then None
    else
      var depth := Strs.ParseFloat(parts[0]);
      var width := Strs.ParseFloat(parts[1]);
      var web := Strs.ParseFloat(parts[2]);
      var flange := Strs.ParseFloat(parts[3]);
      if depth.None? || width.None? || web.None? || flange.None? then None
      else Some(ChannelDict(depth.value, width.value, web.value, flange.value, arrangement, name))
  }

  /** The dictionary of a built-up angle: one thickness for all three thickness keys. */
  function AngleDict(a: real, b: real, t: real, double: bool, name: string): (p: Dict)
    ensures Has(p, "section_type", Str(if double then "COMPOUND_L" else "L"))
    ensures Has(p, "overall_depth", Num(a)) && Has(p, "overall_width", Num(b))
    ensures Has(p, "thickness", Num(t)) && Has(p, "flange_thickness", Num(t)) && Has(p, "web_thickness", Num(t))
    ensures Has(p, "stb_name", Str(name))
    ensures double ==> Has(p, "arrangement", Str("DOUBLE"))
    ensures !double ==> "arrangement" !in p
  {
    var d := map[
      "section_type" := Str(if double then "COMPOUND_L" else "L"),
      "overall_depth" := Num(a),
      "overall_width" := Num(b),
      "thickness" := Num(t),
      "flange_thickness" := Num(t),
      "web_thickness" := Num(t),
      "stb_name" := Str(name)];
    if double then d["arrangement" := Str("DOUBLE")] else d
  }

  /** `2[-AxBxt` (COMPOUND_L, DOUBLE) and `[-AxBxt` (L): three sizes separated by 'x'. */
  function BuiltUp(name: string, prefix: string, double: bool): (r: Option<Dict>)
    requires |prefix| > 0
    ensures var parts := Strs.Split(Strs.Replace(name, prefix, ""), "x");
      r.Some? <==> (|parts| >= 3 && Strs.ParseFloat(parts[0]).Some? && Strs.ParseFloat(parts[1]).Some?
        && Strs.ParseFloat(parts[2]).Some?)
    ensures var parts := Strs.Split(Strs.Replace(name, prefix, ""), "x");
      r.Some? ==> (r.value == AngleDict(Strs.ParseFloat(parts[0]).value, Strs.ParseFloat(parts[1]).value,
        Strs.ParseFloat(parts[2]).value, double, name))
  {
    var parts := Strs.Split(Strs.Replace(name, prefix, ""), "x");
    if |parts| < 3 then None
    else
      var a := Strs.ParseFloat(parts[0]);
      var b := Strs.ParseFloat(parts[1]);
      var t := Strs.ParseFloat(parts[2]);
      if a.None? || b.None? || t.None? then None
      else Some(AngleDict(a.value, b.value, t.value, double, name))
  }

  /**
   * `extract_five_types_section`: the name's prefix selects the compound
   * shape. No name starts with two of the four prefixes, so each prefix
   * alone decides: 2CB- a back-to-back and 2CF- a face-to-face channel
   * pair, 2[- a double and [- a single built-up angle.
   */
  function FiveTypesSection(e: Element): (r: Option<Dict>)
    ensures !HasTruthy(e, "name") ==> r.None?
    ensures (HasTruthy(e, "name") && !Strs.StartsWith(e.attrs["name"], "2CB-") && !Strs.StartsWith(e.attrs["name"], "2CF-")
      && !Strs.StartsWith(e.attrs["name"], "2[-") && !Strs.StartsWith(e.attrs["name"], "[-")) ==> r.None?
    ensures HasTruthy(e, "name") && Strs.StartsWith(e.attrs["name"], "2CB-") ==> r == DoubleChannel(e.attrs["name"], "2CB-", "BACK_TO_BACK")
    ensures HasTruthy(e, "name") && Strs.StartsWith(e.attrs["name"], "2CF-") ==> r == DoubleChannel(e.attrs["name"], "2CF-", "FACE_TO_FACE")
    ensures HasTruthy(e, "name") && Strs.StartsWith(e.attrs["name"], "2[-") ==> r == BuiltUp(e.attrs["name"], "2[-", true)
    ensures HasTruthy(e, "name") && Strs.StartsWith(e.attrs["name"], "[-") ==> r == BuiltUp(e.attrs["name"], "[-", false)
  {
    if !HasTruthy(e, "name") then None
    else
      var n := e.attrs["name"];
      FivePrefixesExclusive(n);
      if Strs.StartsWith(n, "2CB-") then DoubleChannel(n, "2CB-", "BACK_TO_BACK")
      else if Strs.StartsWith(n, "2CF-") then DoubleChannel(n, "2CF-", "FACE_TO_FACE")
      else if Strs.StartsWith(n, "2[-") then BuiltUp(n, "2[-", true)
      else if Strs.StartsWith(n, "[-") then BuiltUp(n, "[-", false)
      else None
  }

  /** A name starts with at most one of the four FiveTypes prefixes. */
  lemma FivePrefixesExclusive(n: string)
    ensures Strs.StartsWith(n, "2CB-") ==> !Strs.StartsWith(n, "2CF-") && !Strs.StartsWith(n, "2[-") && !Strs.StartsWith(n, "[-")
    ensures Strs.StartsWith(n, "2CF-") ==> !Strs.StartsWith(n, "2[-") && !Strs.StartsWith(n, "[-")
    ensures Strs.StartsWith(n, "2[-") ==> !Strs.StartsWith(n, "[-")
  {
    if Strs.StartsWith(n, "2CB-") || Strs.StartsWith(n, "2CF-") || Strs.StartsWith(n, "2[-") {
      assert n[0] == '2';
    }
    if Strs.StartsWith(n, "2CB-") { assert n[2] == 'B'; }
    if Strs.StartsWith(n, "2CF-") { assert n[1] == 'C'; }
  }

  /** Digits and the letter 'x' only: the shape of a FiveTypes size list. */
  predicate DigitsOrX(s: string)
  {
    forall i :: 0 <= i < |s| ==> s[i] == 'x' || Strs.IsDigit(s[i])
  }

  /** Splitting at 'x' a string whose first part has no 'x' yields that part first. */
  lemma {:induction false} SplitFirst(a: string, rest: string)
    requires Strs.AllDigits(a)
    ensures Strs.Split(a + "x" + rest, "x") == [a] + Strs.Split(rest, "x")
    decreases |a|
  {
    var s := a + "x" + rest;
    if a == [] {
      assert s[..1] == "x";
      assert s[1..] == rest;
    } else {
      assert s[0] == a[0] && Strs.IsDigit(a[0]);
      assert s[..1] != "x";
      assert s[1..] == a[1..] + "x" + rest;
      SplitFirst(a[1..], rest);
      assert [s[0]] + a[1..] == a;
    }
  }

  lemma {:induction false} SplitDigits(s: string)
    requires Strs.AllDigits(s)
    ensures Strs.Split(s, "x") == [s]
    decreases |s|
  {
    if |s| >= 1 {
      assert s[..1] != "x" by { assert Strs.IsDigit(s[0]); }
      SplitDigits(s[1..]);
      assert [s[0]] + s[1..] == s;
    }
  }

  /** A string of digits and 'x' has nothing for `replace` to remove when the pattern has another character. */
  lemma {:induction false} NoPatternInDigitsOrX(body: string, pat: string, j: nat)
    requires j < |pat| && !Strs.IsDigit(pat[j]) && pat[j] != 'x'
    requires DigitsOrX(body)
    ensures Strs.Replace(body, pat, "") == body
    decreases |body|
  {
    if |body| >= |pat| {
      assert body[..|pat|] != pat by { assert body[..|pat|][j] == body[j]; }
      assert DigitsOrX(body[1..]) by {
        forall i | 0 <= i < |body[1..]| ensures body[1..][i] == 'x' || Strs.IsDigit(body[1..][i]) {
          assert body[1..][i] == body[i + 1];
        }
      }
      NoPatternInDigitsOrX(body[1..], pat, j);
      assert [body[0]] + body[1..] == body;
    }
  }

  lemma RemovePrefix(prefix: string, body: string)
    requires prefix == "2CB-" && DigitsOrX(body)
    ensures Strs.Replace(prefix + body, prefix, "") == body
  {
    var s := prefix + body;
    assert s[..|prefix|] == prefix;
    assert s[|prefix|..] == body;
    NoPatternInDigitsOrX(body, prefix, 3);
  }

  lemma JoinDigitsOrX(a: string, b: string)
    requires Strs.AllDigits(a) && DigitsOrX(b)
    ensures DigitsOrX(a + "x" + b)
  {
    var s := a + "x" + b;
    forall i | 0 <= i < |s| ensures s[i] == 'x' || Strs.IsDigit(s[i]) {
      if i < |a| { assert s[i] == a[i]; }
      else if i > |a| { assert s[i] == b[i - |a| - 1]; }
    }
  }

  /** The four sizes of `a x b x c x d`, all written as natural numbers. */
  lemma SizesOfBody(sa: string, sb: string, s1: string, s2: string)
    requires Strs.AllDigits(sa) && Strs.AllDigits(sb) && Strs.AllDigits(s1) && Strs.AllDigits(s2)
    ensures DigitsOrX(sa + "x" + (sb + "x" + (s1 + "x" + s2)))
    ensures Strs.Split(sa + "x" + (sb + "x" + (s1 + "x" + s2)), "x") == [sa, sb, s1, s2]
  {
    JoinDigitsOrX(s1, s2);
    JoinDigitsOrX(sb, s1 + "x" + s2);
    JoinDigitsOrX(sa, sb + "x" + (s1 + "x" + s2));
    SplitDigits(s2);
    SplitFirst(s1, s2);
    SplitFirst(sb, s1 + "x" + s2);
    SplitFirst(sa, sb + "x" + (s1 + "x" + s2));
  }

  /** A double channel whose size list splits into four numbers reads back those numbers. */
  lemma DoubleChannelOfParts(name: string, prefix: string, arrangement: string, a: real, b: real, t1: real, t2: real)
    requires |prefix| > 0
    requires var parts := Strs.Split(Strs.Replace(name, prefix, ""), "x");
      |parts| >= 4 && Strs.ParseFloat(parts[0]) == Some(a) && Strs.ParseFloat(parts[1]) == Some(b)
      && Strs.ParseFloat(parts[2]) == Some(t1) && Strs.ParseFloat(parts[3]) == Some(t2)
    ensures DoubleChannel(name, prefix, arrangement).Some?
    ensures var d := DoubleChannel(name, prefix, arrangement).value;
      Has(d, "overall_depth", Num(a)) && Has(d, "flange_width", Num(b)) && Has(d, "overall_width", Num(2.0 * b))
      && Has(d, "web_thickness", Num(t1)) && Has(d, "flange_thickness", Num(t2))
  {
  }

  /** A back-to-back channel named from whole millimetre sizes reads back those sizes. */
  lemma BackToBackRoundTrip(e: Element, a: nat, b: nat, t1: nat, t2: nat)
    requires Get(e, "name") == Some("2CB-" + (Strs.NatToString(a) + "x" + (Strs.NatToString(b) + "x"
      + (Strs.NatToString(t1) + "x" + Strs.NatToString(t2)))))
    ensures FiveTypesSection(e).Some?
    ensures var d := FiveTypesSection(e).value;
      Has(d, "section_type", Str("COMPOUND_CHANNEL")) && Has(d, "arrangement", Str("BACK_TO_BACK"))
      && Has(d, "overall_depth", Num(a as real)) && Has(d, "flange_width", Num(b as real))
      && Has(d, "overall_width", Num(2.0 * b as real))
      && Has(d, "web_thickness", Num(t1 as real)) && Has(d, "flange_thickness", Num(t2 as real))
  {
    var sa, sb, s1, s2 := Strs.NatToString(a), Strs.NatToString(b), Strs.NatToString(t1), Strs.NatToString(t2);
    var body := sa + "x" + (sb + "x" + (s1 + "x" + s2));
    var name := "2CB-" + body;
    FiveTypesBackToBack(e, body);
    SizesOfBody(sa, sb, s1, s2);
    RemovePrefix("2CB-", body);
    Strs.ParseNatToString(a);
    Strs.ParseNatToString(b);
    Strs.ParseNatToString(t1);
    Strs.ParseNatToString(t2);
    DoubleChannelOfParts(name, "2CB-", "BACK_TO_BACK", a as real, b as real, t1 as real, t2 as real);
  }

  lemma FiveTypesBackToBack(e: Element, body: string)
    requires Get(e, "name") == Some("2CB-" + body)
    ensures FiveTypesSection(e) == DoubleChannel("2CB-" + body, "2CB-", "BACK_TO_BACK")
  {
    assert Strs.StartsWith("2CB-" + body, "2CB-");
  }

  // ---------------------------------------------------------------- generic pass

  /** A processed section is stored under the element's id when the id is non-empty and the result is truthy. */
  predicate StoredBy(e: Element, proc: Element -> Option<Dict>, id: string)
  {
    HasTruthy(e, "id") && e.attrs["id"] == id && Present(proc(e))
  }

  /** The map after processing `es` in order, starting from `acc`. */
  function StoreAll(es: seq<Element>, proc: Element -> Option<Dict>, acc: map<string, Dict>): map<string, Dict>
  {
    if es == [] then acc
    else
      var m := StoreAll(es[..|es| - 1], proc, acc);
      var e := es[|es| - 1];
      if HasTruthy(e, "id") && Present(proc(e)) then m[e.attrs["id"] := proc(e).value] else m
  }

  /** One more element stores its truthy section under its id, or changes nothing. */
  lemma StoreAllSnoc(es: seq<Element>, proc: Element -> Option<Dict>, acc: map<string, Dict>, i: nat)
    requires i < |es|
    ensures StoreAll(es[..i + 1], proc, acc) ==
      if HasTruthy(es[i], "id") && Present(proc(es[i])) then StoreAll(es[..i], proc, acc)[es[i].attrs["id"] := proc(es[i]).value]
      else StoreAll(es[..i], proc, acc)
  {
    assert es[..i + 1][..i] == es[..i];
  }

  /** `acc.update(pass run from {})` is the pass run from `acc`: later entries override earlier ones either way. */
  lemma {:induction false} StoreAllUpdate(es: seq<Element>, proc: Element -> Option<Dict>, acc: map<string, Dict>)
    ensures acc + StoreAll(es, proc, map[]) == StoreAll(es, proc, acc)
    decreases |es|
  {
    if es != [] {
      StoreAllUpdate(es[..|es| - 1], proc, acc);
    }
  }

  /** An id is in the result exactly when it was in `acc` or some element stores under it. */
  lemma {:induction false} StoreAllKeys(es: seq<Element>, proc: Element -> Option<Dict>, acc: map<string, Dict>, id: string)
    ensures id in StoreAll(es, proc, acc) <==> id in acc || exists i :: 0 <= i < |es| && StoredBy(es[i], proc, id)
    decreases |es|
  {
    if es != [] {
      var front := es[..|es| - 1];
      StoreAllKeys(front, proc, acc, id);
      if exists i :: 0 <= i < |es| && StoredBy(es[i], proc, id) {
        var k :| 0 <= k < |es| && StoredBy(es[k], proc, id);
        if k < |front| {
          assert front[k] == es[k];
        }
      }
      if exists i :: 0 <= i < |front| && StoredBy(front[i], proc, id) {
        var k :| 0 <= k < |front| && StoredBy(front[k], proc, id);
        assert es[k] == front[k];
      }
    }
  }

  /**
   * Two passes run separately and merged with `update`: an id is present
   * when either pass stores under it, and the second pass wins.
   */
  lemma MergedPassKeys(es1: seq<Element>, p1: Element -> Option<Dict>, es2: seq<Element>, p2: Element -> Option<Dict>, id: string)
    ensures id in StoreAll(es1, p1, map[]) + StoreAll(es2, p2, map[]) <==>
      (exists i :: 0 <= i < |es1| && StoredBy(es1[i], p1, id)) || (exists i :: 0 <= i < |es2| && StoredBy(es2[i], p2, id))
    ensures (exists i :: 0 <= i < |es2| && StoredBy(es2[i], p2, id)) ==>
      (id in StoreAll(es2, p2, map[]) && (StoreAll(es1, p1, map[]) + StoreAll(es2, p2, map[]))[id] == StoreAll(es2, p2, map[])[id])
  {
    StoreAllKeys(es1, p1, map[], id);
    StoreAllKeys(es2, p2, map[], id);
  }

  /** One pass of an extractor: its elements and its per-element processor. */
  datatype Pass = Pass(es: seq<Element>, proc: Element -> Option<Dict>)

  /** Some element of the pass stores a section under `id`. */
  predicate StoredIn(p: Pass, id: string)
  {
    exists i :: 0 <= i < |p.es| && StoredBy(p.es[i], p.proc, id)
  }

  /** The passes run each from an empty map and merged in order with `update`. */
  function MergePasses(ps: seq<Pass>): map<string, Dict>
  {
    if ps == [] then map[]
    else MergePasses(ps[..|ps| - 1]) + StoreAll(ps[|ps| - 1].es, ps[|ps| - 1].proc, map[])
  }

  /** Merging one more pass updates the merge so far with that pass's map. */
  lemma MergePassesStep(ps: seq<Pass>, k: nat)
    requires k < |ps|
    ensures MergePasses(ps[..k + 1]) == MergePasses(ps[..k]) + StoreAll(ps[k].es, ps[k].proc, map[])
  {
    assert ps[..k + 1][..k] == ps[..k];
  }

  /** An id is present after the merge exactly when one of the passes stores under it. */
  lemma {:induction false} MergePassesKeys(ps: seq<Pass>, id: string)
    ensures id in MergePasses(ps) <==> exists k :: 0 <= k < |ps| && StoredIn(ps[k], id)
    decreases |ps|
  {
    if ps != [] {
      var front := ps[..|ps| - 1];
      var last := ps[|ps| - 1];
      MergePassesKeys(front, id);
      StoreAllKeys(last.es, last.proc, map[], id);
      assert id in StoreAll(last.es, last.proc, map[]) <==> StoredIn(last, id);
      if exists k :: 0 <= k < |front| && StoredIn(front[k], id) {
        var k :| 0 <= k < |front| && StoredIn(front[k], id);
        assert ps[k] == front[k];
      }
      if exists k :: 0 <= k < |ps| && StoredIn(ps[k], id) {
        var k :| 0 <= k < |ps| && StoredIn(ps[k], id);
        if k < |front| {
          assert front[k] == ps[k];
        }
      }
    }
  }

  /** The section stored under an id is the one of the last element that stores under it. */
  lemma {:induction false} StoreAllLast(es: seq<Element>, proc: Element -> Option<Dict>, acc: map<string, Dict>, id: string, i: nat)
    requires i < |es| && StoredBy(es[i], proc, id)
    requires forall j :: i < j < |es| ==> !StoredBy(es[j], proc, id)
    ensures id in StoreAll(es, proc, acc) && StoreAll(es, proc, acc)[id] == proc(es[i]).value
    decreases |es|
  {
    if i < |es| - 1 {
      var front := es[..|es| - 1];
      assert !StoredBy(es[|es| - 1], proc, id);
      assert front[i] == es[i];
      StoreAllLast(front, proc, acc, id, i);
    }
  }

  /** An id no element stores under keeps its value from `acc`. */
  lemma {:induction false} StoreAllUntouched(es: seq<Element>, proc: Element -> Option<Dict>, acc: map<string, Dict>, id: string)
    requires id in acc
    requires forall i :: 0 <= i < |es| ==> !StoredBy(es[i], proc, id)
    ensures id in StoreAll(es, proc, acc) && StoreAll(es, proc, acc)[id] == acc[id]
    decreases |es|
  {
    if es != [] {
      var front := es[..|es| - 1];
      assert !StoredBy(es[|es| - 1], proc, id);
      StoreAllUntouched(front, proc, acc, id);
    }
  }

  /** An element with an empty or missing id never contributes a section. */
  lemma IdLessSkipped(es: seq<Element>, proc: Element -> Option<Dict>, acc: map<string, Dict>, e: Element)
    requires !HasTruthy(e, "id")
    ensures StoreAll(es + [e], proc, acc) == StoreAll(es, proc, acc)
  {
    assert (es + [e])[..|es|] == es;
  }

  /**
   * One pass of the per-id loop: the elements are visited in order and every
   * truthy result is written into `acc` under the element's id.
   */
  method StorePass(es: seq<Element>, proc: Element -> Option<Dict>, acc: map<string, Dict>) returns (data: map<string, Dict>)
    ensures data == StoreAll(es, proc, acc)
  {
    data := acc;
    var i := 0;
    while i < |es|
      invariant 0 <= i <= |es|
      invariant data == StoreAll(es[..i], proc, acc)
    {
      var e := es[i];
      if HasTruthy(e, "id") {
        var info := proc(e);
        if Present(info) {
          data := data[e.attrs["id"] := info.value];
        }
      }
      i := i + 1;
      assert es[..i][..i - 1] == es[..i - 1];
    }
    assert es[..i] == es;
  }

  /**
   * `extract_steel_sections_generic` / `extract_rc_sections_generic` over the
   * elements the xpath found: every truthy result is stored under its id.
   */
  method ExtractSectionsGeneric(es: seq<Element>, proc: Element -> Option<Dict>) returns (data: map<string, Dict>)
    ensures data == StoreAll(es, proc, map[])
    ensures forall id :: id in data ==> exists i :: 0 <= i < |es| && StoredBy(es[i], proc, id)
  {
    data := StorePass(es, proc, map[]);
    forall id | id in data ensures exists i :: 0 <= i < |es| && StoredBy(es[i], proc, id) {
      StoreAllKeys(es, proc, map[], id);
    }
  }
}
