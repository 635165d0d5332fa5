/**
 * The pile section extractor (stbParser/pile_section_extractor.py): product,
 * RC and steel piles, each kind read through the same configuration-driven
 * pass, stored as circles of half the first readable diameter.
 */
module PileSection {
  import opened Wrappers
  import opened Values
  import opened Xml
  import Strs
  import opened SectionBase

  /** One entry of the pile configuration table. */
  datatype PileConfig = PileConfig(element: string, figure: string, childTags: seq<string>, diameterAttrs: seq<string>)

  const ProductPiles: PileConfig := PileConfig("StbSecPileProduct", "StbSecFigurePileProduct",
    ["StbSecPileProduct_SC", "StbSecPileProduct_PHC", "StbSecPileProduct_PC", "StbSecPileProduct_ST"], ["D"])

  /** RC piles try `D` first and then `D_axial`. */
  const RcPiles: PileConfig := PileConfig("StbSecPile_RC", "StbSecFigurePile_RC",
    ["StbSecPile_RC_Straight", "StbSecPile_RC_ExtendedFoot", "StbSecPile_RC_ExtendedTop", "StbSecPile_RC_ExtendedTopFoot"], ["D", "D_axial"])

  const SteelPiles: PileConfig := PileConfig("StbSecPile_S", "StbSecFigurePile_S",
    ["StbSecPile_S_Straight", "StbSecPile_S_Rotational", "StbSecPile_S_Taper"], ["D"])

  /** The configurations in the order the extractor applies them. */
  const PileConfigs: seq<PileConfig> := [ProductPiles, RcPiles, SteelPiles]

  // ---------------------------------------------------------------- diameter

  /** The attribute is non-empty and `float` accepts it. */
  predicate Parses(c: Element, attr: string)
  {
    HasTruthy(c, attr) && Strs.ParseFloat(c.attrs[attr]).Some?
  }

  /** The value of the first attribute in `attrs` that parses. */
  function FirstParsed(c: Element, attrs: seq<string>): (r: Option<real>)
  {
    if attrs == [] then None
    else if Parses(c, attrs[0]) then Strs.ParseFloat(c.attrs[attrs[0]])
    else FirstParsed(c, attrs[1..])
  }

  /** The first attribute that parses decides; every earlier one is skipped. */
  lemma {:induction false} FirstParsedSpec(c: Element, attrs: seq<string>)
    ensures FirstParsed(c, attrs).Some? <==> exists j :: 0 <= j < |attrs| && Parses(c, attrs[j])
    ensures FirstParsed(c, attrs).Some? ==> exists j :: (0 <= j < |attrs| && Parses(c, attrs[j])
      && FirstParsed(c, attrs) == Strs.ParseFloat(c.attrs[attrs[j]]) && forall k :: 0 <= k < j ==> !Parses(c, attrs[k]))
    decreases |attrs|
  {
    if attrs != [] && !Parses(c, attrs[0]) {
      var rest := attrs[1..];
      FirstParsedSpec(c, rest);
      assert forall j :: 1 <= j < |attrs| ==> rest[j - 1] == attrs[j];
      if FirstParsed(c, rest).Some? {
        var j :| 0 <= j < |rest| && Parses(c, rest[j]) && FirstParsed(c, rest) == Strs.ParseFloat(c.attrs[rest[j]])
          && forall k :: 0 <= k < j ==> !Parses(c, rest[k]);
        assert Parses(c, attrs[j + 1]) && forall k :: 0 <= k < j + 1 ==> !Parses(c, attrs[k]);
      }
    }
  }

  /** The child `tag` exists and one of `attrs` on it parses. */
  predicate TagGives(fig: Element, tag: string, attrs: seq<string>)
  {
    Child(fig, tag).Some? && FirstParsed(Child(fig, tag).value, attrs).Some?
  }

  /** The first child tag, in table order, that is present and has a readable diameter. */
  function DiameterOver(fig: Element, tags: seq<string>, attrs: seq<string>): (r: Option<real>)
  {
    if tags == [] then None
    else if TagGives(fig, tags[0], attrs) then FirstParsed(Child(fig, tags[0]).value, attrs)
    else DiameterOver(fig, tags[1..], attrs)
  }

  /** The first child tag with a readable diameter decides; every earlier tag is absent or unreadable. */
  lemma {:induction false} DiameterOverSpec(fig: Element, tags: seq<string>, attrs: seq<string>)
    ensures DiameterOver(fig, tags, attrs).Some? <==> exists j :: 0 <= j < |tags| && TagGives(fig, tags[j], attrs)
    ensures DiameterOver(fig, tags, attrs).Some? ==> exists j :: (0 <= j < |tags| && TagGives(fig, tags[j], attrs)
      && DiameterOver(fig, tags, attrs) == FirstParsed(Child(fig, tags[j]).value, attrs)
      && forall k :: 0 <= k < j ==> !TagGives(fig, tags[k], attrs))
    decreases |tags|
  {
    if tags != [] && !TagGives(fig, tags[0], attrs) {
      var rest := tags[1..];
      DiameterOverSpec(fig, rest, attrs);
      assert forall j :: 1 <= j < |tags| ==> rest[j - 1] == tags[j];
      if DiameterOver(fig, rest, attrs).Some? {
        var j :| 0 <= j < |rest| && TagGives(fig, rest[j], attrs) && DiameterOver(fig, rest, attrs) == FirstParsed(Child(fig, rest[j]).value, attrs)
          && forall k :: 0 <= k < j ==> !TagGives(fig, rest[k], attrs);
        assert TagGives(fig, tags[j + 1], attrs) && forall k :: 0 <= k < j + 1 ==> !TagGives(fig, tags[k], attrs);
      }
    }
  }

  /** `_parse_diameter_generic` as a value: nothing without the figure element. */
  function Diameter(sec: Element, config: PileConfig): (r: Option<real>)
    ensures Child(sec, config.figure).None? ==> r.None?
  {
    match Child(sec, config.figure)
    case None => None
    case Some(fig) => DiameterOver(fig, config.childTags, config.diameterAttrs)
  }

  /**
   * `_parse_diameter_generic`: the child tags in order, and for each present
   * child the diameter attributes in order; the first value `float` accepts
   * is returned, and an unreadable one moves on to the next.
   */
  method ParseDiameter(sec: Element, config: PileConfig) returns (d: Option<real>)
    ensures d == Diameter(sec, config)
  {
    var fig := Child(sec, config.figure);
    if fig.None? {
      return None;
    }
    var tags := config.childTags;
    var attrs := config.diameterAttrs;
    var i := 0;
    while i < |tags|
      invariant 0 <= i <= |tags|
      invariant Diameter(sec, config) == DiameterOver(fig.value, tags[i..], attrs)
    {
      assert tags[i..][1..] == tags[i + 1..];
      var child := Child(fig.value, tags[i]);
      if child.Some? {
        var j := 0;
        while j < |attrs|
          invariant 0 <= j <= |attrs|
          invariant FirstParsed(child.value, attrs) == FirstParsed(child.value, attrs[j..])
        {
          assert attrs[j..][1..] == attrs[j + 1..];
          var v := Get(child.value, attrs[j]);
          if v.Some? && v.value != "" {
            var p := Strs.ParseFloat(v.value);
            if p.Some? {
              return p;
            }
          }
          j := j + 1;
        }
      }
      i := i + 1;
    }
    return None;
  }

  /** An RC pile without a usable `D` on its first present child falls back to that child's `D_axial`. */
  lemma RcFallsBackToDAxial(sec: Element, fig: Element, c: Element)
    requires Child(sec, "StbSecFigurePile_RC") == Some(fig)
    requires Child(fig, "StbSecPile_RC_Straight") == Some(c)
    requires !Parses(c, "D") && Parses(c, "D_axial")
    ensures Diameter(sec, RcPiles) == Strs.ParseFloat(c.attrs["D_axial"])
  {
    assert RcPiles.diameterAttrs[1..] == ["D_axial"];
    assert FirstParsed(c, RcPiles.diameterAttrs) == FirstParsed(c, ["D_axial"]);
  }

  // ---------------------------------------------------------------- sections

  /** The circle of a pile. */
  function PileDict(radius: real, name: Value): (p: Dict)
    ensures Has(p, "section_type", Str("CIRCLE")) && Has(p, "radius", Num(radius)) && Has(p, "stb_name", name)
  {
    map["section_type" := Str("CIRCLE"), "radius" := Num(radius), "stb_name" := name]
  }

  /** One pile: stored only for a non-zero diameter, as a circle of half that diameter. */
  function PileSectionOf(sec: Element, config: PileConfig): (r: Option<Dict>)
    ensures r.Some? <==> TruthyNum(Diameter(sec, config))
    ensures r.Some? ==> Has(r.value, "radius", Num(Diameter(sec, config).value / 2.0)) && Has(r.value, "section_type", Str("CIRCLE"))
  {
    CircleOf(Diameter(sec, config), NameOf(sec))
  }

  /** The circle of half a non-zero diameter, or nothing. */
  function CircleOf(d: Option<real>, name: Value): Option<Dict>
  {
    if TruthyNum(d) then Some(PileDict(d.value / 2.0, name)) else None
  }

  /** A zero or missing diameter gives no circle; any other one the circle of half of it. */
  lemma CircleCases(d: Option<real>, name: Value)
    ensures !TruthyNum(d) ==> CircleOf(d, name).None?
    ensures TruthyNum(d) ==> CircleOf(d, name) == Some(PileDict(d.value / 2.0, name))
  {
  }

  function PileProc(config: PileConfig): Element -> Option<Dict>
  {
    sec => PileSectionOf(sec, config)
  }

  /** The processor of a kind is `PileSectionOf` for that kind. */
  lemma PileProcIs(e: Element, config: PileConfig)
    ensures PileProc(config)(e) == PileSectionOf(e, config)
  {
  }

  /** Given the diameter it reads, a pile's section is a circle of half that diameter, or nothing for zero. */
  lemma PileSectionIs(e: Element, config: PileConfig, d: Option<real>)
    requires d == Diameter(e, config)
    ensures PileSectionOf(e, config) == CircleOf(d, NameOf(e))
  {
  }

  /** One more pile of a kind: stored under its id exactly when the id is non-empty and the diameter non-zero. */
  lemma PileGroupStep(es: seq<Element>, config: PileConfig, i: nat, d: Option<real>)
    requires i < |es| && d == Diameter(es[i], config)
    ensures StoreAll(es[..i + 1], PileProc(config), map[]) ==
      if HasTruthy(es[i], "id") && TruthyNum(d) then StoreAll(es[..i], PileProc(config), map[])[es[i].attrs["id"] := PileDict(d.value / 2.0, NameOf(es[i]))]
      else StoreAll(es[..i], PileProc(config), map[])
  {
    PileProcIs(es[i], config);
    PileSectionIs(es[i], config, d);
    CircleCases(d, NameOf(es[i]));
    if TruthyNum(d) {
      assert "section_type" in PileDict(d.value / 2.0, NameOf(es[i]));
    }
    StoreAllSnoc(es, PileProc(config), map[], i);
  }

  /** `_extract_pile_sections_generic`: the piles of one kind, each stored under its non-empty id. */
  method ExtractPileGroup(es: seq<Element>, config: PileConfig) returns (data: map<string, Dict>)
    ensures data == StoreAll(es, PileProc(config), map[])
  {
    data := map[];
    var i := 0;
    while i < |es|
      invariant 0 <= i <= |es|
      invariant data == StoreAll(es[..i], PileProc(config), map[])
    {
      var d := ParseDiameter(es[i], config);
      PileGroupStep(es, config, i, d);
      if HasTruthy(es[i], "id") && TruthyNum(d) {
        data := data[es[i].attrs["id"] := PileDict(d.value / 2.0, NameOf(es[i]))];
      }
      i := i + 1;
    }
    assert es[..i] == es;
  }

  /** The passes of the kinds in `cs`, in order. */
  function PilePasses(s: Element, cs: seq<PileConfig>): (r: seq<Pass>)
    ensures |r| == |cs| && forall k :: 0 <= k < |cs| ==> r[k] == Pass(AllBelow(s, cs[k].element), PileProc(cs[k]))
  {
    if cs == [] then [] else PilePasses(s, cs[..|cs| - 1]) + [Pass(AllBelow(s, cs[|cs| - 1].element), PileProc(cs[|cs| - 1]))]
  }

  /** A pile id is present exactly when one of the three kinds stores a pile under it. */
  lemma PileSectionsKeys(root: Element, id: string)
    requires Below(root, "StbSections").Some?
    ensures var s := Below(root, "StbSections").value;
      id in PileSectionsData(root) <==>
        exists k :: 0 <= k < |PileConfigs| && StoredIn(Pass(AllBelow(s, PileConfigs[k].element), PileProc(PileConfigs[k])), id)
  {
    var s := Below(root, "StbSections").value;
    var ps := PilePasses(s, PileConfigs);
    MergePassesKeys(ps, id);
    if exists k :: 0 <= k < |PileConfigs| && StoredIn(Pass(AllBelow(s, PileConfigs[k].element), PileProc(PileConfigs[k])), id) {
      var k :| 0 <= k < |PileConfigs| && StoredIn(Pass(AllBelow(s, PileConfigs[k].element), PileProc(PileConfigs[k])), id);
      assert ps[k] == Pass(AllBelow(s, PileConfigs[k].element), PileProc(PileConfigs[k]));
    }
  }

  /** The map `PileSectionExtractor.extract_sections` returns. */
  function PileSectionsData(root: Element): map<string, Dict>
  {
    match Below(root, "StbSections")
    case None => map[]
    case Some(s) => MergePasses(PilePasses(s, PileConfigs))
  }

  /** `PileSectionExtractor.extract_sections`: the three kinds in table order, each merged with `update`. */
  method ExtractPileSections(root: Element) returns (data: map<string, Dict>)
    ensures data == PileSectionsData(root)
  {
    data := map[];
    var sections := Below(root, "StbSections");
    if sections.None? {
      return;
    }
    var s := sections.value;
    var k := 0;
    while k < |PileConfigs|
      invariant 0 <= k <= |PileConfigs|
      invariant data == MergePasses(PilePasses(s, PileConfigs)[..k])
    {
      var config := PileConfigs[k];
      var group := ExtractPileGroup(AllBelow(s, config.element), config);
      MergePassesStep(PilePasses(s, PileConfigs), k);
      data := data + group;
      k := k + 1;
    }
    assert PilePasses(s, PileConfigs)[..k] == PilePasses(s, PileConfigs);
  }
}
