/**
 * The slab section extractor (stbParser/slab_section_extractor.py): RC slab
 * sections (a straight depth, or the BASE or TIP depth of a taper) and deck
 * slab sections, merged into one map with deck entries taking precedence.
 */
module SlabSection {
  import opened Wrappers
  import opened Values
  import opened Xml
  import opened SectionBase

  // ---------------------------------------------------------------- RC slabs

  /** The last element whose `pos` attribute is exactly `pos`. */
  function LastPos(es: seq<Element>, pos: string): (r: Option<Element>)
    ensures r.None? <==> forall i :: 0 <= i < |es| ==> Get(es[i], "pos") != Some(pos)
    ensures r.Some? ==> exists i :: (0 <= i < |es| && es[i] == r.value && Get(es[i], "pos") == Some(pos)
      && forall j :: i < j < |es| ==> Get(es[j], "pos") != Some(pos))
  {
    if es == [] then None
    else
      var front := es[..|es| - 1];
      if Get(es[|es| - 1], "pos") == Some(pos) then Some(es[|es| - 1])
      else
        var r := LastPos(front, pos);
        assert forall i :: 0 <= i < |front| ==> front[i] == es[i];
        r
  }

  /**
   * The taper loop of `_process_slab_section`: every Taper element is
   * visited and the last BASE and the last TIP are remembered.
   */
  method FindTaperEnds(tapers: seq<Element>) returns (base: Option<Element>, tip: Option<Element>)
    ensures base == LastPos(tapers, "BASE") && tip == LastPos(tapers, "TIP")
  {
    base, tip := None, None;
    var i := 0;
    while i < |tapers|
      invariant 0 <= i <= |tapers|
      invariant base == LastPos(tapers[..i], "BASE") && tip == LastPos(tapers[..i], "TIP")
    {
      var pos := Get(tapers[i], "pos");
      if pos == Some("BASE") {
        base := Some(tapers[i]);
      } else if pos == Some("TIP") {
        tip := Some(tapers[i]);
      }
      i := i + 1;
      assert tapers[..i][..i - 1] == tapers[..i - 1];
    }
    assert tapers[..i] == tapers;
  }

  /** Where an RC slab's depth is read from. */
  datatype DepthSource = Straight(elem: Element) | TaperBase(elem: Element) | TaperTip(elem: Element) | NoDepth

  /** The Taper elements of an RC slab's figure. */
  function Tapers(sec: Element): seq<Element>
  {
    ChildrenOfAll(Children(sec, "StbSecFigureSlab_RC"), "StbSecSlab_RC_Taper")
  }

  /** A Straight figure decides alone; otherwise the BASE taper is preferred to the TIP taper. */
  function DepthSourceOf(sec: Element): (r: DepthSource)
    ensures var straight := ChildPath(sec, "StbSecFigureSlab_RC", "StbSecSlab_RC_Straight");
      straight.Some? ==> r == Straight(straight.value)
    ensures ChildPath(sec, "StbSecFigureSlab_RC", "StbSecSlab_RC_Straight").None? ==>
      var base := LastPos(Tapers(sec), "BASE"); var tip := LastPos(Tapers(sec), "TIP");
      r == (if base.Some? then TaperBase(base.value) else if tip.Some? then TaperTip(tip.value) else NoDepth)
  {
    match ChildPath(sec, "StbSecFigureSlab_RC", "StbSecSlab_RC_Straight")
    case Some(straight) => Straight(straight)
    case None =>
      var base := LastPos(Tapers(sec), "BASE");
      var tip := LastPos(Tapers(sec), "TIP");
      if base.Some? then TaperBase(base.value) else if tip.Some? then TaperTip(tip.value) else NoDepth
  }

  /**
   * `_process_slab_section`: the depth of the chosen source must parse (an
   * unparsable Straight or BASE depth is not replaced by another source); a
   * taper gives section type TAPER, a straight slab RECTANGLE.
   */
  function RcSlabSection(sec: Element): (r: Option<Dict>)
    ensures DepthSourceOf(sec).NoDepth? ==> r.None?
    ensures !DepthSourceOf(sec).NoDepth? ==> (r.Some? <==> FloatAttr(DepthSourceOf(sec).elem, "depth", None).Some?)
    ensures r.Some? ==> (Has(r.value, "thickness", Num(FloatAttr(DepthSourceOf(sec).elem, "depth", None).value))
      && Has(r.value, "section_type", Str(if DepthSourceOf(sec).Straight? then "RECTANGLE" else "TAPER"))
      && Has(r.value, "stb_name", NameOf(sec)))
    ensures r.Some? ==> ("strength_concrete" in r.value <==> HasTruthy(sec, "strength_concrete"))
  {
    var src := DepthSourceOf(sec);
    if src.NoDepth? then None
    else
      match FloatAttr(src.elem, "depth", None)
      case None => None
      case Some(d) => Some(ThicknessDict(if src.Straight? then "RECTANGLE" else "TAPER", d, NameOf(sec), Get(sec, "strength_concrete")))
  }

  // ---------------------------------------------------------------- deck slabs

  /** The dictionary of a deck slab section. */
  function DeckDict(depth: real, productType: string, code: string, deckDepth: real, name: Value): (p: Dict)
    ensures Has(p, "section_type", Str("SLAB_DECK")) && Has(p, "thickness", Num(depth)) && Has(p, "stb_name", name)
    ensures Has(p, "product_type", Str(productType)) && Has(p, "product_code", Str(code)) && Has(p, "depth_deck", Num(deckDepth))
  {
    map["section_type" := Str("SLAB_DECK"), "thickness" := Num(depth), "product_type" := Str(productType),
      "product_code" := Str(code), "depth_deck" := Num(deckDepth), "stb_name" := name]
  }

  /** The product code and deck depth: "Undefined" and 0.0 without a product element or its attributes. */
  function ProductInfo(sec: Element): (r: (string, real))
    ensures Child(sec, "StbSecProductSlabDeck").None? ==> r == ("Undefined", 0.0)
    ensures var p := Child(sec, "StbSecProductSlabDeck");
      p.Some? ==> (r.0 == GetOr(p.value, "product_code", "Undefined")
        && r.1 == (if FloatAttr(p.value, "depth_deck", None).Some? then FloatAttr(p.value, "depth_deck", None).value else 0.0))
  {
    match Child(sec, "StbSecProductSlabDeck")
    case None => ("Undefined", 0.0)
    case Some(p) => (GetOr(p, "product_code", "Undefined"), FloatAttr(p, "depth_deck", None).GetOr(0.0))
  }

  /** `_process_slab_deck_section`: the DeckStraight depth must parse; product type defaults to FLAT. */
  function DeckSection(sec: Element): (r: Option<Dict>)
    ensures var s := ChildPath(sec, "StbSecFigureSlabDeck", "StbSecSlabDeckStraight");
      r.Some? <==> s.Some? && FloatAttr(s.value, "depth", None).Some?
    ensures r.Some? ==>
      var s := ChildPath(sec, "StbSecFigureSlabDeck", "StbSecSlabDeckStraight").value;
      r.value == DeckDict(FloatAttr(s, "depth", None).value, GetOr(sec, "product_type", "FLAT"), ProductInfo(sec).0,
        ProductInfo(sec).1, NameOf(sec))
  {
    match ChildPath(sec, "StbSecFigureSlabDeck", "StbSecSlabDeckStraight")
    case None => None
    case Some(s) =>
      match FloatAttr(s, "depth", None)
      case None => None
      case Some(d) =>
        var (code, deckDepth) := ProductInfo(sec);
        Some(DeckDict(d, GetOr(sec, "product_type", "FLAT"), code, deckDepth, NameOf(sec)))
  }

  // ---------------------------------------------------------------- the extractor

  /** The per-section processors of the two passes, as values. */
  function RcProc(): Element -> Option<Dict> { RcSlabSection }

  function DeckProc(): Element -> Option<Dict> { DeckSection }

  /** The map `SlabSectionExtractor.extract_sections` returns: RC sections updated with deck sections. */
  function SlabSectionsData(root: Element): map<string, Dict>
  {
    match Below(root, "StbSections")
    case None => map[]
    case Some(s) => StoreAll(AllBelow(s, "StbSecSlab_RC"), RcProc(), map[]) + StoreAll(AllBelow(s, "StbSecSlabDeck"), DeckProc(), map[])
  }

  /**
   * A slab id is present exactly when an RC slab or a deck slab stores a
   * section under it; a deck section replaces an RC section with the same id.
   */
  lemma SlabSectionsKeys(root: Element, id: string)
    requires Below(root, "StbSections").Some?
    ensures var s := Below(root, "StbSections").value;
      var rcs := AllBelow(s, "StbSecSlab_RC"); var decks := AllBelow(s, "StbSecSlabDeck");
      (id in SlabSectionsData(root) <==>
        (exists i :: 0 <= i < |rcs| && StoredBy(rcs[i], RcProc(), id))
        || (exists i :: 0 <= i < |decks| && StoredBy(decks[i], DeckProc(), id)))
      && ((exists i :: 0 <= i < |decks| && StoredBy(decks[i], DeckProc(), id)) ==>
        (id in StoreAll(decks, DeckProc(), map[]) && SlabSectionsData(root)[id] == StoreAll(decks, DeckProc(), map[])[id]))
  {
    var s := Below(root, "StbSections").value;
    MergedPassKeys(AllBelow(s, "StbSecSlab_RC"), RcProc(), AllBelow(s, "StbSecSlabDeck"), DeckProc(), id);
  }

  /** `extract_deck_sections_generic`: the deck loop, storing each truthy section under its non-empty id. */
  method ExtractDeckSections(es: seq<Element>) returns (sections: map<string, Dict>)
    ensures sections == StoreAll(es, DeckProc(), map[])
  {
    sections := StorePass(es, DeckProc(), map[]);
  }

  /** `SlabSectionExtractor.extract_sections`. */
  method ExtractSlabSections(root: Element) returns (data: map<string, Dict>)
    ensures data == SlabSectionsData(root)
  {
    var sections := Below(root, "StbSections");
    if sections.None? {
      return map[];
    }
    var s := sections.value;
    var rc := ExtractSectionsGeneric(AllBelow(s, "StbSecSlab_RC"), RcProc());
    var deck := ExtractDeckSections(AllBelow(s, "StbSecSlabDeck"));
    data := rc + deck;
  }
}
