/**
 * The brace section extractor (stbParser/brace_section_extractor.py): a
 * steel brace section is the Same shape of its steel figure, parsed by the
 * generic shape dispatch.
 */
module BraceSection {
  import opened Wrappers
  import opened Values
  import opened Xml
  import opened SectionBase

  /** The Same element of a brace and its cached steel shape. */
  function BraceRef(sec: Element, cache: map<string, Element>): Option<SteelRef>
  {
    FindSteel(Path(sec, "StbSecSteelFigureBrace_S", "StbSecSteelBrace_S_Same"), cache)
  }

  /**
   * `_process_brace_section`: a Same configuration whose shape is cached and
   * parses; the result carries the Same element's `strength_main` (possibly
   * `None`) and the brace's name.
   */
  function SteelBraceSection(sec: Element, cache: map<string, Element>): (r: Option<Dict>)
    ensures r.Some? <==> BraceRef(sec, cache).Some? && Present(ShapeParams(BraceRef(sec, cache).value.steel))
    ensures r.Some? ==> (SteelType(r.value) && Has(r.value, "stb_name", NameOf(sec))
      && Has(r.value, "strength_main", OptStr(Get(BraceRef(sec, cache).value.figure, "strength_main"))))
    ensures Path(sec, "StbSecSteelFigureBrace_S", "StbSecSteelBrace_S_Same").None? ==> r.None?
  {
    match BraceRef(sec, cache)
    case None => None
    case Some(ref) =>
      var d := ShapeParams(ref.steel);
      if Present(d) then Some(d.value["strength_main" := OptStr(ref.strengthMain)]["stb_name" := NameOf(sec)]) else None
  }

  function BraceProc(cache: map<string, Element>): Element -> Option<Dict>
  {
    sec => SteelBraceSection(sec, cache)
  }

  /** The map `BraceSectionExtractor.extract_sections` returns. */
  function BraceSectionsData(root: Element, cache: map<string, Element>): map<string, Dict>
  {
    match Below(root, "StbSections")
    case None => map[]
    case Some(s) => StoreAll(AllBelow(s, "StbSecBrace_S"), BraceProc(cache), map[])
  }

  /** `BraceSectionExtractor.extract_sections`: every stored id belongs to a brace whose Same shape parses. */
  method ExtractBraceSections(root: Element) returns (data: map<string, Dict>)
    ensures data == BraceSectionsData(root, SteelCache(root))
    ensures Below(root, "StbSections").Some? ==>
      var braces := AllBelow(Below(root, "StbSections").value, "StbSecBrace_S");
      forall id :: id in data ==> exists i :: 0 <= i < |braces| && StoredBy(braces[i], BraceProc(SteelCache(root)), id)
  {
    var cache := BuildSteelSectionCache(root);
    var sections := Below(root, "StbSections");
    if sections.None? {
      return map[];
    }
    data := ExtractSectionsGeneric(AllBelow(sections.value, "StbSecBrace_S"), BraceProc(cache));
  }
}
