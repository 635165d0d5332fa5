/**
 * The footing section extractor (stbParser/footing_section_extractor.py): an
 * RC foundation section is a rectangle with positive widths and depth.
 */
module FootingSection {
  import opened Wrappers
  import opened Values
  import opened Xml
  import opened SectionBase

  /** A dimension read with default 0.0: an absent or unparsable attribute counts as 0.0. */
  function Dim(rect: Element, name: string): (v: real)
    ensures name !in rect.attrs ==> v == 0.0
  {
    FloatAttr(rect, name, Some(0.0)).GetOr(0.0)
  }

  /** The rectangle dictionary: both spellings of the widths, and the depth as the thickness too. */
  function FoundationRectDict(wx: real, wy: real, depth: real): (p: Dict)
    ensures Has(p, "section_type", Str("RECTANGLE")) && Has(p, "depth", Num(depth)) && Has(p, "thickness", Num(depth))
    ensures Has(p, "width_X", Num(wx)) && Has(p, "width_x", Num(wx)) && Has(p, "width_Y", Num(wy)) && Has(p, "width_y", Num(wy))
    ensures "strength_concrete" !in p && "id" !in p && "stb_name" !in p
  {
    map["section_type" := Str("RECTANGLE"), "width_X" := Num(wx), "width_Y" := Num(wy), "width_x" := Num(wx),
      "width_y" := Num(wy), "depth" := Num(depth), "thickness" := Num(depth)]
  }

  /** `_extract_foundation_rc_rect`: all three dimensions must be positive. */
  function FoundationRect(rect: Element): (r: Option<Dict>)
    ensures r.Some? <==> Dim(rect, "width_X") > 0.0 && Dim(rect, "width_Y") > 0.0 && Dim(rect, "depth") > 0.0
    ensures r.Some? ==> (Has(r.value, "section_type", Str("RECTANGLE")) && Has(r.value, "thickness", Num(Dim(rect, "depth")))
      && Has(r.value, "depth", Num(Dim(rect, "depth")))
      && Has(r.value, "width_x", Num(Dim(rect, "width_X"))) && Has(r.value, "width_y", Num(Dim(rect, "width_Y")))
      && Has(r.value, "width_X", Num(Dim(rect, "width_X"))) && Has(r.value, "width_Y", Num(Dim(rect, "width_Y")))
      && "strength_concrete" !in r.value && "id" !in r.value && "stb_name" !in r.value)
  {
    var wx := Dim(rect, "width_X");
    var wy := Dim(rect, "width_Y");
    var d := Dim(rect, "depth");
    if wx <= 0.0 || wy <= 0.0 || d <= 0.0 then None else Some(FoundationRectDict(wx, wy, d))
  }

  /** A rectangle missing any of its three dimensions is rejected, since the default 0.0 is not positive. */
  lemma MissingDimensionRejected(rect: Element, name: string)
    requires name == "width_X" || name == "width_Y" || name == "depth"
    requires name !in rect.attrs
    ensures FoundationRect(rect).None?
  {
  }

  /** The Rect child of the foundation figure, when both exist. */
  function FoundationRectElem(sec: Element): Option<Element>
  {
    match Child(sec, "StbSecFigureFoundation_RC")
    case None => None
    case Some(fig) => Child(fig, "StbSecFoundation_RC_Rect")
  }

  /** A foundation rectangle labelled with the section's id, name and non-empty concrete strength. */
  function Labelled(d: Dict, id: Value, name: Value, strength: Option<string>): (p: Dict)
    ensures Has(p, "id", id) && Has(p, "stb_name", name)
    ensures forall k :: k in d && k != "id" && k != "stb_name" && k != "strength_concrete" ==> Has(p, k, d[k])
    ensures "strength_concrete" in p <==> "strength_concrete" in d || (strength.Some? && strength.value != "")
  {
    WithConcrete(d["id" := id]["stb_name" := name], strength)
  }

  /**
   * `_process_foundation_section`: a valid Rect, labelled with the section's
   * id and name and, when non-empty, its concrete strength.
   */
  function RcFoundationSection(sec: Element): (r: Option<Dict>)
    ensures r.Some? <==> FoundationRectElem(sec).Some? && FoundationRect(FoundationRectElem(sec).value).Some?
    ensures r.Some? ==>
      var rect := FoundationRectElem(sec).value;
      (Has(r.value, "id", OptStr(Get(sec, "id"))) && Has(r.value, "stb_name", NameOf(sec))
        && Has(r.value, "section_type", Str("RECTANGLE")) && Has(r.value, "thickness", Num(Dim(rect, "depth")))
        && Has(r.value, "width_x", Num(Dim(rect, "width_X"))) && Has(r.value, "width_y", Num(Dim(rect, "width_Y"))))
    ensures r.Some? ==> ("strength_concrete" in r.value <==> HasTruthy(sec, "strength_concrete"))
  {
    match FoundationRectElem(sec)
    case None => None
    case Some(rect) =>
      match FoundationRect(rect)
      case None => None
      case Some(d) => Some(Labelled(d, OptStr(Get(sec, "id")), NameOf(sec), Get(sec, "strength_concrete")))
  }

  function FoundationProc(): Element -> Option<Dict> { RcFoundationSection }

  /** The map `FootingSectionExtractor.extract_sections` returns. */
  function FootingSectionsData(root: Element): map<string, Dict>
  {
    match Below(root, "StbSections")
    case None => map[]
    case Some(s) => StoreAll(AllBelow(s, "StbSecFoundation_RC"), FoundationProc(), map[])
  }

  /** `FootingSectionExtractor.extract_sections`: every stored id belongs to a foundation with a valid rectangle. */
  method ExtractFootingSections(root: Element) returns (data: map<string, Dict>)
    ensures data == FootingSectionsData(root)
    ensures Below(root, "StbSections").Some? ==>
      var fs := AllBelow(Below(root, "StbSections").value, "StbSecFoundation_RC");
      forall id :: id in data ==> exists i :: 0 <= i < |fs| && StoredBy(fs[i], FoundationProc(), id)
  {
    var sections := Below(root, "StbSections");
    if sections.None? {
      return map[];
    }
    data := ExtractSectionsGeneric(AllBelow(sections.value, "StbSecFoundation_RC"), FoundationProc());
  }
}
