/**
 * The wall section extractor (stbParser/wall_section_extractor.py): an RC
 * wall section is the thickness of its Straight figure.
 */
module WallSection {
  import opened Wrappers
  import opened Values
  import opened Xml
  import opened SectionBase

  /** `_process_wall_section`: the Straight figure's `t` must parse; a zero thickness is still stored. */
  function RcWallSection(sec: Element): (r: Option<Dict>)
    ensures var t := ChildPath(sec, "StbSecFigureWall_RC", "StbSecWall_RC_Straight");
      r.Some? <==> t.Some? && FloatAttr(t.value, "t", None).Some?
    ensures r.Some? ==>
      var t := ChildPath(sec, "StbSecFigureWall_RC", "StbSecWall_RC_Straight").value;
      (Has(r.value, "section_type", Str("RECTANGLE")) && Has(r.value, "thickness", Num(FloatAttr(t, "t", None).value))
        && Has(r.value, "stb_name", NameOf(sec)))
    ensures r.Some? ==> ("strength_concrete" in r.value <==> HasTruthy(sec, "strength_concrete"))
    ensures r.Some? && HasTruthy(sec, "strength_concrete") ==> Has(r.value, "strength_concrete", Str(sec.attrs["strength_concrete"]))
  {
    match ChildPath(sec, "StbSecFigureWall_RC", "StbSecWall_RC_Straight")
    case None => None
    case Some(t) =>
      match FloatAttr(t, "t", None)
      case None => None
      case Some(thickness) => Some(ThicknessDict("RECTANGLE", thickness, NameOf(sec), Get(sec, "strength_concrete")))
  }

  function WallProc(): Element -> Option<Dict> { RcWallSection }

  /** The map `WallSectionExtractor.extract_sections` returns. */
  function WallSectionsData(root: Element): map<string, Dict>
  {
    match Below(root, "StbSections")
    case None => map[]
    case Some(s) => StoreAll(AllBelow(s, "StbSecWall_RC"), WallProc(), map[])
  }

  /** `WallSectionExtractor.extract_sections`: every stored id belongs to a wall section with a readable thickness. */
  method ExtractWallSections(root: Element) returns (data: map<string, Dict>)
    ensures data == WallSectionsData(root)
    ensures Below(root, "StbSections").Some? ==>
      var walls := AllBelow(Below(root, "StbSections").value, "StbSecWall_RC");
      forall id :: id in data ==> exists i :: 0 <= i < |walls| && StoredBy(walls[i], WallProc(), id)
  {
    var sections := Below(root, "StbSections");
    if sections.None? {
      return map[];
    }
    data := ExtractSectionsGeneric(AllBelow(sections.value, "StbSecWall_RC"), WallProc());
  }
}
