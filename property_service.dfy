/**
 * The property sets of the created elements
 * (ifcCreator/services/property_service.py): per kind of element a Common
 * set, a set of end-point coordinates for linear members and a set of
 * section dimensions, each followed by the relation that attaches it to the
 * element; the typed property list of `create_structural_properties`; the
 * material property dictionary; and a single attached property set.
 *
 * Property sets are built as values: the list a call returns, in order.
 * The IFC file is present or not (`hasFile`); the entities a failing call
 * has already added to it are not part of this model. The square root of
 * the brace length is the parameter `norm`.
 */
module PropertyService {
  import opened Wrappers
  import opened Values
  import Strs
  import opened StructuralSection
  import opened Vectors
  import V = Validator
  import StructuralGeometry

  /** A definition handed to the service: tag, end points and section as the creators build it. */
  type Def = map<string, Obj>

  /** The nominal value of an IfcPropertySingleValue. */
  datatype Nominal =
    | Label(text: Obj)
    | Boolean(flag: Value)
    | Length(length: Value)
    | Identifier(ident: Value)

  /** An IfcPropertySingleValue. */
  datatype Property = Property(name: string, nominal: Nominal)

  /** An IfcPropertySet. */
  datatype PropertySet = PropertySet(name: string, properties: seq<Property>)

  /** What the service adds to its list: a property set, or the relation attaching one to elements. */
  datatype Entity =
    | PsetEntity(pset: PropertySet)
    | RelEntity(relatedObjects: seq<Value>, relating: PropertySet)

  /** The element kinds that get property sets. */
  datatype Kind = BeamKind | ColumnKind | SlabKind | WallKind | BraceKind

  /** The kind named by an element type, compared lowered. */
  function KindOf(elementType: string): (k: Option<Kind>)
    ensures k == Some(BeamKind) <==> Strs.Lower(elementType) == "beam"
    ensures k == Some(ColumnKind) <==> Strs.Lower(elementType) == "column"
    ensures k == Some(SlabKind) <==> Strs.Lower(elementType) == "slab"
    ensures k == Some(WallKind) <==> Strs.Lower(elementType) == "wall"
    ensures k == Some(BraceKind) <==> Strs.Lower(elementType) == "brace"
  {
    var t := Strs.Lower(elementType);
    if t == "beam" then Some(BeamKind)
    else if t == "column" then Some(ColumnKind)
    else if t == "slab" then Some(SlabKind)
    else if t == "wall" then Some(WallKind)
    else if t == "brace" then Some(BraceKind)
    else None
  }

  /** The Common set of a kind; braces are IfcMember objects. */
  function CommonSetName(k: Kind): string
  {
    match k
    case BeamKind => "Pset_BeamCommon"
    case ColumnKind => "Pset_ColumnCommon"
    case SlabKind => "Pset_SlabCommon"
    case WallKind => "Pset_WallCommon"
    case BraceKind => "Pset_MemberCommon"
  }

  /** `definition.get("tag", "")`. */
  function TagOf(d: Def): Obj
  {
    if "tag" in d then d["tag"] else Plain(Str(""))
  }

  /** The four Common properties every kind shares: the tag as reference, internal, load-bearing, no fire rating. */
  function CommonProperties(d: Def): (ps: seq<Property>)
    ensures |ps| == 4
    ensures ps[0] == Property("Reference", Label(TagOf(d)))
    ensures ps[1].name == "IsExternal" && ps[2].name == "LoadBearing" && ps[3].name == "FireRating"
  {
    [
      Property("Reference", Label(TagOf(d))),
      Property("IsExternal", Boolean(Bool(false))),
      Property("LoadBearing", Boolean(Bool(true))),
      Property("FireRating", Label(Plain(Str(""))))
    ]
  }

  /** A property set followed by the relation attaching it to the element. */
  function Attach(pset: PropertySet, element: Value): (es: seq<Entity>)
    ensures |es| == 2 && es[0] == PsetEntity(pset) && es[1] == RelEntity([element], pset)
  {
    [PsetEntity(pset), RelEntity([element], pset)]
  }

  /** The list is made of property sets each followed by its relation to `element`. */
  predicate Paired(es: seq<Entity>, element: Value)
  {
    |es| % 2 == 0 &&
    forall i :: 0 <= i < |es| / 2 ==>
      es[2 * i].PsetEntity? && es[2 * i + 1] == RelEntity([element], es[2 * i].pset)
  }

  /** Two paired lists one after the other are paired. */
  lemma PairedAppend(a: seq<Entity>, b: seq<Entity>, element: Value)
    requires Paired(a, element) && Paired(b, element)
    ensures Paired(a + b, element)
  {
    var ab := a + b;
    forall i | 0 <= i < |ab| / 2
      ensures ab[2 * i].PsetEntity? && ab[2 * i + 1] == RelEntity([element], ab[2 * i].pset)
    {
      if i < |a| / 2 {
        assert ab[2 * i] == a[2 * i] && ab[2 * i + 1] == a[2 * i + 1];
      } else {
        var j := i - |a| / 2;
        assert 2 * i == |a| + 2 * j;
        assert ab[2 * i] == b[2 * j] && ab[2 * i + 1] == b[2 * j + 1];
      }
    }
  }

  /** An optional set attached, or nothing. */
  function AttachOpt(pset: Option<PropertySet>, element: Value): (es: seq<Entity>)
    ensures Paired(es, element)
    ensures pset.None? <==> es == []
    ensures pset.Some? ==> es == Attach(pset.value, element)
  {
    if pset.Some? then Attach(pset.value, element) else []
  }

  /** `a.x` on an end point: only a `Point3D` has coordinates. */
  function Coordinates(o: Obj): (r: Result<(Value, Value, Value)>)
    ensures r.Ok? <==> o.Point3?
    ensures o.Point3? ==> r.value == (o.x, o.y, o.z)
  {
    if o.Point3? then Ok((o.x, o.y, o.z)) else Err(AttributeError("object has no attribute 'x'"))
  }

  /** A coordinate in Python arithmetic: a number or a bool, else TypeError. */
  function Arith(v: Value): (r: Result<real>)
    ensures r.Ok? <==> V.Numeric(v)
    ensures v.Num? ==> r == Ok(v.r)
  {
    if V.Numeric(v) then Ok(V.NumValue(v)) else Err(TypeError("unsupported operand type"))
  }

  function Abs(x: real): real { if x < 0.0 then -x else x }

  /** The six coordinate properties, the start under `first` and the end under `second`. */
  function PointProperties(first: string, second: string, s: (Value, Value, Value), e: (Value, Value, Value)): (ps: seq<Property>)
    ensures |ps| == 6
    ensures ps[0] == Property(first + "X", Length(s.0)) && ps[5] == Property(second + "Z", Length(e.2))
  {
    [
      Property(first + "X", Length(s.0)), Property(first + "Y", Length(s.1)), Property(first + "Z", Length(s.2)),
      Property(second + "X", Length(e.0)), Property(second + "Y", Length(e.1)), Property(second + "Z", Length(e.2))
    ]
  }

  /** The column's height: the vertical distance between its ends, whichever is lower. */
  function ColumnHeight(bottomZ: Value, topZ: Value): (r: Result<real>)
    ensures r.Ok? <==> V.Numeric(bottomZ) && V.Numeric(topZ)
    ensures r.Ok? ==> r.value >= 0.0 && (r.value == V.NumValue(topZ) - V.NumValue(bottomZ) || r.value == V.NumValue(bottomZ) - V.NumValue(topZ))
  {
    match (Arith(bottomZ), Arith(topZ))
    case (Ok(b), Ok(t)) => Ok(Abs(t - b))
    case (Err(e), _) => Err(e)
    case (_, Err(e)) => Err(e)
  }

  /** The brace's length: `norm` of the difference of its ends. */
  function BraceLength(s: (Value, Value, Value), e: (Value, Value, Value), norm: Vec3 -> real): (r: Result<real>)
    ensures r.Ok? <==> V.Numeric(s.0) && V.Numeric(s.1) && V.Numeric(s.2) && V.Numeric(e.0) && V.Numeric(e.1) && V.Numeric(e.2)
    ensures r.Ok? ==> r.value == norm(Sub(
      Vec3(V.NumValue(e.0), V.NumValue(e.1), V.NumValue(e.2)),
      Vec3(V.NumValue(s.0), V.NumValue(s.1), V.NumValue(s.2))))
  {
    if V.Numeric(s.0) && V.Numeric(s.1) && V.Numeric(s.2) && V.Numeric(e.0) && V.Numeric(e.1) && V.Numeric(e.2) then
      Ok(norm(Vec3(V.NumValue(e.0) - V.NumValue(s.0), V.NumValue(e.1) - V.NumValue(s.1), V.NumValue(e.2) - V.NumValue(s.2))))
    else Err(TypeError("unsupported operand type"))
  }

  /**
   * The coordinate set of a linear member, when the definition has both end
   * points: a beam's start and end, a column's bottom and top with its
   * height, a brace's start and end with its length. An end that is not a
   * point, or a coordinate that is not a number where one is computed with,
   * raises.
   */
  function CoordinateSet(k: Kind, d: Def, norm: Vec3 -> real): (r: Result<Option<PropertySet>>)
    requires k == BeamKind || k == ColumnKind || k == BraceKind
    ensures !("start_point" in d && "end_point" in d) ==> r == Ok(None)
    ensures "start_point" in d && "end_point" in d && !(d["start_point"].Point3? && d["end_point"].Point3?) ==> r.Err?
    ensures r.Ok? && r.value.Some? ==> "start_point" in d && "end_point" in d
  {
    if "start_point" in d && "end_point" in d then
      match (Coordinates(d["start_point"]), Coordinates(d["end_point"]))
      case (Ok(s), Ok(e)) =>
        (match k
         case BeamKind => Ok(Some(PropertySet("Pset_BeamReferenceLineCoordinates", PointProperties("StartPoint", "EndPoint", s, e))))
         case ColumnKind =>
           (match ColumnHeight(s.2, e.2)
            case Ok(h) =>
              Ok(Some(PropertySet("Pset_ColumnCoordinates",
                PointProperties("BottomPoint", "TopPoint", s, e) + [Property("Height", Length(Num(h)))])))
            case Err(err) => Err(err))
         case BraceKind =>
           (match BraceLength(s, e, norm)
            case Ok(len) =>
              Ok(Some(PropertySet("Pset_BraceCoordinates",
                PointProperties("StartPoint", "EndPoint", s, e) + [Property("Length", Length(Num(len)))])))
            case Err(err) => Err(err)))
      case (Err(err), _) => Err(err)
      case (_, Err(err)) => Err(err)
    else Ok(None)
  }

  /** `hasattr(section, name)` and its value: a section object's own parts and properties, a point's coordinates. */
  function Attr(o: Obj, name: string): (r: Option<Value>)
    ensures o.Plain? ==> r.None?
    ensures o.Section? && name in o.s.properties ==> r == Some(o.s.properties[name])
    ensures o.Section? && name == "section_type" && name !in o.s.properties ==> r == Some(o.s.sectionType)
  {
    match o
    case Plain(_) => None
    case Point3(x, y, z) =>
      if name == "x" then Some(x) else if name == "y" then Some(y) else if name == "z" then Some(z) else None
    case Section(s) =>
      if name in s.properties then Some(s.properties[name])
      else if name == "name" then Some(s.name)
      else if name == "section_type" then Some(s.sectionType)
      else if name == "properties" then Some(Dict(s.properties))
      else None
  }

  /** The attribute is there and truthy. */
  predicate Given(o: Obj, attr: string)
  {
    Attr(o, attr).Some? && Truthy(Attr(o, attr).value)
  }

  /** One length property for a truthy attribute, none otherwise. */
  function Dimension(o: Obj, attr: string, name: string): (ps: seq<Property>)
    ensures Given(o, attr) ==> ps == [Property(name, Length(Attr(o, attr).value))]
    ensures !Given(o, attr) ==> ps == []
  {
    if Given(o, attr) then [Property(name, Length(Attr(o, attr).value))] else []
  }

  /** The dimension properties of a section, in the order the kind lists them. */
  function SectionProperties(k: Kind, o: Obj): (ps: seq<Property>)
    requires k == BeamKind || k == ColumnKind || k == BraceKind
    ensures k != BraceKind ==> (ps == [] <==> !Given(o, "width") && !Given(o, "height") && !Given(o, "thickness"))
    ensures k == BraceKind ==> (ps == [] <==>
      Attr(o, "section_type").None? && !Given(o, "overall_depth") && !Given(o, "flange_width") &&
      !Given(o, "web_thickness") && !Given(o, "flange_thickness") && !Given(o, "width") && !Given(o, "height"))
  {
    match k
    case BeamKind => Dimension(o, "width", "Width") + Dimension(o, "height", "Height") + Dimension(o, "thickness", "Thickness")
    case ColumnKind => Dimension(o, "width", "Width") + Dimension(o, "height", "Height") + Dimension(o, "thickness", "WallThickness")
    case BraceKind =>
      (if Attr(o, "section_type").Some? then [Property("SectionType", Label(Plain(Attr(o, "section_type").value)))] else []) +
      Dimension(o, "overall_depth", "OverallDepth") + Dimension(o, "flange_width", "FlangeWidth") +
      Dimension(o, "web_thickness", "WebThickness") + Dimension(o, "flange_thickness", "FlangeThickness") +
      Dimension(o, "width", "Width") + Dimension(o, "height", "Height")
  }

  function SectionSetName(k: Kind): string
  {
    match k
    case BeamKind => "Pset_SectionDimensions"
    case ColumnKind => "Pset_ColumnSectionDimensions"
    case BraceKind => "Pset_BraceSectionDimensions"
    case _ => ""
  }

  /** The section set: only for a definition with a section that yields at least one property. */
  function SectionSet(k: Kind, d: Def): (r: Option<PropertySet>)
    requires k == BeamKind || k == ColumnKind || k == BraceKind
    ensures r.Some? <==> "section" in d && SectionProperties(k, d["section"]) != []
    ensures r.Some? ==> r.value == PropertySet(SectionSetName(k), SectionProperties(k, d["section"]))
  {
    if "section" in d && SectionProperties(k, d["section"]) != [] then
      Some(PropertySet(SectionSetName(k), SectionProperties(k, d["section"])))
    else None
  }

  /**
   * `_create_beam_properties` and its siblings: the Common set, then for
   * linear members the coordinate set and the section set, each with its
   * relation.
   */
  function KindProperties(k: Kind, d: Def, element: Value, norm: Vec3 -> real): (r: Result<seq<Entity>>)
    ensures r.Ok? ==> Paired(r.value, element) && |r.value| >= 2
    ensures r.Ok? ==> r.value[..2] == Attach(PropertySet(CommonSetName(k), CommonProperties(d)), element)
    ensures k == SlabKind || k == WallKind ==> r == Ok(Attach(PropertySet(CommonSetName(k), CommonProperties(d)), element))
    ensures k != SlabKind && k != WallKind ==> (r.Ok? <==> CoordinateSet(k, d, norm).Ok?)
  {
    var common := Attach(PropertySet(CommonSetName(k), CommonProperties(d)), element);
    if k == SlabKind || k == WallKind then Ok(common)
    else
      match CoordinateSet(k, d, norm)
      case Ok(coords) =>
        var rest := AttachOpt(coords, element) + AttachOpt(SectionSet(k, d), element);
        PairedAppend(AttachOpt(coords, element), AttachOpt(SectionSet(k, d), element), element);
        PairedAppend(common, rest, element);
        assert (common + rest)[..2] == common;
        Ok(common + rest)
      case Err(e) => Err(e)
  }

  /**
   * `create_element_properties`: nothing without a file or for an unknown
   * element type; a kind whose sets raise part-way gives nothing either.
   */
  function ElementProperties(hasFile: bool, elementType: string, d: Def, element: Value, norm: Vec3 -> real): (r: seq<Entity>)
    ensures !hasFile ==> r == []
    ensures KindOf(elementType).None? ==> r == []
    ensures Paired(r, element)
    ensures hasFile && KindOf(elementType).Some? && KindProperties(KindOf(elementType).value, d, element, norm).Ok? ==>
      r == KindProperties(KindOf(elementType).value, d, element, norm).value
    ensures hasFile && KindOf(elementType).Some? && KindProperties(KindOf(elementType).value, d, element, norm).Err? ==> r == []
  {
    if !hasFile then []
    else
      match KindOf(elementType)
      case None => []
      case Some(k) =>
        match KindProperties(k, d, element, norm)
        case Ok(es) => es
        case Err(_) => []
  }

  /** Whatever the kind, a non-empty list starts with its Common set holding the same four properties. */
  lemma CommonSetFirst(hasFile: bool, elementType: string, d: Def, element: Value, norm: Vec3 -> real)
    requires ElementProperties(hasFile, elementType, d, element, norm) != []
    ensures var r := ElementProperties(hasFile, elementType, d, element, norm);
      KindOf(elementType).Some? && |r| >= 2 &&
      r[0] == PsetEntity(PropertySet(CommonSetName(KindOf(elementType).value), CommonProperties(d))) &&
      r[1] == RelEntity([element], r[0].pset)
  {
    var r := ElementProperties(hasFile, elementType, d, element, norm);
    var k := KindOf(elementType).value;
    assert r[0] == r[..2][0] && r[1] == r[..2][1];
  }

  /** Slabs and walls get exactly their Common set and its relation. */
  lemma SlabsAndWallsCommonOnly(elementType: string, d: Def, element: Value, norm: Vec3 -> real)
    requires KindOf(elementType) == Some(SlabKind) || KindOf(elementType) == Some(WallKind)
    ensures ElementProperties(true, elementType, d, element, norm) ==
      Attach(PropertySet(CommonSetName(KindOf(elementType).value), CommonProperties(d)), element)
  {
  }

  /** A column's Height property is the rise between its ends and does not change when the ends are swapped. */
  lemma ColumnHeightProperty(d: Def, norm: Vec3 -> real)
    requires "start_point" in d && "end_point" in d && d["start_point"].Point3? && d["end_point"].Point3?
    requires d["start_point"].z.Num? && d["end_point"].z.Num?
    ensures var r := CoordinateSet(ColumnKind, d, norm);
      r.Ok? && r.value.Some? && |r.value.value.properties| == 7 &&
      r.value.value.properties[6] == Property("Height", Length(Num(Abs(d["end_point"].z.r - d["start_point"].z.r))))
    ensures var swapped := d["start_point" := d["end_point"]]["end_point" := d["start_point"]];
      CoordinateSet(ColumnKind, swapped, norm).value.value.properties[6] == CoordinateSet(ColumnKind, d, norm).value.value.properties[6]
  {
    var b := d["start_point"].z.r;
    var t := d["end_point"].z.r;
    assert Abs(t - b) == Abs(b - t);
  }

  /** A brace's Length property is the span its geometry is built with. */
  lemma BraceLengthIsSpan(d: Def, norm: Vec3 -> real)
    requires "start_point" in d && "end_point" in d && d["start_point"].Point3? && d["end_point"].Point3?
    requires var s := d["start_point"]; var e := d["end_point"];
      s.x.Num? && s.y.Num? && s.z.Num? && e.x.Num? && e.y.Num? && e.z.Num?
    ensures var s := d["start_point"]; var e := d["end_point"];
      var start := Vec3(s.x.r, s.y.r, s.z.r);
      var end := Vec3(e.x.r, e.y.r, e.z.r);
      var r := CoordinateSet(BraceKind, d, norm);
      r.Ok? && r.value.Some? && |r.value.value.properties| == 7 &&
      r.value.value.properties[6] ==
        Property("Length", Length(Num(StructuralGeometry.BaseGeometry(start, end, StructuralGeometry.BRACE, norm).span)))
  {
  }

  /** Any section object gives a brace its section set, dimensions or not, since every one has a section type. */
  lemma BraceSectionObjectsAlwaysSet(d: Def)
    requires "section" in d && d["section"].Section?
    ensures SectionSet(BraceKind, d).Some?
  {
  }

  /** A beam section set appears exactly when the section has a truthy width, height or thickness. */
  lemma BeamSectionSetNeedsDimension(d: Def, element: Value, norm: Vec3 -> real)
    requires CoordinateSet(BeamKind, d, norm).Ok?
    ensures var r := KindProperties(BeamKind, d, element, norm).value;
      var s := if "section" in d then d["section"] else Plain(Null);
      (exists i :: 0 <= i < |r| && r[i] == PsetEntity(PropertySet("Pset_SectionDimensions", SectionProperties(BeamKind, s)))) <==>
      "section" in d && (Given(s, "width") || Given(s, "height") || Given(s, "thickness"))
  {
    var r := KindProperties(BeamKind, d, element, norm).value;
    var s := if "section" in d then d["section"] else Plain(Null);
    var pset := PropertySet("Pset_SectionDimensions", SectionProperties(BeamKind, s));
    var coords := CoordinateSet(BeamKind, d, norm).value;
    var common := PropertySet("Pset_BeamCommon", CommonProperties(d));
    assert r == Attach(common, element) + AttachOpt(coords, element) + AttachOpt(SectionSet(BeamKind, d), element);
    if SectionSet(BeamKind, d).Some? {
      assert r[|r| - 2] == PsetEntity(pset);
    } else {
      forall i | 0 <= i < |r|
        ensures r[i] != PsetEntity(pset)
      {
        if coords.Some? {
          assert coords.value.name == "Pset_BeamReferenceLineCoordinates";
        }
      }
    }
  }

  /** `create_material_properties`: the material, its strength class or "Default", and the creator's mark. */
  function MaterialProperties(materialName: Value, strengthClass: Value): (r: Dict)
    ensures r.Keys == {"material_name", "strength_class", "created_by"}
    ensures r["material_name"] == materialName
    ensures Truthy(strengthClass) ==> r["strength_class"] == strengthClass
    ensures !Truthy(strengthClass) ==> r["strength_class"] == Str("Default")
  {
    map[
      "material_name" := materialName,
      "strength_class" := if Truthy(strengthClass) then strengthClass else Str("Default"),
      "created_by" := Str("PropertyService v2.2.0")
    ]
  }

  /** One entry of `create_structural_properties`: name, declared type and value. */
  datatype Entry = Entry(name: string, kind: string, value: Value)

  /**
   * The property one entry gives: none for a `None` value, an unknown type
   * or a length that `float()` rejects.
   */
  function EntryProperty(e: Entry): (p: Option<Property>)
    ensures e.value == Null ==> p.None?
    ensures p.Some? ==> p.value.name == e.name
    ensures e.value != Null && e.kind == "boolean" ==> p == Some(Property(e.name, Boolean(e.value)))
    ensures e.value != Null && e.kind == "length" ==> (p.Some? <==> ToFloat(e.value).Ok?)
    ensures e.value != Null && e.kind !in {"boolean", "label", "length", "identifier"} ==> p.None?
  {
    if e.value == Null then None
    else if e.kind == "boolean" then Some(Property(e.name, Boolean(e.value)))
    else if e.kind == "label" then Some(Property(e.name, Label(Plain(e.value))))
    else if e.kind == "length" then
      (match ToFloat(e.value)
       case Ok(x) => Some(Property(e.name, Length(Num(x))))
       case Err(_) => None)
    else if e.kind == "identifier" then Some(Property(e.name, Identifier(e.value)))
    else None
  }

  /** The properties of the entries, in order, skipping those that give none. */
  function StructuralProperties(entries: seq<Entry>): (ps: seq<Property>)
    ensures |ps| <= |entries|
    ensures forall p :: p in ps ==> exists e :: e in entries && EntryProperty(e) == Some(p)
    ensures forall e :: e in entries && EntryProperty(e).Some? ==> EntryProperty(e).value in ps
  {
    if entries == [] then []
    else
      var prev := entries[..|entries| - 1];
      var last := entries[|entries| - 1];
      assert entries == prev + [last];
      StructuralProperties(prev) + (if EntryProperty(last).Some? then [EntryProperty(last).value] else [])
  }

  /** `create_structural_properties`: nothing without a file, else the entries' properties in order. */
  method CreateStructuralProperties(hasFile: bool, entries: seq<Entry>) returns (ps: seq<Property>)
    ensures !hasFile ==> ps == []
    ensures hasFile ==> ps == StructuralProperties(entries)
  {
    ps := [];
    if !hasFile {
      return;
    }
    var i := 0;
    while i < |entries|
      invariant 0 <= i <= |entries|
      invariant ps == StructuralProperties(entries[..i])
    {
      assert entries[..i + 1][..i] == entries[..i];
      var p := EntryProperty(entries[i]);
      if p.Some? {
        ps := ps + [p.value];
      }
      i := i + 1;
    }
    assert entries[..i] == entries;
  }

  /** A value of `None` never gives a property, whatever its declared type. */
  lemma NoneSkipped(entries: seq<Entry>, name: string)
    requires forall e :: e in entries && e.name == name ==> e.value == Null
    ensures forall p :: p in StructuralProperties(entries) ==> p.name != name
  {
  }

  /** `create_property_set`: without a file nothing; else the set, with its relation to the target added beside it. */
  function CreatePropertySet(hasFile: bool, name: string, properties: seq<Property>, target: Value): (r: Option<(PropertySet, seq<Entity>)>)
    ensures r.None? <==> !hasFile
    ensures r.Some? ==> r.value.0 == PropertySet(name, properties) && r.value.1 == Attach(r.value.0, target)
  {
    if hasFile then Some((PropertySet(name, properties), Attach(PropertySet(name, properties), target))) else None
  }
}
