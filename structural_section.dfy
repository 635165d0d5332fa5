/**
 * The section object the IFC creators work with
 * (ifcCreator/utils/structural_section.py): a name, a section type and a
 * dictionary of further properties. Equality compares exactly those three
 * parts, `to_dict` nests the properties and `from_dict` accepts either that
 * nested form or the flat dictionaries the section extractors produce.
 *
 * `Obj` is what the creators find in a processed definition: a plain value,
 * a `Point3D` (common/geometry.py) or a section object.
 */
module StructuralSection {
  import opened Wrappers
  import opened Values

  /** The value of a section object: the three parts `__eq__` compares. */
  datatype SectionData = SectionData(name: Value, sectionType: Value, properties: Dict)

  /** A Python object of a processed definition. */
  datatype Obj =
    | Plain(v: Value)
    | Point3(x: Value, y: Value, z: Value)
    | Section(s: SectionData)

  /** Truthiness of such an object: `Point3D` and section objects are always true. */
  predicate ObjTruthy(o: Obj)
  {
    match o
    case Plain(v) => Truthy(v)
    case Point3(_, _, _) => true
    case Section(_) => true
  }

  /** The keyword arguments the constructor names itself; a property may not reuse them. */
  predicate Reserved(k: string)
  {
    k == "name" || k == "section_type"
  }

  /** A section the constructor can build: no property shadows a keyword argument. */
  predicate Constructible(s: SectionData)
  {
    forall k :: k in s.properties ==> !Reserved(k)
  }

  /** `__eq__`: name, section type and properties all agree. */
  predicate SectionEq(a: SectionData, b: SectionData)
  {
    a.name == b.name && a.sectionType == b.sectionType && a.properties == b.properties
  }

  /** Two sections are equal exactly when they are the same value. */
  lemma SectionEqIsIdentity(a: SectionData, b: SectionData)
    ensures SectionEq(a, b) <==> a == b
  {
  }

  /** `to_dict`: the properties are nested under "properties". */
  function ToDict(s: SectionData): (d: Dict)
    ensures d.Keys == {"name", "section_type", "properties"}
    ensures d["name"] == s.name && d["section_type"] == s.sectionType && d["properties"] == Dict(s.properties)
  {
    map["name" := s.name, "section_type" := s.sectionType, "properties" := Dict(s.properties)]
  }

  /** The properties of a flat dictionary: every key except name, section_type and stb_name. */
  function FlatProperties(d: Dict): (p: Dict)
    ensures forall k :: k in p <==> k in d && k != "name" && k != "section_type" && k != "stb_name"
    ensures forall k :: k in p ==> p[k] == d[k]
  {
    map k | k in d && k != "name" && k != "section_type" && k != "stb_name" :: d[k]
  }

  /** The name `from_dict` takes: "name", else "stb_name", else the empty string. */
  function NameOf(d: Dict): (n: Value)
    ensures "name" in d ==> n == d["name"]
    ensures "name" !in d && "stb_name" in d ==> n == d["stb_name"]
    ensures "name" !in d && "stb_name" !in d ==> n == Str("")
  {
    if "name" in d then d["name"] else LookupOr(d, "stb_name", Str(""))
  }

  /**
   * `from_dict`. A nested "properties" value that is not a dict, or one that
   * repeats a keyword argument, makes the constructor call raise TypeError.
   */
  function FromDict(d: Dict): (r: Result<SectionData>)
    ensures r.Ok? ==> r.value.name == NameOf(d) && r.value.sectionType == LookupOr(d, "section_type", Str(""))
    ensures r.Ok? ==> Constructible(r.value)
    ensures "properties" !in d ==> r.Ok? && r.value.properties == FlatProperties(d)
    ensures "properties" in d ==> (r.Ok? <==> d["properties"].Dict? && forall k :: k in d["properties"].m ==> !Reserved(k))
    ensures "properties" in d && r.Ok? ==> r.value.properties == d["properties"].m
  {
    var name := NameOf(d);
    var sectionType := LookupOr(d, "section_type", Str(""));
    if "properties" in d then
      match d["properties"]
      case Dict(p) =>
        if forall k :: k in p ==> !Reserved(k) then Ok(SectionData(name, sectionType, p))
        else Err(TypeError("got multiple values for keyword argument"))
      case _ => Err(TypeError("argument after ** must be a mapping"))
    else Ok(SectionData(name, sectionType, FlatProperties(d)))
  }

  /** `from_dict(to_dict(s)) == s` for every section the constructor can build. */
  lemma FromToDict(s: SectionData)
    requires Constructible(s)
    ensures FromDict(ToDict(s)) == Ok(s)
  {
    var d := ToDict(s);
    assert "properties" in d && d["properties"] == Dict(s.properties);
  }

  /** A flat extractor dictionary keeps its `stb_name` as the name when it has no "name". */
  lemma FromFlatUsesStbName(d: Dict)
    requires "name" !in d && "properties" !in d && "stb_name" in d
    ensures FromDict(d).Ok? && FromDict(d).value.name == d["stb_name"]
    ensures "stb_name" !in FromDict(d).value.properties && "section_type" !in FromDict(d).value.properties
  {
  }

  /** A mutable section object; `set_property` changes its properties in place. */
  class Section {
    var name: Value
    var sectionType: Value
    var properties: Dict

    /** The value the object currently stands for. */
    function Data(): (s: SectionData)
      reads this
      ensures s.properties == properties
    {
      SectionData(name, sectionType, properties)
    }

    /** `StructuralSection(name, section_type, **properties)`. */
    constructor (n: Value, t: Value, props: Dict)
      ensures Data() == SectionData(n, t, props)
    {
      name := n;
      sectionType := t;
      properties := props;
    }

    /** `get_property(key, default)`. */
    function GetProperty(key: string, default: Value): (v: Value)
      reads this
      ensures key in properties ==> v == properties[key]
      ensures key !in properties ==> v == default
    {
      LookupOr(properties, key, default)
    }

    /** `set_property(key, value)`: afterwards `get_property(key)` gives the value set; nothing else changes. */
    method SetProperty(key: string, value: Value)
      modifies this
      ensures properties == old(properties)[key := value]
      ensures name == old(name) && sectionType == old(sectionType)
      ensures GetProperty(key, Null) == value
      ensures forall k :: k != key ==> GetProperty(k, Null) == old(GetProperty(k, Null))
    {
      properties := properties[key := value];
    }
  }

  /** Setting a property named "name" leaves a section that `from_dict(to_dict(...))` cannot rebuild. */
  lemma NamePropertyBreaksRoundTrip(s: SectionData, v: Value)
    ensures FromDict(ToDict(s.(properties := s.properties["name" := v]))).Err?
  {
    var t := s.(properties := s.properties["name" := v]);
    assert ToDict(t)["properties"] == Dict(t.properties);
    assert "name" in t.properties && Reserved("name");
  }
}
