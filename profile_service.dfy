/**
 * Profiles (ifcCreator/services/profile_service.py): a profile is made from
 * a section's attributes for an element type and cached under a key built
 * from the type and the section's name, width, height and section type.
 *
 * A section is its attribute dictionary (`hasattr` is membership, `getattr`
 * a lookup); the IFC profile entities become `Profile` values; `show` is
 * Python's `str`.
 */
module ProfileService {
  import opened Wrappers
  import opened Values
  import Strs
  import Validator

  type Section = map<string, Value>

  /** `str(v)`. */
  function Text(v: Value, show: Value -> string): string
  {
    if v.Str? then v.s else show(v)
  }

  // ------------------------------------------------------------ the cache key

  /** The attributes the key is made of, with their prefixes, in order. */
  const KeyAttributes: seq<(string, string)> := [("name", "name:"), ("width", "w:"), ("height", "h:"), ("section_type", "type:")]

  function KeyParts(s: Section, attrs: seq<(string, string)>, show: Value -> string): (r: seq<string>)
    ensures |r| <= |attrs|
    ensures (forall i :: 0 <= i < |attrs| ==> attrs[i].0 !in s) ==> r == []
  {
    if attrs == [] then []
    else
      (if attrs[0].0 in s then [attrs[0].1 + Text(s[attrs[0].0], show)] else [])
      + KeyParts(s, attrs[1..], show)
  }

  /** `_generate_cache_key`: the element type, then "name:…", "w:…", "h:…", "type:…" for the attributes present, joined by "_". */
  function CacheKey(s: Section, elementType: string, show: Value -> string): (k: string)
    ensures elementType <= k
    ensures "name" !in s && "width" !in s && "height" !in s && "section_type" !in s ==> k == elementType
  {
    JoinPrefix(elementType, KeyParts(s, KeyAttributes, show))
  }

  function JoinPrefix(head: string, parts: seq<string>): (r: string)
    ensures head <= r
    ensures parts == [] ==> r == head
    decreases |parts|
  {
    if parts == [] then head else JoinPrefix(head + "_" + parts[0], parts[1..])
  }

  /** Two sections that agree on name, width, height and section type share a key, whatever their other dimensions. */
  lemma {:induction false} KeyIgnoresOtherAttributes(s1: Section, s2: Section, elementType: string, show: Value -> string)
    requires forall a :: a in ["name", "width", "height", "section_type"] ==> (a in s1 <==> a in s2) && (a in s1 ==> s1[a] == s2[a])
    ensures CacheKey(s1, elementType, show) == CacheKey(s2, elementType, show)
  {
    PartsAgree(s1, s2, KeyAttributes, show);
  }

  lemma {:induction false} PartsAgree(s1: Section, s2: Section, attrs: seq<(string, string)>, show: Value -> string)
    requires forall i :: 0 <= i < |attrs| ==> (attrs[i].0 in s1 <==> attrs[i].0 in s2) && (attrs[i].0 in s1 ==> s1[attrs[i].0] == s2[attrs[i].0])
    ensures KeyParts(s1, attrs, show) == KeyParts(s2, attrs, show)
  {
    if attrs != [] {
      PartsAgree(s1, s2, attrs[1..], show);
    }
  }

  // ------------------------------------------------------------ dimensions and offsets

  /** `_calculate_y_offset`: −height/2 for beams (centred on the top edge), 0 otherwise. */
  function YOffset(height: Value, elementType: string): (r: Result<real>)
    ensures Strs.Lower(elementType) != "beam" ==> r == Ok(0.0)
    ensures Strs.Lower(elementType) == "beam" && height.Num? ==> r == Ok(-height.r / 2.0)
    ensures Strs.Lower(elementType) == "beam" && height.Bool? ==> r == Ok(if height.b then -0.5 else 0.0)
    ensures Strs.Lower(elementType) == "beam" && !Validator.Numeric(height) ==> r.Err?
  {
    if Strs.Lower(elementType) == "beam" then
      if Validator.Numeric(height) then Ok(-Validator.NumValue(height) / 2.0) else Err(TypeError("bad operand type for unary -"))
    else Ok(0.0)
  }

  /** `_get_rectangle_dimensions`: width and height, or the column's width_x and width_y when missing. */
  function RectangleDimensions(s: Section): (r: (Value, Value))
    ensures Lookup(s, "width") != Null ==> r.0 == s["width"]
    ensures Lookup(s, "width") == Null ==> r.0 == Lookup(s, "width_x")
    ensures Lookup(s, "height") != Null ==> r.1 == s["height"]
    ensures Lookup(s, "height") == Null ==> r.1 == Lookup(s, "width_y")
  {
    var w := Lookup(s, "width");
    var h := Lookup(s, "height");
    (if w == Null then Lookup(s, "width_x") else w, if h == Null then Lookup(s, "width_y") else h)
  }

  const DimensionAttributes: seq<string> := ["width", "height", "thickness", "radius", "overall_depth",
    "overall_width", "web_thickness", "flange_thickness", "outer_diameter"]

  /** `_extract_dimensions`: the dimension attributes the section has. */
  function ExtractDimensions(s: Section): (r: Dict)
    ensures forall a :: a in r <==> a in DimensionAttributes && a in s
    ensures forall a :: a in r ==> r[a] == s[a]
  {
    map a | a in DimensionAttributes && a in s :: s[a]
  }

  // ------------------------------------------------------------ profiles

  datatype ProfileKind = RectangleProfile | CircleProfile | IShapeProfile | RectangleHollowProfile
    | CShapeProfile | CircleHollowProfile | LShapeProfile

  datatype Profile =
    | Placeholder(elementType: string, sectionType: Value, name: Value, dimensions: Dict)
    | Shape(kind: ProfileKind, name: Value, yOffset: real, parameters: seq<Value>)

  /** `getattr(section, "stb_name", None) or f"<prefix><dims joined by sep>"`. */
  function ProfileName(s: Section, prefix: string, dims: seq<Value>, sep: string, show: Value -> string): Value
  {
    if Truthy(Lookup(s, "stb_name")) then s["stb_name"]
    else Str(prefix + Strs.Join(seq(|dims|, i requires 0 <= i < |dims| => Text(dims[i], show)), sep))
  }

  /** `a or b` on two attributes. */
  function OrAttr(s: Section, a: string, b: string): Value
  {
    if Truthy(Lookup(s, a)) then s[a] else Lookup(s, b)
  }

  function Shaped(kind: ProfileKind, name: Value, offset: Result<real>, params: seq<Value>): (r: Result<Profile>)
    ensures offset.Ok? ==> r == Ok(Shape(kind, name, offset.value, params))
    ensures offset.Err? ==> r.Err?
  {
    match offset
    case Err(e) => Err(e)
    case Ok(y) => Ok(Shape(kind, name, y, params))
  }

  /** `_create_rectangle_profile`: width and height must exist. */
  function RectangleOf(s: Section, elementType: string, show: Value -> string): (r: Result<Profile>)
    ensures RectangleDimensions(s).0 == Null || RectangleDimensions(s).1 == Null ==> r == Err(ValueError("Width and height must be specified for rectangular section"))
    ensures r.Ok? ==> r.value.Shape? && r.value.kind == RectangleProfile && r.value.parameters == [RectangleDimensions(s).0, RectangleDimensions(s).1]
  {
    var (w, h) := RectangleDimensions(s);
    if w == Null || h == Null then Err(ValueError("Width and height must be specified for rectangular section"))
    else Shaped(RectangleProfile, ProfileName(s, "RectProfile_", [w, h], "x", show), YOffset(h, elementType), [w, h])
  }

  /** `_create_circle_profile`: the radius must exist; a beam is offset by the radius. */
  function CircleOf(s: Section, elementType: string, show: Value -> string): (r: Result<Profile>)
    ensures Lookup(s, "radius") == Null ==> r.Err?
    ensures s.Keys >= {"radius"} && s["radius"].Num? && Strs.Lower(elementType) == "beam" ==> r.Ok? && r.value.Shape? && r.value.yOffset == -s["radius"].r
  {
    var radius := Lookup(s, "radius");
    if radius == Null then Err(ValueError("Radius must be specified for circular section"))
    else
      var diameter := if radius.Num? then Num(radius.r * 2.0) else Null;
      Shaped(CircleProfile, ProfileName(s, "CircleProfile_R", [radius], "", show), YOffset(diameter, elementType), [radius])
  }

  /** `_create_h_profile`: all four H dimensions must exist. */
  function HShapeOf(s: Section, elementType: string, show: Value -> string): (r: Result<Profile>)
    ensures r.Ok? ==> forall a :: a in ["overall_depth", "overall_width", "web_thickness", "flange_thickness"] ==> Lookup(s, a) != Null
  {
    var d := Lookup(s, "overall_depth");
    var w := Lookup(s, "overall_width");
    var tw := Lookup(s, "web_thickness");
    var tf := Lookup(s, "flange_thickness");
    if d == Null || w == Null || tw == Null || tf == Null then Err(ValueError("H-shape parameters must be specified"))
    else Shaped(IShapeProfile, ProfileName(s, "HProfile_", [d, w, tw, tf], "x", show), YOffset(d, elementType),
      [d, w, tw, tf, Lookup(s, "fillet_radius")])
  }

  /** `_create_box_profile`: outer sizes fall back to width/height, wall thickness to thickness. */
  function BoxOf(s: Section, elementType: string, show: Value -> string): (r: Result<Profile>)
    ensures r.Ok? ==> r.value.Shape? && |r.value.parameters| == 4
    ensures r.Ok? ==> r.value.parameters[..3] == [OrAttr(s, "outer_width", "width"), OrAttr(s, "outer_height", "height"), OrAttr(s, "wall_thickness", "thickness")]
  {
    var w := OrAttr(s, "outer_width", "width");
    var h := OrAttr(s, "outer_height", "height");
    var t := OrAttr(s, "wall_thickness", "thickness");
    if w == Null || h == Null || t == Null then Err(ValueError("BOX section parameters must be specified"))
    else Shaped(RectangleHollowProfile, ProfileName(s, "BoxProfile_", [w, h, t], "x", show), YOffset(h, elementType),
      [w, h, t, Lookup(s, "corner_radius")])
  }

  /** `_create_channel_profile`: the flange thickness falls back to the web thickness. */
  function ChannelOf(s: Section, elementType: string, show: Value -> string): (r: Result<Profile>)
    ensures r.Ok? && !Truthy(Lookup(s, "flange_thickness")) ==> r.value.Shape? && |r.value.parameters| == 4 && r.value.parameters[3] == r.value.parameters[2]
  {
    var d := OrAttr(s, "overall_depth", "height");
    var w := OrAttr(s, "flange_width", "width");
    var tw := OrAttr(s, "web_thickness", "thickness");
    var tf := if Truthy(Lookup(s, "flange_thickness")) then s["flange_thickness"] else tw;
    if d == Null || w == Null || tw == Null then Err(ValueError("Channel section parameters must be specified"))
    else Shaped(CShapeProfile, ProfileName(s, "ChannelProfile_", [d, w], "x", show), YOffset(d, elementType), [d, w, tw, tf])
  }

  /** `_create_pipe_profile`: the radius is half the outer diameter. */
  function PipeOf(s: Section, elementType: string, show: Value -> string): (r: Result<Profile>)
    ensures r.Ok? ==> r.value.Shape? && |r.value.parameters| == 2 && Lookup(s, "outer_diameter").Num?
    ensures r.Ok? ==> r.value.parameters[0] == Num(Lookup(s, "outer_diameter").r / 2.0)
  {
    var od := Lookup(s, "outer_diameter");
    var t := OrAttr(s, "wall_thickness", "thickness");
    if od == Null || t == Null then Err(ValueError("Pipe section parameters must be specified"))
    else if !od.Num? then Err(TypeError("unsupported operand type for /"))
    else Shaped(CircleHollowProfile, ProfileName(s, "PipeProfile_D", [od, t], "x", show), YOffset(od, elementType), [Num(od.r / 2.0), t])
  }

  /** `_create_l_profile`. */
  function LShapeOf(s: Section, elementType: string, show: Value -> string): (r: Result<Profile>)
    ensures r.Ok? ==> Lookup(s, "width") != Null && Lookup(s, "height") != Null && Lookup(s, "thickness") != Null
  {
    var w := Lookup(s, "width");
    var h := Lookup(s, "height");
    var t := Lookup(s, "thickness");
    if w == Null || h == Null || t == Null then Err(ValueError("L section parameters must be specified"))
    else Shaped(LShapeProfile, ProfileName(s, "LProfile_", [w, h, t], "x", show), YOffset(h, elementType), [h, w, t])
  }

  /** `_create_simple_profile`: a placeholder without a file, else the profile of the section type; unknown types are rectangles. */
  function SimpleProfile(s: Section, elementType: string, hasFile: bool, show: Value -> string): (r: Result<Profile>)
    ensures !hasFile ==> r == Ok(Placeholder(elementType, LookupOr(s, "section_type", Str("Unknown")),
      LookupOr(s, "name", Str("DefaultProfile")), ExtractDimensions(s)))
    ensures hasFile && "section_type" !in s ==> r == RectangleOf(s, elementType, show)
    ensures hasFile && "section_type" in s && s["section_type"] !in
      [Str("RECTANGLE"), Str("CIRCLE"), Str("H"), Str("BOX"), Str("C"), Str("CHANNEL"), Str("PIPE"), Str("L")]
      ==> r == RectangleOf(s, elementType, show)
  {
    if !hasFile then
      Ok(Placeholder(elementType, LookupOr(s, "section_type", Str("Unknown")), LookupOr(s, "name", Str("DefaultProfile")), ExtractDimensions(s)))
    else
      var t := LookupOr(s, "section_type", Str("RECTANGLE"));
      if t == Str("RECTANGLE") then RectangleOf(s, elementType, show)
      else if t == Str("CIRCLE") then CircleOf(s, elementType, show)
      else if t == Str("H") then HShapeOf(s, elementType, show)
      else if t == Str("BOX") then BoxOf(s, elementType, show)
      else if t == Str("C") || t == Str("CHANNEL") then ChannelOf(s, elementType, show)
      else if t == Str("PIPE") then PipeOf(s, elementType, show)
      else if t == Str("L") then LShapeOf(s, elementType, show)
      else RectangleOf(s, elementType, show)
  }

  // ------------------------------------------------------------ the service

  class Service {
    const hasFile: bool
    var cache: map<string, Profile>
    /** The cache's keys in insertion order, as `get_cache_stats` lists them. */
    var keys: seq<string>

    ghost predicate Valid()
      reads this
    {
      (forall k :: k in keys <==> k in cache) && forall i, j :: 0 <= i < j < |keys| ==> keys[i] != keys[j]
    }

    constructor (hasFile: bool)
      ensures Valid() && this.hasFile == hasFile && cache == map[] && keys == []
    {
      this.hasFile := hasFile;
      cache := map[];
      keys := [];
    }

    /** `create_profile`: a cached key returns the cached profile; otherwise the new profile is cached, unless making it raises. */
    method CreateProfile(s: Section, elementType: string, show: Value -> string) returns (r: Result<Profile>)
      requires Valid()
      modifies this
      ensures Valid()
      ensures var k := CacheKey(s, elementType, show);
        k in old(cache) ==> r == Ok(old(cache)[k]) && cache == old(cache) && keys == old(keys)
      ensures var k := CacheKey(s, elementType, show);
        k !in old(cache) ==> r == SimpleProfile(s, elementType, hasFile, show)
      ensures var k := CacheKey(s, elementType, show);
        k !in old(cache) && r.Ok? ==> cache == old(cache)[k := r.value] && keys == old(keys) + [k]
      ensures var k := CacheKey(s, elementType, show);
        k !in old(cache) && r.Err? ==> cache == old(cache) && keys == old(keys)
    {
      var k := CacheKey(s, elementType, show);
      if k in cache {
        return Ok(cache[k]);
      }
      r := SimpleProfile(s, elementType, hasFile, show);
      if r.Ok? {
        cache := cache[k := r.value];
        keys := keys + [k];
      }
    }

    /** `clear_cache`. */
    method ClearCache()
      modifies this
      ensures Valid() && cache == map[] && keys == []
    {
      cache := map[];
      keys := [];
    }

    /** `get_cache_stats`: the number of cached profiles and their keys. */
    method GetCacheStats() returns (size: nat, ks: seq<string>)
      requires Valid()
      ensures size == |cache| && ks == keys
    {
      DistinctKeysCount(keys, cache);
      size := |keys|;
      ks := keys;
    }
  }

  /** A list of distinct keys that are exactly the map's keys has the map's size. */
  lemma DistinctKeysCount(keys: seq<string>, m: map<string, Profile>)
    requires forall k :: k in keys <==> k in m
    requires forall i, j :: 0 <= i < j < |keys| ==> keys[i] != keys[j]
    ensures |keys| == |m|
  {
    assert m.Keys == set x | x in keys;
    DistinctCard(keys);
  }

  /** A list without repetitions has as many elements as the set of them. */
  lemma {:induction false} DistinctCard(xs: seq<string>)
    requires forall i, j :: 0 <= i < j < |xs| ==> xs[i] != xs[j]
    ensures |set x | x in xs| == |xs|
  {
    if xs != [] {
      var rest := xs[..|xs| - 1];
      var k := xs[|xs| - 1];
      DistinctCard(rest);
      assert (set x | x in xs) == (set x | x in rest) + {k};
      assert k !in (set x | x in rest);
    }
  }

}
