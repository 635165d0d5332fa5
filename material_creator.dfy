/**
 * The creator of IFC materials (ifcCreator/creators/material_creator.py):
 * materials cached by name, steel and concrete, material profiles and
 * profile sets, the association of a material with elements, and the choice
 * of a material from a profile name or an element type.
 *
 * Each entity the creator adds to the IFC file is numbered by `entityCount`;
 * the random GlobalId is not part of this model.
 */
module MaterialCreator {
  import opened Wrappers
  import opened Values
  import Strs
  import TypeCreator

  /** An IfcMaterial. */
  datatype Material = Material(id: nat, name: string, description: Option<string>)

  /** An IfcMaterialProfile. */
  datatype MaterialProfile = MaterialProfile(id: nat, name: Option<string>, material: Material, profile: Value)

  /** An IfcMaterialProfileSet. */
  datatype MaterialProfileSet = MaterialProfileSet(id: nat, name: Option<string>, profiles: seq<MaterialProfile>)

  /** The `material_profiles` argument: one profile or a list of them. */
  datatype Profiles = OneProfile(profile: MaterialProfile) | ProfileList(profiles: seq<MaterialProfile>)

  /** What a material association relates the elements to. */
  datatype MaterialSelect = OfMaterial(material: Material) | OfProfileSet(profileSet: MaterialProfileSet)

  /** An IfcRelAssociatesMaterial. */
  datatype MaterialAssociation = MaterialAssociation(id: nat, relatedObjects: seq<Value>, relatingMaterial: MaterialSelect)

  datatype MaterialKind = Steel | Concrete
  {
    /** The name the material of this kind is created and cached under. */
    function Name(): string
    {
      match this
      case Steel => "Steel"
      case Concrete => "Concrete"
    }

    /** The description the material of this kind is created with. */
    function Description(): string
    {
      match this
      case Steel => "Structural Steel"
      case Concrete => "Reinforced Concrete"
    }
  }

  /** The upper-cased name holds one of the steel keywords H, I, BOX and HOLLOW. */
  predicate SteelKeyword(upper: string)
  {
    Strs.Contains(upper, "H") || Strs.Contains(upper, "I") || Strs.Contains(upper, "BOX") || Strs.Contains(upper, "HOLLOW")
  }

  /** `get_material_for_profile`'s choice: steel for a steel keyword, concrete for RECT, steel otherwise (case-insensitive). */
  function ProfileMaterialKind(profile: string): (k: MaterialKind)
    ensures k == Concrete <==> !SteelKeyword(Strs.Upper(profile)) && Strs.Contains(Strs.Upper(profile), "RECT")
  {
    var upper := Strs.Upper(profile);
    if SteelKeyword(upper) then Steel
    else if Strs.Contains(upper, "RECT") then Concrete
    else Steel
  }

  /**
   * `create_material_for_element_type`'s choice: concrete for slabs and
   * footings (any case), the profile's material when a non-empty profile
   * name is given, steel otherwise.
   */
  function ElementMaterialKind(elementType: string, profileName: Option<string>): (k: MaterialKind)
    ensures Strs.Lower(elementType) in ["slab", "footing"] ==> k == Concrete
    ensures Strs.Lower(elementType) !in ["slab", "footing"] && profileName.Some? && profileName.value != [] ==>
      k == ProfileMaterialKind(profileName.value)
    ensures Strs.Lower(elementType) !in ["slab", "footing"] && (profileName.None? || profileName.value == []) ==> k == Steel
  {
    if Strs.Lower(elementType) in ["slab", "footing"] then Concrete
    else if profileName.Some? && profileName.value != [] then ProfileMaterialKind(profileName.value)
    else Steel
  }

  class Creator {
    /** The materials made so far, by name. */
    var materialsCache: map<string, Material>
    /** The number of entities this creator has added to the IFC file. */
    var entityCount: nat

    /** Every cached material carries its key as name and was added to the file. */
    predicate Valid()
      reads this
    {
      forall n :: n in materialsCache ==> materialsCache[n].name == n && materialsCache[n].id < entityCount
    }

    constructor ()
      ensures materialsCache == map[] && entityCount == 0
      ensures Valid()
    {
      materialsCache := map[];
      entityCount := 0;
    }

    /** `create_material`: the material cached under the name, or a new one added to the file and cached. */
    method CreateMaterial(name: string, description: Option<string>) returns (m: Material)
      modifies this
      ensures name in old(materialsCache) ==>
        m == old(materialsCache)[name] && materialsCache == old(materialsCache) && entityCount == old(entityCount)
      ensures name !in old(materialsCache) ==>
        m == Material(old(entityCount), name, description) &&
        materialsCache == old(materialsCache)[name := m] && entityCount == old(entityCount) + 1
      ensures name in materialsCache && materialsCache[name] == m
      ensures old(Valid()) ==> Valid() && m.name == name
    {
      if name in materialsCache {
        return materialsCache[name];
      }
      m := Material(entityCount, name, description);
      materialsCache := materialsCache[name := m];
      entityCount := entityCount + 1;
    }

    /** `create_steel_material` and `create_concrete_material`: the material of a kind, under its name. */
    method CreateKindMaterial(kind: MaterialKind) returns (m: Material)
      modifies this
      ensures kind.Name() in old(materialsCache) ==>
        m == old(materialsCache)[kind.Name()] && materialsCache == old(materialsCache) && entityCount == old(entityCount)
      ensures kind.Name() !in old(materialsCache) ==>
        m == Material(old(entityCount), kind.Name(), Some(kind.Description())) &&
        materialsCache == old(materialsCache)[kind.Name() := m] && entityCount == old(entityCount) + 1
      ensures old(Valid()) ==> Valid() && m.name == kind.Name()
    {
      m := CreateMaterial(kind.Name(), Some(kind.Description()));
    }

    /** `get_material_for_profile`: the material the profile name selects. */
    method GetMaterialForProfile(profile: string) returns (m: Material)
      modifies this
      ensures var n := ProfileMaterialKind(profile).Name();
        (n in old(materialsCache) ==> m == old(materialsCache)[n] && materialsCache == old(materialsCache)) &&
        (n !in old(materialsCache) ==> m.id == old(entityCount) && materialsCache == old(materialsCache)[n := m])
      ensures old(Valid()) ==> Valid() && m.name == ProfileMaterialKind(profile).Name()
    {
      m := CreateKindMaterial(ProfileMaterialKind(profile));
    }

    /** `create_material_for_element_type`: the material the element type and profile name select. */
    method CreateMaterialForElementType(elementType: string, profileName: Option<string>) returns (m: Material)
      modifies this
      ensures var n := ElementMaterialKind(elementType, profileName).Name();
        (n in old(materialsCache) ==> m == old(materialsCache)[n] && materialsCache == old(materialsCache)) &&
        (n !in old(materialsCache) ==> m.id == old(entityCount) && materialsCache == old(materialsCache)[n := m])
      ensures old(Valid()) ==> Valid() && m.name == ElementMaterialKind(elementType, profileName).Name()
    {
      if Strs.Lower(elementType) in ["slab", "footing"] {
        m := CreateKindMaterial(Concrete);
      } else if profileName.Some? && profileName.value != [] {
        m := GetMaterialForProfile(profileName.value);
      } else {
        m := CreateKindMaterial(Steel);
      }
    }

    /** `create_material_profile`: a new profile of the material, always added to the file. */
    method CreateMaterialProfile(material: Material, profile: Value, name: Option<string>) returns (mp: MaterialProfile)
      modifies this
      ensures mp == MaterialProfile(old(entityCount), name, material, profile)
      ensures materialsCache == old(materialsCache) && entityCount == old(entityCount) + 1
      ensures old(Valid()) ==> Valid()
    {
      mp := MaterialProfile(entityCount, name, material, profile);
      entityCount := entityCount + 1;
    }

    /** `create_material_profile_set`: a new set of the profiles, a single one wrapped in a list. */
    method CreateMaterialProfileSet(profiles: Profiles, name: Option<string>) returns (s: MaterialProfileSet)
      modifies this
      ensures profiles.ProfileList? ==> s == MaterialProfileSet(old(entityCount), name, profiles.profiles)
      ensures profiles.OneProfile? ==> s == MaterialProfileSet(old(entityCount), name, [profiles.profile])
      ensures materialsCache == old(materialsCache) && entityCount == old(entityCount) + 1
      ensures old(Valid()) ==> Valid()
    {
      var listed := if profiles.ProfileList? then profiles.profiles else [profiles.profile];
      s := MaterialProfileSet(entityCount, name, listed);
      entityCount := entityCount + 1;
    }

    /** `associate_material_to_elements`: a new association of the elements, a single one wrapped in a list. */
    method AssociateMaterialToElements(elements: Value, material: MaterialSelect) returns (rel: MaterialAssociation)
      modifies this
      ensures elements.List? ==> rel == MaterialAssociation(old(entityCount), elements.items, material)
      ensures !elements.List? ==> rel == MaterialAssociation(old(entityCount), [elements], material)
      ensures materialsCache == old(materialsCache) && entityCount == old(entityCount) + 1
      ensures old(Valid()) ==> Valid()
    {
      var related := if elements.List? then elements.items else [elements];
      rel := MaterialAssociation(entityCount, related, material);
      entityCount := entityCount + 1;
    }
  }

  /** A material asked for again under its name keeps its first description. */
  method CachedMaterialKeepsDescription(c: Creator, name: string, first: Option<string>, second: Option<string>)
    returns (a: Material, b: Material)
    requires c.Valid()
    modifies c
    ensures b == a && b.description == (if name in old(c.materialsCache) then old(c.materialsCache)[name].description else first)
  {
    a := c.CreateMaterial(name, first);
    b := c.CreateMaterial(name, second);
  }

  /** Upper-casing keeps every occurrence of a word without lower-case letters. */
  lemma UpperKeepsMatch(s: string, w: string, i: int)
    requires Strs.MatchAt(s, w, i)
    requires forall j :: 0 <= j < |w| ==> !('a' <= w[j] <= 'z')
    ensures Strs.MatchAt(Strs.Upper(s), w, i)
  {
    var u := Strs.Upper(s);
    forall j | 0 <= j < |w|
      ensures u[i..i + |w|][j] == w[j]
    {
      assert s[i + j] == s[i..i + |w|][j];
    }
  }

  /** A name holding a word without lower-case letters still holds it upper-cased. */
  lemma UpperKeepsWord(s: string, w: string)
    requires Strs.Contains(s, w)
    requires forall j :: 0 <= j < |w| ==> !('a' <= w[j] <= 'z')
    ensures Strs.Contains(Strs.Upper(s), w)
  {
    Strs.ContainsAt(s, w);
    var i :| Strs.MatchAt(s, w, i);
    UpperKeepsMatch(s, w, i);
    Strs.ContainsAt(Strs.Upper(s), w);
  }

  /** The keyword HOLLOW adds nothing: every name holding it holds H. */
  lemma HollowHoldsH(s: string)
    requires Strs.Contains(s, "HOLLOW")
    ensures Strs.Contains(s, "H")
  {
    Strs.ContainsAt(s, "HOLLOW");
    var i :| Strs.MatchAt(s, "HOLLOW", i);
    assert s[i..i + 1] == s[i..i + 6][..1];
    assert Strs.MatchAt(s, "H", i);
    Strs.ContainsAt(s, "H");
  }

  /** A profile that makes a steel beam type is given steel as material. */
  lemma SteelBeamTypeHasSteel(profile: string)
    requires TypeCreator.BeamTypeName(profile) == "SteelBeam"
    ensures ProfileMaterialKind(profile) == Steel
  {
    if Strs.Contains(profile, "H") {
      UpperKeepsWord(profile, "H");
    } else {
      UpperKeepsWord(profile, "I");
    }
  }

  /** A profile that makes a steel or concrete-filled tube column type is given steel as material. */
  lemma SteelColumnTypeHasSteel(profile: string)
    requires TypeCreator.ColumnTypeName(profile) in {"SteelColumn", "CFTColumn"}
    ensures ProfileMaterialKind(profile) == Steel
  {
    if Strs.Contains(profile, "H") {
      UpperKeepsWord(profile, "H");
    } else if Strs.Contains(profile, "I") {
      UpperKeepsWord(profile, "I");
    } else {
      UpperKeepsWord(profile, "BOX");
    }
  }

  /**
   * For a name without lower-case letters, the concrete column type and
   * concrete as material go together.
   */
  lemma ConcreteColumnTypeIffConcrete(profile: string)
    requires Strs.Upper(profile) == profile
    ensures TypeCreator.ColumnTypeName(profile) == "ConcreteColumn" <==> ProfileMaterialKind(profile) == Concrete
  {
    if Strs.Contains(profile, "HOLLOW") {
      HollowHoldsH(profile);
    }
  }

  /** Slabs and footings are concrete whatever their profile, even a steel one. */
  lemma SlabsAreConcrete(profile: string)
    requires ProfileMaterialKind(profile) == Steel
    ensures ElementMaterialKind("slab", Some(profile)) == Concrete
    ensures ElementMaterialKind("beam", Some(profile)) == Steel || profile == []
  {
    assert Strs.Lower("slab") == "slab";
    assert Strs.Lower("beam") == "beam";
  }
}
