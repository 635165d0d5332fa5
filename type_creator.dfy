/**
 * The creator of IFC type objects (ifcCreator/creators/type_creator.py):
 * beam, column, slab and footing types cached by name, the choice of a beam
 * or column type from a profile name, and the relation of elements to a type.
 *
 * Each entity the creator adds to the IFC file is numbered by `entityCount`;
 * the random GlobalId is not part of this model.
 */
module TypeCreator {
  import opened Values
  import Strs

  datatype TypeKind = BeamKind | ColumnKind | SlabKind | FootingKind

  /** An IfcBeamType, IfcColumnType, IfcSlabType or IfcFootingType. */
  datatype TypeEntity = TypeEntity(id: nat, kind: TypeKind, name: string)
  {
    /** The IFC class of the entity. */
    function IfcClass(): string
    {
      match kind
      case BeamKind => "IfcBeamType"
      case ColumnKind => "IfcColumnType"
      case SlabKind => "IfcSlabType"
      case FootingKind => "IfcFootingType"
    }

    /** The entity's `ElementType` attribute. */
    function PredefinedType(): string
    {
      match kind
      case BeamKind => "BEAM"
      case ColumnKind => "COLUMN"
      case SlabKind => "FLOOR"
      case FootingKind => "FOOTING"
    }
  }

  /** An IfcRelDefinesByType. */
  datatype TypeRelation = TypeRelation(id: nat, relatedObjects: seq<Value>, relatingType: TypeEntity)

  /** The names `get_beam_type_for_profile` and `get_column_type_for_profile` choose from. */
  const BeamTypeNames: set<string> := {"SteelBeam", "ConcreteBeam", "StandardBeam"}
  const ColumnTypeNames: set<string> := {"SteelColumn", "CFTColumn", "ConcreteColumn", "StandardColumn"}

  /** Steel for a profile name with an H or an I, concrete for one with RECT, else standard (case-sensitive). */
  function BeamTypeName(profile: string): (n: string)
    ensures n in BeamTypeNames
    ensures n == "SteelBeam" <==> Strs.Contains(profile, "H") || Strs.Contains(profile, "I")
    ensures n == "ConcreteBeam" <==>
      !Strs.Contains(profile, "H") && !Strs.Contains(profile, "I") && Strs.Contains(profile, "RECT")
  {
    if Strs.Contains(profile, "H") || Strs.Contains(profile, "I") then "SteelBeam"
    else if Strs.Contains(profile, "RECT") then "ConcreteBeam"
    else "StandardBeam"
  }

  /** Steel for H or I, concrete-filled tube for BOX, concrete for RECT, else standard (case-sensitive). */
  function ColumnTypeName(profile: string): (n: string)
    ensures n in ColumnTypeNames
    ensures n == "SteelColumn" <==> Strs.Contains(profile, "H") || Strs.Contains(profile, "I")
    ensures n == "CFTColumn" <==>
      !Strs.Contains(profile, "H") && !Strs.Contains(profile, "I") && Strs.Contains(profile, "BOX")
    ensures n == "ConcreteColumn" <==>
      !Strs.Contains(profile, "H") && !Strs.Contains(profile, "I") && !Strs.Contains(profile, "BOX") &&
      Strs.Contains(profile, "RECT")
  {
    if Strs.Contains(profile, "H") || Strs.Contains(profile, "I") then "SteelColumn"
    else if Strs.Contains(profile, "BOX") then "CFTColumn"
    else if Strs.Contains(profile, "RECT") then "ConcreteColumn"
    else "StandardColumn"
  }

  /** The objects a relation lists: a list as given, anything else as a list of one. */
  function Wrapped(elements: Value): (r: seq<Value>)
  {
    if elements.List? then elements.items else [elements]
  }

  class Creator {
    /** The types made so far, by name, whatever their kind. */
    var typesCache: map<string, TypeEntity>
    /** The number of entities this creator has added to the IFC file. */
    var entityCount: nat

    /** Every cached type carries its key as name and was added to the file. */
    predicate Valid()
      reads this
    {
      forall n :: n in typesCache ==> typesCache[n].name == n && typesCache[n].id < entityCount
    }

    /** The names the profile rules use hold types of the rule's kind. */
    predicate RuleKinds()
      reads this
    {
      forall n :: n in typesCache ==>
        (n in BeamTypeNames ==> typesCache[n].kind == BeamKind) &&
        (n in ColumnTypeNames ==> typesCache[n].kind == ColumnKind)
    }

    constructor ()
      ensures typesCache == map[] && entityCount == 0
      ensures Valid() && RuleKinds()
    {
      typesCache := map[];
      entityCount := 0;
    }

    /**
     * `create_beam_type`, `create_column_type`, `create_slab_type` and
     * `create_footing_type`: the type cached under the name, of whatever
     * kind, or a new type of `kind` added to the file and cached.
     */
    method CreateType(kind: TypeKind, name: string) returns (t: TypeEntity)
      modifies this
      ensures name in old(typesCache) ==>
        t == old(typesCache)[name] && typesCache == old(typesCache) && entityCount == old(entityCount)
      ensures name !in old(typesCache) ==>
        t == TypeEntity(old(entityCount), kind, name) &&
        typesCache == old(typesCache)[name := t] && entityCount == old(entityCount) + 1
      ensures name in typesCache && typesCache[name] == t
      ensures old(Valid()) ==> Valid() && t.name == name
      ensures old(RuleKinds()) && (name in BeamTypeNames ==> kind == BeamKind) && (name in ColumnTypeNames ==> kind == ColumnKind)
        ==> RuleKinds()
      ensures old(RuleKinds()) && ((name in BeamTypeNames && kind == BeamKind) || (name in ColumnTypeNames && kind == ColumnKind))
        ==> t.kind == kind
    {
      if name in typesCache {
        return typesCache[name];
      }
      t := TypeEntity(entityCount, kind, name);
      typesCache := typesCache[name := t];
      entityCount := entityCount + 1;
    }

    /** `get_beam_type_for_profile`: the beam type the profile name selects. */
    method GetBeamTypeForProfile(profile: string) returns (t: TypeEntity)
      modifies this
      ensures var n := BeamTypeName(profile);
        (n in old(typesCache) ==> t == old(typesCache)[n] && typesCache == old(typesCache) && entityCount == old(entityCount)) &&
        (n !in old(typesCache) ==>
          t == TypeEntity(old(entityCount), BeamKind, n) && typesCache == old(typesCache)[n := t] && entityCount == old(entityCount) + 1)
      ensures old(Valid()) ==> Valid() && t.name == BeamTypeName(profile)
      ensures old(RuleKinds()) ==> RuleKinds() && t.kind == BeamKind
    {
      t := CreateType(BeamKind, BeamTypeName(profile));
    }

    /** `get_column_type_for_profile`: the column type the profile name selects. */
    method GetColumnTypeForProfile(profile: string) returns (t: TypeEntity)
      modifies this
      ensures var n := ColumnTypeName(profile);
        (n in old(typesCache) ==> t == old(typesCache)[n] && typesCache == old(typesCache) && entityCount == old(entityCount)) &&
        (n !in old(typesCache) ==>
          t == TypeEntity(old(entityCount), ColumnKind, n) && typesCache == old(typesCache)[n := t] && entityCount == old(entityCount) + 1)
      ensures old(Valid()) ==> Valid() && t.name == ColumnTypeName(profile)
      ensures old(RuleKinds()) ==> RuleKinds() && t.kind == ColumnKind
    {
      t := CreateType(ColumnKind, ColumnTypeName(profile));
    }

    /** `relate_element_to_type`: a new relation of the elements, a single one wrapped in a list, to the type. */
    method RelateElementToType(elements: Value, elementType: TypeEntity) returns (rel: TypeRelation)
      modifies this
      ensures rel == TypeRelation(old(entityCount), Wrapped(elements), elementType)
      ensures typesCache == old(typesCache) && entityCount == old(entityCount) + 1
      ensures old(Valid()) ==> Valid()
      ensures elements.List? ==> rel.relatedObjects == elements.items
      ensures !elements.List? ==> rel.relatedObjects == [elements]
    {
      rel := TypeRelation(entityCount, Wrapped(elements), elementType);
      entityCount := entityCount + 1;
    }
  }

  /** Asking twice for the type of one profile gives the same type and adds nothing the second time. */
  method RepeatedProfileReusesType(c: Creator, profile: string) returns (first: TypeEntity, second: TypeEntity)
    requires c.Valid() && c.RuleKinds()
    modifies c
    ensures second == first && first.kind == BeamKind && first.name == BeamTypeName(profile)
    ensures c.Valid() && c.RuleKinds()
  {
    first := c.GetBeamTypeForProfile(profile);
    var count := c.entityCount;
    second := c.GetBeamTypeForProfile(profile);
    assert c.entityCount == count;
  }

  /**
   * The cache is keyed by name alone: a column type asked for under a name
   * a beam type already has is that beam type.
   */
  method CacheIgnoresKind(c: Creator, name: string) returns (beam: TypeEntity, column: TypeEntity)
    requires c.Valid() && name !in c.typesCache
    modifies c
    ensures beam.kind == BeamKind && column == beam && column.kind != ColumnKind
  {
    beam := c.CreateType(BeamKind, name);
    column := c.CreateType(ColumnKind, name);
  }

  /** No name is both a beam rule's and a column rule's, so the rules never share a cached type. */
  lemma RuleNamesDisjoint(p: string, q: string)
    ensures BeamTypeName(p) != ColumnTypeName(q)
  {
    var b := BeamTypeName(p);
    var c := ColumnTypeName(q);
    assert b[|b| - 1] == 'm' && c[|c| - 1] == 'n';
  }
}
