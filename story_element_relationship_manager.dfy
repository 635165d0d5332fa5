/**
 * The story/element relationship manager
 * (core/story_element_relationship_manager.py): elements are registered to
 * story names at most once each, the stories created in the IFC model are
 * recorded, and the manager reports missing stories, orphaned elements and
 * ids registered twice.
 *
 * The project builder's lookups are parameters: `storeyOf` gives the storey
 * for a name (`Null` when it is missing or the lookup raises) and `relate`
 * the containment relation for a storey and its elements (`Null` when the
 * call raises).
 */
module StoryElementRelationships {
  import opened Wrappers
  import opened Values
  import opened ElementCentricConverter

  /** `story_elements_map`: story names in insertion order with their element lists. */
  type StoryMap = seq<(string, seq<ElementInfo>)>

  /** The story names of the map, in order (`get_story_names`). */
  function Names(d: StoryMap): (r: seq<string>)
    ensures |r| == |d| && forall i :: 0 <= i < |d| ==> r[i] == d[i].0
  {
    seq(|d|, i requires 0 <= i < |d| => d[i].0)
  }

  /** `story_elements_map.get(story, [])`. */
  function ElementsOf(d: StoryMap, story: string): (r: seq<ElementInfo>)
    ensures story !in Names(d) ==> r == []
  {
    if d == [] then []
    else if d[0].0 == story then d[0].1
    else ElementsOf(d[1..], story)
  }

  /** Appending `info` to the list of `story`, which is created at the end when new. */
  function AppendTo(d: StoryMap, story: string, info: ElementInfo): (r: StoryMap)
    ensures story in Names(r)
    ensures |r| == |d| || (|r| == |d| + 1 && story !in Names(d))
  {
    if d == [] then
      var r := [(story, [info])];
      assert Names(r)[0] == story;
      r
    else if d[0].0 == story then
      var r := [(story, d[0].1 + [info])] + d[1..];
      assert Names(r)[0] == story;
      r
    else
      var rest := AppendTo(d[1..], story, info);
      assert Names([d[0]] + rest) == [d[0].0] + Names(rest);
      assert Names(d) == [d[0].0] + Names(d[1..]);
      [d[0]] + rest
  }

  /** The ids of all registered elements, story by story. */
  function AllIds(d: StoryMap): seq<Value>
  {
    if d == [] then [] else IdsOf(d[0].1) + AllIds(d[1..])
  }

  /** `sum(len(infos) for infos in story_elements_map.values())`. */
  function Total(d: StoryMap): nat
  {
    if d == [] then 0 else |d[0].1| + Total(d[1..])
  }

  lemma {:induction false} TotalIsIdCount(d: StoryMap)
    ensures Total(d) == |AllIds(d)|
  {
    if d != [] {
      TotalIsIdCount(d[1..]);
    }
  }

  /** Appending one element adds exactly its id to the registered ids. */
  lemma {:induction false} AppendAddsId(d: StoryMap, story: string, info: ElementInfo)
    ensures multiset(AllIds(AppendTo(d, story, info))) == multiset(AllIds(d)) + multiset{info.elementId}
  {
    if d == [] {
      assert IdsOf([info]) == [info.elementId];
    } else if d[0].0 == story {
      var r := AppendTo(d, story, info);
      assert r[1..] == d[1..];
      assert IdsOf(d[0].1 + [info]) == IdsOf(d[0].1) + [info.elementId];
    } else {
      AppendAddsId(d[1..], story, info);
      assert AppendTo(d, story, info)[1..] == AppendTo(d[1..], story, info);
    }
  }

  /** No id occurs twice. */
  ghost predicate AtMostOnce(ids: seq<Value>)
  {
    forall x :: multiset(ids)[x] <= 1
  }

  /** The distinct values of `ids` in order of first occurrence (the key order of `element_id_counts`). */
  function Firsts(ids: seq<Value>): (r: seq<Value>)
    ensures forall x :: x in r <==> x in ids
  {
    if ids == [] then []
    else
      var p := Firsts(ids[..|ids| - 1]);
      assert ids == ids[..|ids| - 1] + [ids[|ids| - 1]];
      if ids[|ids| - 1] in p then p else p + [ids[|ids| - 1]]
  }

  /** The values of `xs` occurring more than once in `ids`. */
  function Repeated(xs: seq<Value>, ids: seq<Value>): (r: seq<Value>)
    ensures forall x :: x in r ==> x in xs && multiset(ids)[x] > 1
  {
    if xs == [] then []
    else (if multiset(ids)[xs[0]] > 1 then [xs[0]] else []) + Repeated(xs[1..], ids)
  }

  /** `duplicate_relationships`: the ids counted more than once. */
  function DuplicateIds(ids: seq<Value>): seq<Value>
  {
    Repeated(Firsts(ids), ids)
  }

  lemma {:induction false} RepeatedEmpty(xs: seq<Value>, ids: seq<Value>)
    ensures Repeated(xs, ids) == [] <==> forall x :: x in xs ==> multiset(ids)[x] <= 1
  {
    if xs != [] {
      RepeatedEmpty(xs[1..], ids);
      assert forall x :: x in xs <==> x == xs[0] || x in xs[1..];
    }
  }

  /** No id is reported as duplicated exactly when no id occurs twice. */
  lemma NoDuplicatesIff(ids: seq<Value>)
    ensures DuplicateIds(ids) == [] <==> AtMostOnce(ids)
  {
    RepeatedEmpty(Firsts(ids), ids);
    forall x | x !in ids
      ensures multiset(ids)[x] <= 1
    {
      assert multiset(ids)[x] == 0;
    }
  }

  /** The stories that were never created (`missing_stories`), in map order. */
  function Missing(d: StoryMap, created: set<string>): (r: seq<string>)
    ensures forall s :: s in r <==> s in Names(d) && s !in created
  {
    if d == [] then []
    else
      assert Names(d) == [d[0].0] + Names(d[1..]);
      (if d[0].0 !in created then [d[0].0] else []) + Missing(d[1..], created)
  }

  /** The elements of those stories (`orphaned_elements`). */
  function Orphaned(d: StoryMap, created: set<string>): seq<ElementInfo>
  {
    if d == [] then []
    else (if d[0].0 !in created then d[0].1 else []) + Orphaned(d[1..], created)
  }

  /** `info.confidence` as a number Python can compare or add: bools are 0 and 1. */
  function Numeric(v: Value): (r: Option<real>)
    ensures v.Num? ==> r == Some(v.r)
    ensures r.None? <==> !(v.Num? || v.Bool?)
  {
    match v
    case Num(x) => Some(x)
    case Bool(b) => Some(if b then 1.0 else 0.0)
    case _ => None
  }

  /** The elements whose confidence is below 0.7; a confidence that is not a number raises TypeError. */
  function LowConfidence(infos: seq<ElementInfo>): (r: Result<nat>)
    ensures r.Ok? ==> r.value <= |infos|
    ensures r.Ok? <==> forall i :: 0 <= i < |infos| ==> Numeric(infos[i].confidence).Some?
  {
    if infos == [] then Ok(0)
    else
      var c := Numeric(infos[0].confidence);
      var rest := LowConfidence(infos[1..]);
      assert forall i :: 1 <= i < |infos| ==> infos[i] == infos[1..][i - 1];
      if c.None? then Err(TypeError("'<' not supported"))
      else if rest.Err? then rest
      else Ok(rest.value + (if c.value < 0.7 then 1 else 0))
  }

  /** The elements of all stories, in map order. */
  function AllInfos(d: StoryMap): seq<ElementInfo>
  {
    if d == [] then [] else d[0].1 + AllInfos(d[1..])
  }

  /** The warnings of `validate_relationships`. */
  datatype Warning = NoElements | LowConfidenceElements(count: nat)

  /** `ValidationResult`. */
  datatype Validation = Validation(
    isValid: bool,
    orphaned: seq<ElementInfo>,
    duplicates: seq<Value>,
    missing: seq<string>,
    warnings: seq<Warning>)

  /** `validate_relationships` on a given map and set of created story names. */
  function Validate(d: StoryMap, created: set<string>): (r: Result<Validation>)
    ensures r.Ok? ==> (r.value.isValid <==> r.value.orphaned == [] && r.value.duplicates == [] && r.value.missing == [])
    ensures r.Ok? ==> r.value.missing == Missing(d, created) && r.value.orphaned == Orphaned(d, created)
    ensures r.Ok? ==> r.value.duplicates == DuplicateIds(AllIds(d))
    ensures r.Ok? ==> (NoElements in r.value.warnings <==> Total(d) == 0)
  {
    match LowConfidence(AllInfos(d))
    case Err(e) => Err(e)
    case Ok(low) =>
      var orphaned := Orphaned(d, created);
      var duplicates := DuplicateIds(AllIds(d));
      var missing := Missing(d, created);
      var warnings := (if Total(d) == 0 then [NoElements] else []) + (if low > 0 then [LowConfidenceElements(low)] else []);
      Ok(Validation(orphaned == [] && duplicates == [] && missing == [], orphaned, duplicates, missing, warnings))
  }

  /** How many of `infos` have type `t`. */
  function CountType(infos: seq<ElementInfo>, t: string): nat
  {
    if infos == [] then 0
    else CountType(infos[..|infos| - 1], t) + (if infos[|infos| - 1].elementType == t then 1 else 0)
  }

  /** `element_types`: the count per element type, built element by element. */
  function TypeCounts(infos: seq<ElementInfo>): (r: map<string, int>)
  {
    if infos == [] then map[]
    else Bump(TypeCounts(infos[..|infos| - 1]), infos[|infos| - 1].elementType, 1)
  }

  /** Each type present is counted once per element of that type, and absent types have no entry. */
  lemma {:induction false} TypeCountsCount(infos: seq<ElementInfo>, t: string)
    ensures t in TypeCounts(infos) <==> CountType(infos, t) > 0
    ensures t in TypeCounts(infos) ==> TypeCounts(infos)[t] == CountType(infos, t)
  {
    if infos != [] {
      TypeCountsCount(infos[..|infos| - 1], t);
    }
  }

  /** `confidence_sum`; a confidence that is not a number raises TypeError. */
  function ConfidenceSum(infos: seq<ElementInfo>): (r: Result<real>)
    ensures r.Ok? <==> forall i :: 0 <= i < |infos| ==> Numeric(infos[i].confidence).Some?
  {
    if infos == [] then Ok(0.0)
    else
      var rest := ConfidenceSum(infos[..|infos| - 1]);
      var c := Numeric(infos[|infos| - 1].confidence);
      assert forall i :: 0 <= i < |infos| - 1 ==> infos[i] == infos[..|infos| - 1][i];
      if rest.Err? then rest
      else if c.None? then Err(TypeError("unsupported operand type for +="))
      else Ok(rest.value + c.value)
  }

  /** `StoryStatistics` (the volume field stays 0). */
  datatype StoryStats = StoryStats(storyName: string, elementCount: nat, elementTypes: map<string, int>, confidenceAverage: real)

  /** `get_story_statistics` for one non-empty story list. */
  function StatsOf(story: string, infos: seq<ElementInfo>): (r: Result<StoryStats>)
    requires infos != []
    ensures r.Ok? ==> r.value.storyName == story && r.value.elementCount == |infos| && r.value.elementTypes == TypeCounts(infos)
    ensures r.Ok? <==> ConfidenceSum(infos).Ok?
    ensures r.Ok? ==> r.value.confidenceAverage * (|infos| as real) == ConfidenceSum(infos).value
  {
    match ConfidenceSum(infos)
    case Err(e) => Err(e)
    case Ok(sum) => Ok(StoryStats(story, |infos|, TypeCounts(infos), sum / (|infos| as real)))
  }

  /** `get_story_statistics`: one entry per story with elements, in map order. */
  function StoryStatistics(d: StoryMap): (r: Result<seq<StoryStats>>)
    ensures r.Ok? ==> |r.value| <= |d|
    ensures d == [] ==> r == Ok([])
  {
    if d == [] then Ok([])
    else
      var rest := StoryStatistics(d[1..]);
      if d[0].1 == [] then rest
      else
        match StatsOf(d[0].0, d[0].1)
        case Err(e) => Err(e)
        case Ok(st) => if rest.Err? then rest else Ok([st] + rest.value)
  }

  /** Distinct story names, which a dictionary's keys always are. */
  predicate DistinctNames(d: StoryMap)
  {
    forall i, j :: 0 <= i < j < |d| ==> d[i].0 != d[j].0
  }

  lemma {:induction false} NamesAppend(d: StoryMap, story: string, info: ElementInfo)
    ensures Names(AppendTo(d, story, info)) == if story in Names(d) then Names(d) else Names(d) + [story]
  {
    if d != [] {
      var r := AppendTo(d, story, info);
      assert Names(d) == [d[0].0] + Names(d[1..]);
      if d[0].0 != story {
        NamesAppend(d[1..], story, info);
        assert r == [d[0]] + AppendTo(d[1..], story, info);
        assert Names(r) == [d[0].0] + Names(AppendTo(d[1..], story, info));
      } else {
        assert Names(r) == [story] + Names(d[1..]);
      }
    }
  }

  lemma AppendKeepsDistinct(d: StoryMap, story: string, info: ElementInfo)
    requires DistinctNames(d)
    ensures DistinctNames(AppendTo(d, story, info))
  {
    NamesAppend(d, story, info);
    var r := AppendTo(d, story, info);
    forall i, j | 0 <= i < j < |r|
      ensures r[i].0 != r[j].0
    {
      assert Names(r)[i] == r[i].0 && Names(r)[j] == r[j].0;
      if j == |d| {
        assert Names(r)[i] == Names(d)[i];
      } else {
        assert Names(r)[i] == Names(d)[i] && Names(r)[j] == Names(d)[j];
      }
    }
  }

  /** The registered ids are exactly the ids in the map, each once, under distinct story names. */
  ghost predicate Consistent(d: StoryMap, ids: set<Value>)
  {
    DistinctNames(d)
    && (forall x :: x in ids <==> x in AllIds(d))
    && AtMostOnce(AllIds(d))
  }

  /** Registering a new id keeps the manager consistent. */
  lemma RegisterKeepsConsistent(d: StoryMap, ids: set<Value>, story: string, info: ElementInfo)
    requires Consistent(d, ids) && info.elementId !in ids
    ensures Consistent(AppendTo(d, story, info), ids + {info.elementId})
  {
    var d' := AppendTo(d, story, info);
    AppendAddsId(d, story, info);
    AppendKeepsDistinct(d, story, info);
    assert forall x :: x in multiset(AllIds(d')) <==> x in AllIds(d');
    assert forall x :: x in multiset(AllIds(d)) <==> x in AllIds(d);
  }

  /** Every story that was created has no missing entry and no orphans. */
  lemma {:induction false} AllCreatedNothingMissing(d: StoryMap, created: set<string>)
    requires forall s :: s in Names(d) ==> s in created
    ensures Missing(d, created) == [] && Orphaned(d, created) == []
  {
    if d != [] {
      assert Names(d) == [d[0].0] + Names(d[1..]);
      AllCreatedNothingMissing(d[1..], created);
    }
  }

  /** A story list built from the containment relations of the stories, in map order. */
  function Relations(d: StoryMap, storeyOf: string -> Value, relate: (Value, seq<Value>) -> Value): (r: seq<Value>)
    ensures |r| <= |d|
    ensures forall i :: 0 <= i < |r| ==> Truthy(r[i])
  {
    if d == [] then []
    else
      var rest := Relations(d[1..], storeyOf, relate);
      var step := RelationOf(d[0], storeyOf, relate);
      step + rest
  }

  /** The non-null IFC elements of a story's list. */
  function IfcElements(infos: seq<ElementInfo>): (r: seq<Value>)
    ensures |r| <= |infos| && forall i :: 0 <= i < |r| ==> r[i] != Null
  {
    if infos == [] then []
    else (if infos[0].ifcElement != Null then [infos[0].ifcElement] else []) + IfcElements(infos[1..])
  }

  /** The relation one story contributes: none for an empty list, an unknown storey, no IFC element or a falsy relation. */
  function RelationOf(entry: (string, seq<ElementInfo>), storeyOf: string -> Value, relate: (Value, seq<Value>) -> Value): (r: seq<Value>)
    ensures |r| <= 1 && forall i :: 0 <= i < |r| ==> Truthy(r[i])
    ensures entry.1 == [] || !Truthy(storeyOf(entry.0)) ==> r == []
    ensures r != [] ==> r == [relate(storeyOf(entry.0), IfcElements(entry.1))]
  {
    if entry.1 == [] then []
    else
      var storey := storeyOf(entry.0);
      if !Truthy(storey) then []
      else
        var elems := IfcElements(entry.1);
        if elems == [] then []
        else
          var rel := relate(storey, elems);
          if Truthy(rel) then [rel] else []
  }

  /** The manager. */
  class Manager {
    var storyElements: StoryMap
    var spatialRelationships: seq<Value>
    var registeredIds: set<Value>
    var createdStoryNames: set<string>

    /** The manager's invariant: see `Consistent`. */
    ghost predicate Valid()
      reads this
    {
      Consistent(storyElements, registeredIds)
    }

    constructor ()
      ensures Valid()
      ensures storyElements == [] && spatialRelationships == [] && registeredIds == {} && createdStoryNames == {}
    {
      storyElements := [];
      spatialRelationships := [];
      registeredIds := {};
      createdStoryNames := {};
    }

    /** `register_element_to_story`: an id registered before is ignored. */
    method RegisterElementToStory(info: ElementInfo, story: string)
      requires Valid()
      modifies this
      ensures Valid()
      ensures old(info.elementId in registeredIds) ==> storyElements == old(storyElements) && registeredIds == old(registeredIds)
      ensures old(info.elementId !in registeredIds) ==>
        storyElements == AppendTo(old(storyElements), story, info) && registeredIds == old(registeredIds) + {info.elementId}
      ensures ElementsOf(storyElements, story) == old(ElementsOf(storyElements, story)) + (if old(info.elementId in registeredIds) then [] else [info])
      ensures spatialRelationships == old(spatialRelationships) && createdStoryNames == old(createdStoryNames)
    {
      if info.elementId in registeredIds {
        return;
      }
      RegisterKeepsConsistent(storyElements, registeredIds, story, info);
      ElementsOfAppend(storyElements, story, info);
      storyElements := AppendTo(storyElements, story, info);
      registeredIds := registeredIds + {info.elementId};
    }

    /** `create_spatial_relationships`: one relation per story that yields one, in map order. */
    method CreateSpatialRelationships(storeyOf: string -> Value, relate: (Value, seq<Value>) -> Value) returns (rels: seq<Value>)
      modifies this
      ensures rels == Relations(old(storyElements), storeyOf, relate) && spatialRelationships == rels
      ensures storyElements == old(storyElements) && registeredIds == old(registeredIds) && createdStoryNames == old(createdStoryNames)
    {
      rels := [];
      var i := |storyElements|;
      while i > 0
        invariant 0 <= i <= |storyElements|
        invariant rels == Relations(storyElements[i..], storeyOf, relate)
      {
        i := i - 1;
        assert storyElements[i..][1..] == storyElements[i + 1..];
        rels := RelationOf(storyElements[i], storeyOf, relate) + rels;
      }
      spatialRelationships := rels;
    }

    /** `associate_elements_to_storeys`: the created story names are recorded (the associations are IFC calls). */
    method AssociateElementsToStoreys(created: map<string, Value>)
      modifies this
      ensures createdStoryNames == old(createdStoryNames) + created.Keys
      ensures storyElements == old(storyElements) && registeredIds == old(registeredIds) && spatialRelationships == old(spatialRelationships)
    {
      createdStoryNames := createdStoryNames + created.Keys;
    }

    /** `validate_relationships`. */
    function ValidateRelationships(): Result<Validation>
      reads this
    {
      Validate(storyElements, createdStoryNames)
    }

    /** `get_story_statistics`. */
    function GetStoryStatistics(): Result<seq<StoryStats>>
      reads this
    {
      StoryStatistics(storyElements)
    }

    /** `get_elements_by_story`. */
    function GetElementsByStory(story: string): seq<ElementInfo>
      reads this
    {
      ElementsOf(storyElements, story)
    }

    /** `get_total_registered_elements`: the sum of the story list lengths. */
    method GetTotalRegisteredElements() returns (n: nat)
      requires Valid()
      ensures n == Total(storyElements) && n == |registeredIds|
    {
      n := 0;
      var i := 0;
      while i < |storyElements|
        invariant 0 <= i <= |storyElements|
        invariant n + Total(storyElements[i..]) == Total(storyElements)
      {
        assert storyElements[i..][1..] == storyElements[i + 1..];
        n := n + |storyElements[i].1|;
        i := i + 1;
      }
      TotalIsIdCount(storyElements);
      RegisteredCount(storyElements, registeredIds);
    }

    /** `clear_all_relationships`. */
    method ClearAllRelationships()
      modifies this
      ensures Valid()
      ensures storyElements == [] && spatialRelationships == [] && registeredIds == {} && createdStoryNames == {}
    {
      storyElements := [];
      spatialRelationships := [];
      registeredIds := {};
      createdStoryNames := {};
    }
  }

  lemma {:induction false} ElementsOfAppend(d: StoryMap, story: string, info: ElementInfo)
    ensures ElementsOf(AppendTo(d, story, info), story) == ElementsOf(d, story) + [info]
  {
    if d != [] && d[0].0 != story {
      ElementsOfAppend(d[1..], story, info);
      assert AppendTo(d, story, info)[1..] == AppendTo(d[1..], story, info);
    }
  }

  /** Ids that occur at most once are as many as the distinct ids. */
  lemma RegisteredCount(d: StoryMap, ids: set<Value>)
    requires forall x :: x in ids <==> x in AllIds(d)
    requires AtMostOnce(AllIds(d))
    ensures |AllIds(d)| == |ids|
  {
    var s := AllIds(d);
    AtMostOnceDistinct(s);
    SetOfSize(s);
    assert ids == SetOf(s);
  }

  lemma AtMostOnceDistinct(s: seq<Value>)
    requires AtMostOnce(s)
    ensures Distinct(s)
  {
    forall i, j | 0 <= i < j < |s|
      ensures s[i] != s[j]
    {
      assert s == s[..j] + [s[j]] + s[j + 1..];
      assert s[i] == s[..j][i];
      assert multiset(s)[s[j]] >= multiset(s[..j])[s[j]] + 1;
    }
  }

  /** While the manager is consistent, no id is ever reported as duplicated. */
  lemma ValidHasNoDuplicates(d: StoryMap, created: set<string>)
    requires AtMostOnce(AllIds(d))
    ensures Validate(d, created).Ok? ==> Validate(d, created).value.duplicates == []
  {
    NoDuplicatesIff(AllIds(d));
  }

  /** Once every story is created, a consistent manager validates. */
  lemma AllStoriesCreatedIsValid(d: StoryMap, created: set<string>)
    requires AtMostOnce(AllIds(d))
    requires forall s :: s in Names(d) ==> s in created
    ensures Validate(d, created).Ok? ==> Validate(d, created).value.isValid
  {
    NoDuplicatesIff(AllIds(d));
    AllCreatedNothingMissing(d, created);
  }

  /** A story never created is missing, and its elements are orphans. */
  lemma {:induction false} UncreatedStoryOrphans(d: StoryMap, created: set<string>, story: string)
    requires DistinctNames(d) && story in Names(d) && story !in created
    ensures story in Missing(d, created)
    ensures forall i :: 0 <= i < |ElementsOf(d, story)| ==> ElementsOf(d, story)[i] in Orphaned(d, created)
  {
    assert Names(d) == [d[0].0] + Names(d[1..]);
    if d[0].0 != story {
      assert DistinctNames(d[1..]) by {
        forall i, j | 0 <= i < j < |d[1..]| ensures d[1..][i].0 != d[1..][j].0 {
          assert d[1..][i] == d[i + 1] && d[1..][j] == d[j + 1];
        }
      }
      UncreatedStoryOrphans(d[1..], created, story);
    }
  }
}
