/**
 * The element creation factory (ifcCreator/core/element_creation_factory.py):
 * one creator per element kind, a list of tracked created elements (kind,
 * IFC element, floor, definition) that the story converter later places in
 * storeys, and per-kind usage counters.
 *
 * A kind's creator is a parameter: `Err` when it cannot be obtained or
 * raises as a whole (the factory then returns nothing), otherwise the
 * per-definition `create_element`.
 */
module ElementCreationFactory {
  import opened Wrappers
  import opened Values
  import opened BaseCreator
  import Strs

  datatype Kind = Beam | Column | Slab | Wall | Brace | Pile | Footing | FoundationColumn

  /** The kind's name as written in the tracked entries. */
  function KindName(k: Kind): string
  {
    match k
    case Beam => "beam"
    case Column => "column"
    case Slab => "slab"
    case Wall => "wall"
    case Brace => "brace"
    case Pile => "pile"
    case Footing => "footing"
    case FoundationColumn => "foundation_column"
  }

  /** The usage counter of a kind: "<kind>_created". */
  function StatKey(k: Kind): string
  {
    KindName(k) + "_created"
  }

  /** The floor a kind falls back to: RFL for beams and slabs, 1FL for columns, walls and braces, GL for foundations. */
  function DefaultFloor(k: Kind): (r: string)
    ensures k == Beam || k == Slab ==> r == "RFL"
    ensures k == Column || k == Wall || k == Brace ==> r == "1FL"
    ensures k == Pile || k == Footing || k == FoundationColumn ==> r == "GL"
  {
    match k
    case Beam => "RFL"
    case Slab => "RFL"
    case Column => "1FL"
    case Wall => "1FL"
    case Brace => "1FL"
    case _ => "GL"
  }

  /** The kinds whose creator the factory keeps (the foundations are created afresh each time). */
  predicate Persistent(k: Kind)
  {
    k == Beam || k == Column || k == Slab || k == Wall || k == Brace
  }

  /** The usage statistics after `n` more elements of kind `k`: only that kind's counter grows. */
  function CountUsage(usage: map<string, int>, k: Kind, n: int): (r: map<string, int>)
    requires StatKey(k) in usage
    ensures r.Keys == usage.Keys && r[StatKey(k)] == usage[StatKey(k)] + n
    ensures forall key :: key in usage && key != StatKey(k) ==> r[key] == usage[key]
  {
    usage[StatKey(k) := usage[StatKey(k)] + n]
  }

  /** The per-creator counts after `n` more elements of kind `k`: only a kept creator that is already counted grows. */
  function CountCreator(counts: map<Kind, int>, k: Kind, n: int): (r: map<Kind, int>)
    ensures r.Keys == counts.Keys
    ensures forall j :: j in counts && j != k ==> r[j] == counts[j]
    ensures k in counts ==> r[k] == if Persistent(k) then counts[k] + n else counts[k]
  {
    if Persistent(k) && k in counts then counts[k := counts[k] + n] else counts
  }

  /** `_resolve_floor_assignment`: a truthy `floor`, otherwise the default. */
  function ResolveFloor(d: Dict, default: string): (r: Value)
    ensures Truthy(Lookup(d, "floor")) ==> r == d["floor"]
    ensures !Truthy(Lookup(d, "floor")) ==> r == Str(default)
  {
    if Truthy(Lookup(d, "floor")) then d["floor"] else Str(default)
  }

  /** A tracked created element. */
  datatype Tracked = Tracked(kind: Value, ifcElement: Value, floorName: Value, definition: Dict)

  /** Whether a tracked entry is what the factory records for `d`'s element `v`. */
  function Entry(k: Kind, v: Value, d: Dict): Tracked
  {
    Tracked(Str(KindName(k)), v, ResolveFloor(d, DefaultFloor(k)), d)
  }

  // ------------------------------------------------------------ tracking as written

  /**
   * The tracking loop as written: the i-th created element is paired with
   * the i-th definition (or `{}` past the end), although the creator drops
   * the definitions that fail.
   */
  function TrackAsWritten(k: Kind, defs: seq<Dict>, results: seq<Value>): (r: seq<Tracked>)
    ensures |r| <= |results|
  {
    if results == [] then []
    else
      var prev := TrackAsWritten(k, defs, results[..|results| - 1]);
      var i := |results| - 1;
      if Truthy(results[i]) then prev + [Entry(k, results[i], if i < |defs| then defs[i] else map[])] else prev
  }

  /**
   * A beam whose creator returns nothing for the first definition makes the
   * second beam be tracked with the first definition: it gets the first
   * definition's (here default) floor instead of its own "2FL".
   */
  lemma TrackingMisaligned(d0: Dict, d1: Dict, v: Value, createOne: Dict -> Result<Value>)
    requires d0 == map["id" := Str("B1")] && d1 == map["id" := Str("B2"), "floor" := Str("2FL")]
    requires createOne(d0) == Ok(Null) && createOne(d1) == Ok(v) && Truthy(v)
    ensures TrackAsWritten(Beam, [d0, d1], Created([d0, d1], createOne)) == [Tracked(Str("beam"), v, Str("RFL"), d0)]
  {
    assert [d0, d1][..1] == [d0];
    assert [d0][..0] == [];
    assert Created([d0, d1], createOne) == [v];
    assert [v][..0] == [];
  }

  // ------------------------------------------------------------ tracking with the source definition

  /** Each created element with the definition that produced it, in input order. */
  function Track(k: Kind, defs: seq<Dict>, createOne: Dict -> Result<Value>): (r: seq<Tracked>)
    ensures |r| == |Created(defs, createOne)|
  {
    if defs == [] then []
    else
      var prev := Track(k, defs[..|defs| - 1], createOne);
      var d := defs[|defs| - 1];
      if createOne(d).Ok? && Truthy(createOne(d).value) then prev + [Entry(k, createOne(d).value, d)] else prev
  }

  /** Every tracked entry records an element, the definition it came from and that definition's floor. */
  lemma {:induction false} TrackRecordsSource(k: Kind, defs: seq<Dict>, createOne: Dict -> Result<Value>)
    ensures forall i :: 0 <= i < |Track(k, defs, createOne)| ==>
      var t := Track(k, defs, createOne)[i];
      t.definition in defs && createOne(t.definition) == Ok(t.ifcElement) && Truthy(t.ifcElement)
      && t.floorName == ResolveFloor(t.definition, DefaultFloor(k)) && t.kind == Str(KindName(k))
  {
    if defs != [] {
      TrackRecordsSource(k, defs[..|defs| - 1], createOne);
      assert forall d :: d in defs[..|defs| - 1] ==> d in defs;
    }
  }

  /** The tracked elements are exactly the created ones, in the same order. */
  lemma {:induction false} TrackFollowsCreated(k: Kind, defs: seq<Dict>, createOne: Dict -> Result<Value>)
    ensures forall i :: 0 <= i < |Track(k, defs, createOne)| ==> Track(k, defs, createOne)[i].ifcElement == Created(defs, createOne)[i]
  {
    if defs != [] {
      TrackFollowsCreated(k, defs[..|defs| - 1], createOne);
    }
  }

  /** Where nothing fails the pairing as written is right. */
  lemma {:induction false} AsWrittenAgreesWithoutFailures(k: Kind, defs: seq<Dict>, createOne: Dict -> Result<Value>)
    requires forall i :: 0 <= i < |defs| ==> createOne(defs[i]).Ok? && Truthy(createOne(defs[i]).value)
    ensures TrackAsWritten(k, defs, Created(defs, createOne)) == Track(k, defs, createOne)
  {
    if defs != [] {
      var p := defs[..|defs| - 1];
      assert forall i :: 0 <= i < |p| ==> p[i] == defs[i];
      AsWrittenAgreesWithoutFailures(k, p, createOne);
      AllSucceedAligned(defs, createOne);
      AllSucceedAligned(p, createOne);
      var c := Created(defs, createOne);
      var n := |defs| - 1;
      assert c[..n] == Created(p, createOne);
      TrackPrefixIndependent(k, defs, p, c[..n]);
      assert c[n] == createOne(defs[n]).value && Truthy(c[n]);
      assert TrackAsWritten(k, defs, c) == TrackAsWritten(k, defs, c[..n]) + [Entry(k, c[n], defs[n])];
      assert Track(k, defs, createOne) == Track(k, p, createOne) + [Entry(k, c[n], defs[n])];
    }
  }

  /** The as-written pairing of the first results only looks at the first definitions. */
  lemma {:induction false} TrackPrefixIndependent(k: Kind, defs: seq<Dict>, p: seq<Dict>, results: seq<Value>)
    requires |p| <= |defs| && p == defs[..|p|] && |results| <= |p|
    ensures TrackAsWritten(k, defs, results) == TrackAsWritten(k, p, results)
  {
    if results != [] {
      TrackPrefixIndependent(k, defs, p, results[..|results| - 1]);
      assert p[|results| - 1] == defs[|results| - 1];
    }
  }

  // ------------------------------------------------------------ queries

  /** `elem.get("definition", {}).get("id")` of every tracked entry. */
  function TrackedIds(ts: seq<Tracked>): (r: set<Value>)
    ensures forall x :: x in r <==> exists i :: 0 <= i < |ts| && Lookup(ts[i].definition, "id") == x
  {
    set i | 0 <= i < |ts| :: Lookup(ts[i].definition, "id")
  }

  /** `has_created_elements`. */
  function HasCreated(ts: seq<Tracked>, id: Value): bool
  {
    id in TrackedIds(ts)
  }

  /** `filter_uncreated_elements`: the definitions whose id is not tracked, in order. */
  function FilterUncreated(defs: seq<Dict>, ids: set<Value>): (r: seq<Dict>)
    ensures |r| <= |defs|
    ensures forall d :: d in r <==> d in defs && Lookup(d, "id") !in ids
  {
    if defs == [] then []
    else
      var rest := FilterUncreated(defs[1..], ids);
      assert forall d :: d in defs <==> d == defs[0] || d in defs[1..];
      (if Lookup(defs[0], "id") !in ids then [defs[0]] else []) + rest
  }

  /** A tracked entry without an id puts None among the ids: every id-less definition is then dropped. */
  lemma IdlessDroppedOnceIdlessTracked(ts: seq<Tracked>, defs: seq<Dict>, i: nat)
    requires i < |ts| && "id" !in ts[i].definition
    ensures forall d :: d in FilterUncreated(defs, TrackedIds(ts)) ==> "id" in d
  {
    assert Lookup(ts[i].definition, "id") == Null;
  }

  /** `is_element_created_by_name`: the name matches and, when a type is given, so does the kind. */
  predicate CreatedByName(ts: seq<Tracked>, name: Value, kind: Option<string>)
  {
    exists i :: 0 <= i < |ts| && Lookup(ts[i].definition, "name") == name && (kind.None? || ts[i].kind == Str(kind.value))
  }

  /** `create_creator`: the kept creators, found by lower-cased name. */
  function CreatorFor(t: string): (r: Option<Kind>)
    ensures r.Some? ==> Persistent(r.value) && KindName(r.value) == Strs.Lower(t)
    ensures Strs.Lower(t) == "beam" ==> r == Some(Beam)
    ensures Strs.Lower(t) == "pile" ==> r == None
  {
    var l := Strs.Lower(t);
    if l == "beam" then Some(Beam)
    else if l == "column" then Some(Column)
    else if l == "slab" then Some(Slab)
    else if l == "wall" then Some(Wall)
    else if l == "brace" then Some(Brace)
    else None
  }

  const AllKinds: set<Kind> := {Beam, Column, Slab, Wall, Brace, Pile, Footing, FoundationColumn}

  /** The eight usage counters at zero. */
  function ZeroStats(): (r: map<string, int>)
    ensures forall k: Kind :: StatKey(k) in r && r[StatKey(k)] == 0
  {
    map k | k in AllKinds :: StatKey(k) := 0
  }

  /** The factory. */
  /** The creation loop of one kind: the truthy elements, each tracked with its own definition. */
  method CreateAndTrack(k: Kind, defs: seq<Dict>, createOne: Dict -> Result<Value>) returns (elements: seq<Value>, tracked: seq<Tracked>)
    ensures elements == Created(defs, createOne) && tracked == Track(k, defs, createOne)
  {
    elements := [];
    tracked := [];
    var i := 0;
    while i < |defs|
      invariant 0 <= i <= |defs|
      invariant elements == Created(defs[..i], createOne) && tracked == Track(k, defs[..i], createOne)
    {
      assert defs[..i + 1][..i] == defs[..i];
      var res := createOne(defs[i]);
      if res.Ok? && Truthy(res.value) {
        elements := elements + [res.value];
        tracked := tracked + [Entry(k, res.value, defs[i])];
      }
      i := i + 1;
    }
    assert defs[..i] == defs;
  }

  class Factory {
    var created: seq<Tracked>
    var usage: map<string, int>
    var creatorCounts: map<Kind, int>

    constructor ()
      ensures created == [] && usage == ZeroStats()
      ensures creatorCounts == map[Beam := 0, Column := 0, Slab := 0, Wall := 0, Brace := 0]
    {
      created := [];
      usage := ZeroStats();
      creatorCounts := map[Beam := 0, Column := 0, Slab := 0, Wall := 0, Brace := 0];
    }

    /**
     * `create_beams`, `create_columns`, ... `create_foundation_columns`: the
     * truthy elements are returned, each is tracked with its own definition
     * and floor, and the kind's counters grow by their number. A creator
     * that cannot be had gives no element and changes nothing.
     */
    method CreateElementsOf(k: Kind, defs: seq<Dict>, creator: Result<Dict -> Result<Value>>) returns (elements: seq<Value>)
      requires StatKey(k) in usage
      modifies this
      ensures creator.Err? ==> elements == [] && created == old(created) && usage == old(usage) && creatorCounts == old(creatorCounts)
      ensures creator.Ok? ==> elements == Created(defs, creator.value)
      ensures creator.Ok? ==> created == old(created) + Track(k, defs, creator.value)
      ensures creator.Ok? ==> usage == CountUsage(old(usage), k, |elements|)
      ensures creator.Ok? ==> creatorCounts == CountCreator(old(creatorCounts), k, |elements|)
    {
      if creator.Err? {
        return [];
      }
      var tracked: seq<Tracked>;
      elements, tracked := CreateAndTrack(k, defs, creator.value);
      created := created + tracked;
      usage := CountUsage(usage, k, |elements|);
      creatorCounts := CountCreator(creatorCounts, k, |elements|);
    }

    /** `add_created_element`. */
    method AddCreatedElement(t: Tracked)
      modifies this
      ensures created == old(created) + [t] && usage == old(usage) && creatorCounts == old(creatorCounts)
    {
      created := created + [t];
    }

    /** `is_element_created_by_name`, scanning the tracked list. */
    method IsElementCreatedByName(name: Value, kind: Option<string>) returns (found: bool)
      ensures found <==> CreatedByName(created, name, kind)
    {
      var i := 0;
      while i < |created|
        invariant 0 <= i <= |created|
        invariant forall j :: 0 <= j < i ==> !(Lookup(created[j].definition, "name") == name && (kind.None? || created[j].kind == Str(kind.value)))
      {
        if Lookup(created[i].definition, "name") == name && (kind.None? || created[i].kind == Str(kind.value)) {
          return true;
        }
        i := i + 1;
      }
      return false;
    }

    /** `filter_uncreated_elements`. */
    function FilterUncreatedElements(defs: seq<Dict>): seq<Dict>
      reads this
    {
      FilterUncreated(defs, TrackedIds(created))
    }

    /** `reset_stats`: every counter back to zero and nothing tracked. */
    method ResetStats()
      modifies this
      ensures created == []
      ensures usage.Keys == old(usage.Keys) && forall key :: key in usage ==> usage[key] == 0
      ensures creatorCounts.Keys == old(creatorCounts.Keys) && forall k :: k in creatorCounts ==> creatorCounts[k] == 0
    {
      usage := map key | key in usage :: 0;
      created := [];
      creatorCounts := map k | k in creatorCounts :: 0;
    }
  }

  /** After creating beams, every tracked beam can be found by its definition's id. */
  lemma TrackedBeamFound(old_: seq<Tracked>, defs: seq<Dict>, createOne: Dict -> Result<Value>, i: nat)
    requires i < |defs| && createOne(defs[i]).Ok? && Truthy(createOne(defs[i]).value)
    ensures HasCreated(old_ + Track(Beam, defs, createOne), Lookup(defs[i], "id"))
  {
    TrackContains(Beam, defs, createOne, i);
    var ts := old_ + Track(Beam, defs, createOne);
    var j :| 0 <= j < |Track(Beam, defs, createOne)| && Track(Beam, defs, createOne)[j].definition == defs[i];
    assert ts[|old_| + j].definition == defs[i];
  }

  lemma {:induction false} TrackContains(k: Kind, defs: seq<Dict>, createOne: Dict -> Result<Value>, i: nat)
    requires i < |defs| && createOne(defs[i]).Ok? && Truthy(createOne(defs[i]).value)
    ensures exists j :: 0 <= j < |Track(k, defs, createOne)| && Track(k, defs, createOne)[j].definition == defs[i]
  {
    var t := Track(k, defs, createOne);
    if i == |defs| - 1 {
      assert t[|t| - 1].definition == defs[i];
    } else {
      var p := defs[..|defs| - 1];
      assert p[i] == defs[i];
      TrackContains(k, p, createOne, i);
      var j :| 0 <= j < |Track(k, p, createOne)| && Track(k, p, createOne)[j].definition == p[i];
      assert t[j] == Track(k, p, createOne)[j];
    }
  }
}
