/**
 * The element-centric converter (core/element_centric_converter.py): the
 * elements grouped by story and type are filtered by a three-stage
 * duplicate check (id, name, position/section hash) against registries the
 * converter keeps for its whole life, then created one by one; the
 * converter counts duplicates, failures, created elements per type and per
 * analysis method.
 *
 * The element writer is the parameter `create` (an `Err` is an exception
 * it raises, a falsy `Ok` value a refusal), `md5` is the digest of the hash
 * string and `show` is Python's `str`.
 */
module ElementCentricConverter {
  import opened Wrappers
  import opened Values
  import Strs

  /** `ElementInfo`, without its creation time stamp. */
  datatype ElementInfo = ElementInfo(
    elementId: Value,
    elementType: string,
    ifcElement: Value,
    storyName: string,
    definition: Dict,
    sectionName: Option<string>,
    analysisMethod: Value,
    confidence: Value)

  /** The three duplicate registries. */
  datatype Registries = Registries(ids: set<Value>, names: set<string>, hashes: set<string>)

  /** `ConversionStatistics`, without time and memory figures. */
  datatype Stats = Stats(
    total: int,
    created: int,
    duplicates: int,
    failed: int,
    typeCounts: map<string, int>,
    methodCounts: map<Value, int>)

  /** Everything the converter updates. */
  datatype State = State(reg: Registries, registry: map<Value, ElementInfo>, stats: Stats)

  // ------------------------------------------------------------ naming and hashing

  /** The keys `_get_element_name` tries, in order. */
  const NameKeys: seq<string> := ["name", "stb_section_name", "section_name", "id"]

  /** The first of `keys` whose value is truthy, written with `str`. */
  function FirstTruthyName(e: Dict, keys: seq<string>, show: Value -> string): (r: Option<string>)
    ensures r.None? <==> forall i :: 0 <= i < |keys| ==> !(keys[i] in e && Truthy(e[keys[i]]))
    ensures |keys| > 0 && keys[0] in e && Truthy(e[keys[0]]) ==> r == Some(if e[keys[0]].Str? then e[keys[0]].s else show(e[keys[0]]))
  {
    if keys == [] then None
    else if keys[0] in e && Truthy(e[keys[0]]) then
      Some(if e[keys[0]].Str? then e[keys[0]].s else show(e[keys[0]]))
    else
      var r := FirstTruthyName(e, keys[1..], show);
      assert forall i :: 1 <= i < |keys| ==> keys[i] == keys[1..][i - 1];
      r
  }

  /** `_get_element_name`: the first truthy of name, stb_section_name, section_name and id. */
  function ElementName(e: Dict, show: Value -> string): Option<string>
  {
    FirstTruthyName(e, NameKeys, show)
  }

  /** A falsy `name` gives way to the section name. */
  lemma EmptyNameFallsThrough(e: Dict, show: Value -> string, sec: string)
    requires "name" in e && e["name"] == Str("") && "stb_section_name" in e && e["stb_section_name"] == Str(sec) && sec != ""
    ensures ElementName(e, show) == Some(sec)
  {
    assert NameKeys[1..] == ["stb_section_name", "section_name", "id"];
  }

  /** The keys whose values the hash covers, in order: position, section, nodes. */
  const HashKeys: seq<string> := [
    "start_point", "end_point", "center_point", "coordinates",
    "section_name", "stb_section_name", "section_id",
    "start_node_id", "end_node_id", "node_ids"]

  /** `str` of the values of the keys present, in key order. */
  function HashComponents(e: Dict, keys: seq<string>, show: Value -> string): (r: seq<string>)
    ensures |r| <= |keys|
    ensures (forall i :: 0 <= i < |keys| ==> keys[i] !in e) ==> r == []
  {
    if keys == [] then []
    else (if keys[0] in e then [show(e[keys[0]])] else []) + HashComponents(e, keys[1..], show)
  }

  /** The string `_calculate_element_hash` digests: the components joined with '|'. */
  function HashString(e: Dict, show: Value -> string): string
  {
    Strs.Join(HashComponents(e, HashKeys, show), "|")
  }

  /** A beam with only its two end points hashes "start|end", start first. */
  lemma HashOfTwoPoints(e: Dict, show: Value -> string)
    requires e.Keys == {"id", "start_point", "end_point"}
    ensures HashString(e, show) == show(e["start_point"]) + "|" + show(e["end_point"])
  {
    var rest := HashKeys[2..];
    assert forall i :: 0 <= i < |rest| ==> rest[i] !in e;
    assert HashKeys[1..][1..] == rest;
    assert HashComponents(e, HashKeys, show) == [show(e["start_point"]), show(e["end_point"])];
  }

  // ------------------------------------------------------------ three-stage dedup

  /** `element_def.get('id', f'no_id_{i}')`. */
  function IdAt(e: Dict, i: nat): Value
  {
    LookupOr(e, "id", Str("no_id_" + Strs.NatToString(i)))
  }

  /** The element is rejected by one of the three stages. */
  predicate IsDuplicate(r: Registries, e: Dict, i: nat, show: Value -> string, md5: string -> string)
  {
    (Truthy(IdAt(e, i)) && IdAt(e, i) in r.ids)
    || (ElementName(e, show).Some? && ElementName(e, show).value != "" && ElementName(e, show).value in r.names)
    || md5(HashString(e, show)) in r.hashes
  }

  /** A kept element records its truthy id, its non-empty name and its hash. */
  function Record(r: Registries, e: Dict, i: nat, show: Value -> string, md5: string -> string): (r': Registries)
    ensures r.ids <= r'.ids && r.names <= r'.names && r.hashes <= r'.hashes
    ensures md5(HashString(e, show)) in r'.hashes
    ensures Truthy(IdAt(e, i)) ==> IdAt(e, i) in r'.ids
    ensures ElementName(e, show).Some? && ElementName(e, show).value != "" ==> ElementName(e, show).value in r'.names
  {
    var name := ElementName(e, show);
    Registries(
      if Truthy(IdAt(e, i)) then r.ids + {IdAt(e, i)} else r.ids,
      if name.Some? && name.value != "" then r.names + {name.value} else r.names,
      r.hashes + {md5(HashString(e, show))})
  }

  /** The registries and the kept elements after the first `n` elements of `defs`. */
  function DedupPrefix(r: Registries, defs: seq<Dict>, n: nat, show: Value -> string, md5: string -> string): (out: (Registries, seq<Dict>))
    requires n <= |defs|
    ensures |out.1| <= n
    ensures r.ids <= out.0.ids && r.names <= out.0.names && r.hashes <= out.0.hashes
  {
    if n == 0 then (r, [])
    else
      var prev := DedupPrefix(r, defs, n - 1, show, md5);
      if IsDuplicate(prev.0, defs[n - 1], n - 1, show, md5) then prev
      else (Record(prev.0, defs[n - 1], n - 1, show, md5), prev.1 + [defs[n - 1]])
  }

  /** Larger registries reject at least what smaller ones reject. */
  predicate Within(a: Registries, b: Registries)
  {
    a.ids <= b.ids && a.names <= b.names && a.hashes <= b.hashes
  }

  /** After a pass, every element of that pass is a duplicate for the registries it left. */
  lemma {:induction false} DedupMarksAll(r: Registries, defs: seq<Dict>, n: nat, show: Value -> string, md5: string -> string)
    requires n <= |defs|
    ensures forall i :: 0 <= i < n ==> IsDuplicate(DedupPrefix(r, defs, n, show, md5).0, defs[i], i, show, md5)
  {
    if n > 0 {
      DedupMarksAll(r, defs, n - 1, show, md5);
      var prev := DedupPrefix(r, defs, n - 1, show, md5);
      var cur := DedupPrefix(r, defs, n, show, md5);
      assert Within(prev.0, cur.0);
      forall i | 0 <= i < n
        ensures IsDuplicate(cur.0, defs[i], i, show, md5)
      {
        if i < n - 1 {
          DuplicateGrows(prev.0, cur.0, defs[i], i, show, md5);
        } else if !IsDuplicate(prev.0, defs[i], i, show, md5) {
          assert md5(HashString(defs[i], show)) in cur.0.hashes;
        } else {
          DuplicateGrows(prev.0, cur.0, defs[i], i, show, md5);
        }
      }
    }
  }

  lemma DuplicateGrows(a: Registries, b: Registries, e: Dict, i: nat, show: Value -> string, md5: string -> string)
    requires Within(a, b) && IsDuplicate(a, e, i, show, md5)
    ensures IsDuplicate(b, e, i, show, md5)
  {
  }

  /** Nothing is kept from a pass over elements that are all duplicates already. */
  lemma {:induction false} AllDuplicatesKeepNothing(r: Registries, defs: seq<Dict>, n: nat, show: Value -> string, md5: string -> string)
    requires n <= |defs|
    requires forall i :: 0 <= i < |defs| ==> IsDuplicate(r, defs[i], i, show, md5)
    ensures DedupPrefix(r, defs, n, show, md5) == (r, [])
  {
    if n > 0 {
      AllDuplicatesKeepNothing(r, defs, n - 1, show, md5);
    }
  }

  /** The registries persist: running the same list through the check again keeps nothing. */
  lemma SecondPassKeepsNothing(r: Registries, defs: seq<Dict>, show: Value -> string, md5: string -> string)
    ensures var first := DedupPrefix(r, defs, |defs|, show, md5);
      DedupPrefix(first.0, defs, |defs|, show, md5).1 == []
  {
    DedupMarksAll(r, defs, |defs|, show, md5);
    AllDuplicatesKeepNothing(DedupPrefix(r, defs, |defs|, show, md5).0, defs, |defs|, show, md5);
  }

  /**
   * A fresh converter gives an id-less element the id "no_id_i" from its
   * position in its batch: an id-less element at the same position of a
   * later batch is dropped as a duplicate.
   */
  lemma IdlessSamePositionCollides(a: seq<Dict>, b: seq<Dict>, show: Value -> string, md5: string -> string)
    requires |a| > 0 && |b| > 0 && "id" !in a[0] && "id" !in b[0]
    ensures DedupPrefix(DedupPrefix(Registries({}, {}, {}), a, 1, show, md5).0, b, 1, show, md5).1 == []
  {
    var r0 := Registries({}, {}, {});
    assert IdAt(a[0], 0) == IdAt(b[0], 0);
    FirstKept(r0, a, show, md5);
    var r1 := DedupPrefix(r0, a, 1, show, md5).0;
    FirstDropped(r1, b, show, md5);
  }

  lemma FirstKept(r: Registries, defs: seq<Dict>, show: Value -> string, md5: string -> string)
    requires |defs| > 0 && r == Registries({}, {}, {}) && "id" !in defs[0]
    ensures IdAt(defs[0], 0) in DedupPrefix(r, defs, 1, show, md5).0.ids
  {
    assert !IsDuplicate(r, defs[0], 0, show, md5);
    assert Truthy(IdAt(defs[0], 0));
  }

  lemma FirstDropped(r: Registries, defs: seq<Dict>, show: Value -> string, md5: string -> string)
    requires |defs| > 0 && IdAt(defs[0], 0) in r.ids && "id" !in defs[0]
    ensures DedupPrefix(r, defs, 1, show, md5).1 == []
  {
    assert Truthy(IdAt(defs[0], 0));
    assert IsDuplicate(r, defs[0], 0, show, md5);
  }

  // ------------------------------------------------------------ creation

  /** `d[k] += n`, creating the key at 0. */
  function Bump<K(!new)>(d: map<K, int>, k: K, n: int): (r: map<K, int>)
    ensures k in r && r[k] == (if k in d then d[k] else 0) + n
    ensures forall j :: j != k ==> (j in r <==> j in d) && (j in d ==> r[j] == d[j])
  {
    d[k := (if k in d then d[k] else 0) + n]
  }

  /** One element of `_create_elements_batch`. */
  function CreateOne(st: State, created: seq<ElementInfo>, e: Dict, t: string, story: string,
                     create: (Dict, string) -> Result<Value>, show: Value -> string): (out: (State, seq<ElementInfo>))
    ensures create(e, t).Err? ==> out == (st.(stats := st.stats.(failed := st.stats.failed + 1)), created)
    ensures create(e, t).Ok? && !Truthy(create(e, t).value) ==> out == (st, created)
    ensures create(e, t).Ok? && Truthy(create(e, t).value) ==> |out.1| == |created| + 1 && out.0.stats.failed == st.stats.failed
    ensures out.0.reg == st.reg && out.0.stats.duplicates == st.stats.duplicates
  {
    match create(e, t)
    case Err(_) => (st.(stats := st.stats.(failed := st.stats.failed + 1)), created)
    case Ok(v) =>
      if !Truthy(v) then (st, created)
      else
        var info := ElementInfo(
          LookupOr(e, "id", Str(t + "_" + Strs.NatToString(|created|))), t, v, story, e,
          ElementName(e, show), Lookup(e, "analysis_method"), LookupOr(e, "analysis_confidence", Num(1.0)));
        var counted := LookupOr(e, "analysis_method", Str("unknown"));
        (st.(registry := st.registry[info.elementId := info],
             stats := st.stats.(methodCounts := Bump(st.stats.methodCounts, counted, 1))),
         created + [info])
  }

  /** The state and the created elements after the first `n` elements of a batch. */
  function CreatePrefix(st: State, defs: seq<Dict>, n: nat, t: string, story: string,
                        create: (Dict, string) -> Result<Value>, show: Value -> string): (out: (State, seq<ElementInfo>))
    requires n <= |defs|
    ensures out.0.reg == st.reg && out.0.stats.duplicates == st.stats.duplicates
    ensures |out.1| <= n
  {
    if n == 0 then (st, [])
    else
      var prev := CreatePrefix(st, defs, n - 1, t, story, create, show);
      CreateOne(prev.0, prev.1, defs[n - 1], t, story, create, show)
  }

  /** How many elements of `defs[..n]` make the writer raise. */
  function Raising(defs: seq<Dict>, n: nat, t: string, create: (Dict, string) -> Result<Value>): nat
    requires n <= |defs|
  {
    if n == 0 then 0 else Raising(defs, n - 1, t, create) + (if create(defs[n - 1], t).Err? then 1 else 0)
  }

  /** Every exception of the writer counts as one failed element; nothing else does. */
  lemma {:induction false} FailedCountsExceptions(st: State, defs: seq<Dict>, n: nat, t: string, story: string,
                                                   create: (Dict, string) -> Result<Value>, show: Value -> string)
    requires n <= |defs|
    ensures CreatePrefix(st, defs, n, t, story, create, show).0.stats.failed == st.stats.failed + Raising(defs, n, t, create)
  {
    if n > 0 {
      FailedCountsExceptions(st, defs, n - 1, t, story, create, show);
    }
  }

  /** Every created element carries the batch's type and story and a truthy IFC element. */
  lemma {:induction false} CreatedBelongToBatch(st: State, defs: seq<Dict>, n: nat, t: string, story: string,
                                                 create: (Dict, string) -> Result<Value>, show: Value -> string)
    requires n <= |defs|
    ensures forall i :: 0 <= i < |CreatePrefix(st, defs, n, t, story, create, show).1| ==>
      var info := CreatePrefix(st, defs, n, t, story, create, show).1[i];
      info.elementType == t && info.storyName == story && Truthy(info.ifcElement)
  {
    if n > 0 {
      CreatedBelongToBatch(st, defs, n - 1, t, story, create, show);
    }
  }

  /** One (story, type, definitions) group: dedup, then creation, then the per-type count. */
  /** The state after the duplicate check of a group: the grown registries, the dropped elements counted. */
  function Deduped(st: State, defs: seq<Dict>, show: Value -> string, md5: string -> string): (r: (State, seq<Dict>))
  {
    var dd := DedupPrefix(st.reg, defs, |defs|, show, md5);
    (st.(reg := dd.0, stats := st.stats.(duplicates := st.stats.duplicates + |defs| - |dd.1|)), dd.1)
  }

  /** The state after a group's elements are created: its type counted by the number created. */
  function TypeCounted(made: (State, seq<ElementInfo>), t: string): (State, seq<ElementInfo>)
  {
    (made.0.(stats := made.0.stats.(typeCounts := Bump(made.0.stats.typeCounts, t, |made.1|))), made.1)
  }

  function ProcessGroup(st: State, story: string, t: string, defs: seq<Dict>,
                        create: (Dict, string) -> Result<Value>, show: Value -> string, md5: string -> string): (out: (State, seq<ElementInfo>))
    ensures defs == [] ==> out == (st, [])
    ensures defs != [] ==> out.0.stats.duplicates == st.stats.duplicates + |defs| - |DedupPrefix(st.reg, defs, |defs|, show, md5).1|
    ensures defs != [] ==> t in out.0.stats.typeCounts
  {
    if defs == [] then (st, [])
    else
      var d := Deduped(st, defs, show, md5);
      TypeCounted(CreatePrefix(d.0, d.1, |d.1|, t, story, create, show), t)
  }


  /** `{story: {type: [definitions]}}` in dictionary order. */
  type Grouped = seq<(string, seq<(string, seq<Dict>)>)>

  /** The groups of one story as (story, type, definitions) triples. */
  function Triples(story: string, types: seq<(string, seq<Dict>)>): (r: seq<(string, string, seq<Dict>)>)
    ensures |r| == |types| && forall i :: 0 <= i < |types| ==> r[i] == (story, types[i].0, types[i].1)
  {
    seq(|types|, i requires 0 <= i < |types| => (story, types[i].0, types[i].1))
  }

  /** Every group, in the order the converter visits them. */
  function Flatten(g: Grouped): seq<(string, string, seq<Dict>)>
  {
    if g == [] then [] else Flatten(g[..|g| - 1]) + Triples(g[|g| - 1].0, g[|g| - 1].1)
  }

  /** The number of definitions in all groups. */
  function TotalDefs(gs: seq<(string, string, seq<Dict>)>): nat
  {
    if gs == [] then 0 else TotalDefs(gs[..|gs| - 1]) + |gs[|gs| - 1].2|
  }

  /** The state and the created elements after running the groups, starting from `acc`. */
  function ProcessFrom(acc: (State, seq<ElementInfo>), gs: seq<(string, string, seq<Dict>)>,
                       create: (Dict, string) -> Result<Value>, show: Value -> string, md5: string -> string): (out: (State, seq<ElementInfo>))
  {
    if gs == [] then acc
    else
      var prev := ProcessFrom(acc, gs[..|gs| - 1], create, show, md5);
      var g := gs[|gs| - 1];
      var next := ProcessGroup(prev.0, g.0, g.1, g.2, create, show, md5);
      (next.0, prev.1 + next.1)
  }

  lemma ProcessFromSnoc(acc: (State, seq<ElementInfo>), gs: seq<(string, string, seq<Dict>)>, g: (string, string, seq<Dict>),
                        create: (Dict, string) -> Result<Value>, show: Value -> string, md5: string -> string)
    ensures var prev := ProcessFrom(acc, gs, create, show, md5);
      var next := ProcessGroup(prev.0, g.0, g.1, g.2, create, show, md5);
      ProcessFrom(acc, gs + [g], create, show, md5) == (next.0, prev.1 + next.1)
  {
    assert (gs + [g])[..|gs|] == gs;
  }

  lemma {:induction false} ProcessFromAppend(acc: (State, seq<ElementInfo>), xs: seq<(string, string, seq<Dict>)>, ys: seq<(string, string, seq<Dict>)>,
                                            create: (Dict, string) -> Result<Value>, show: Value -> string, md5: string -> string)
    ensures ProcessFrom(acc, xs + ys, create, show, md5) == ProcessFrom(ProcessFrom(acc, xs, create, show, md5), ys, create, show, md5)
    decreases |ys|
  {
    if ys == [] {
      assert xs + ys == xs;
    } else {
      var y := ys[|ys| - 1];
      var ys' := ys[..|ys| - 1];
      assert xs + ys == (xs + ys') + [y];
      ProcessFromSnoc(acc, xs + ys', y, create, show, md5);
      ProcessFromAppend(acc, xs, ys', create, show, md5);
      ProcessFromSnoc(ProcessFrom(acc, xs, create, show, md5), ys', y, create, show, md5);
      assert ys' + [y] == ys;
    }
  }

  /** Duplicates never decrease, and grow by at most the number of definitions. */
  lemma {:induction false} DuplicatesBounded(acc: (State, seq<ElementInfo>), gs: seq<(string, string, seq<Dict>)>,
                                             create: (Dict, string) -> Result<Value>, show: Value -> string, md5: string -> string)
    ensures ProcessFrom(acc, gs, create, show, md5).0.stats.duplicates >= acc.0.stats.duplicates
    ensures ProcessFrom(acc, gs, create, show, md5).0.stats.duplicates - acc.0.stats.duplicates <= TotalDefs(gs)
  {
    if gs != [] {
      DuplicatesBounded(acc, gs[..|gs| - 1], create, show, md5);
      var prev := ProcessFrom(acc, gs[..|gs| - 1], create, show, md5);
      var g := gs[|gs| - 1];
      if g.2 != [] {
        CreateKeepsDuplicates(prev.0, g.1, g.0, g.2, create, show, md5);
      }
    }
  }

  lemma CreateKeepsDuplicates(st: State, t: string, story: string, defs: seq<Dict>,
                              create: (Dict, string) -> Result<Value>, show: Value -> string, md5: string -> string)
    requires defs != []
    ensures var dd := DedupPrefix(st.reg, defs, |defs|, show, md5);
      ProcessGroup(st, story, t, defs, create, show, md5).0.stats.duplicates - st.stats.duplicates == |defs| - |dd.1| >= 0
  {
  }

  // ------------------------------------------------------------ story elevations

  /** `d[k] = v` on an ordered dictionary: an existing key keeps its place. */
  function Put(d: seq<(string, real, real)>, k: string, base: real, top: real): (r: seq<(string, real, real)>)
    ensures |r| == |d| || |r| == |d| + 1
    ensures (k, base, top) in r
  {
    if d == [] then [(k, base, top)]
    else if d[0].0 == k then [(k, base, top)] + d[1..]
    else
      var rest := Put(d[1..], k, base, top);
      assert ([d[0]] + rest)[1..] == rest;
      [d[0]] + rest
  }

  /** One story's range: elevation to elevation + height, the height defaulting to 3000. */
  function StoryRange(s: Dict): (r: Result<(real, real)>)
    ensures "elevation" !in s && "height" !in s ==> r == Ok((0.0, 3000.0))
    ensures r.Ok? && "height" !in s ==> r.value.1 - r.value.0 == 3000.0
    ensures r.Ok? && "height" in s ==> ToFloat(s["height"]) == Ok(r.value.1 - r.value.0)
  {
    match (ToFloat(LookupOr(s, "elevation", Num(0.0))), ToFloat(LookupOr(s, "height", Num(3000.0))))
    case (Ok(e), Ok(h)) => Ok((e, e + h))
    case (Err(err), _) => Err(err)
    case (_, Err(err)) => Err(err)
  }

  /** `_prepare_story_elevations`: name (else id), range; a later story with the same name overwrites in place. */
  function PrepareStoryElevations(stories: seq<Dict>, show: Value -> string): (r: Result<seq<(string, real, real)>>)
    ensures stories == [] ==> r == Ok([])
  {
    if stories == [] then Ok([])
    else
      match PrepareStoryElevations(stories[..|stories| - 1], show)
      case Err(err) => Err(err)
      case Ok(prev) =>
        var s := stories[|stories| - 1];
        var nameValue := LookupOr(s, "name", Lookup(s, "id"));
        var name := if nameValue.Str? then nameValue.s else show(nameValue);
        match StoryRange(s)
        case Err(err) => Err(err)
        case Ok(range) => Ok(Put(prev, name, range.0, range.1))
  }

  /** A story with elevation 3000 and no height spans 3000 to 6000. */
  lemma DefaultHeightRange(name: string, show: Value -> string)
    ensures PrepareStoryElevations([map["name" := Str(name), "elevation" := Num(3000.0)]], show) == Ok([(name, 3000.0, 6000.0)])
  {
    var s := map["name" := Str(name), "elevation" := Num(3000.0)];
    assert [s][..0] == [];
    assert StoryRange(s) == Ok((3000.0, 6000.0));
  }

  // ------------------------------------------------------------ integrity

  /** The distinct values of a sequence, as `set(...)` builds them. */
  function SetOf(s: seq<Value>): (r: set<Value>)
    ensures forall x :: x in r <==> x in s
  {
    if s == [] then {} else SetOf(s[..|s| - 1]) + {s[|s| - 1]}
  }

  /** The ids of the elements, in order. */
  function IdsOf(es: seq<ElementInfo>): (r: seq<Value>)
    ensures |r| == |es| && forall i :: 0 <= i < |es| ==> r[i] == es[i].elementId
  {
    seq(|es|, i requires 0 <= i < |es| => es[i].elementId)
  }

  /** `validate_element_integrity`: every id and element truthy, then `len(ids) == len(set(ids))`. */
  function ValidateElementIntegrity(es: seq<ElementInfo>): bool
  {
    (forall i :: 0 <= i < |es| ==> Truthy(es[i].elementId) && Truthy(es[i].ifcElement))
    && |IdsOf(es)| == |SetOf(IdsOf(es))|
  }

  predicate Distinct(s: seq<Value>)
  {
    forall i, j :: 0 <= i < j < |s| ==> s[i] != s[j]
  }

  lemma DistinctSnoc(p: seq<Value>, x: Value)
    requires x !in p
    ensures Distinct(p + [x]) <==> Distinct(p)
  {
    var s := p + [x];
    if Distinct(p) {
      forall i, j | 0 <= i < j < |s|
        ensures s[i] != s[j]
      {
        assert s[i] == p[i];
      }
    }
    if Distinct(s) {
      forall i, j | 0 <= i < j < |p|
        ensures p[i] != p[j]
      {
        assert p[i] == s[i] && p[j] == s[j];
      }
    }
  }

  lemma {:induction false} SetOfSize(s: seq<Value>)
    ensures |SetOf(s)| <= |s|
    ensures |SetOf(s)| == |s| <==> Distinct(s)
  {
    if s != [] {
      var p := s[..|s| - 1];
      var x := s[|s| - 1];
      assert s == p + [x];
      SetOfSize(p);
      if x in p {
        var k :| 0 <= k < |p| && p[k] == x;
        assert SetOf(s) == SetOf(p);
        assert s[k] == s[|s| - 1];
      } else {
        assert |SetOf(s)| == |SetOf(p)| + 1;
        DistinctSnoc(p, x);
      }
    }
  }

  /** Integrity holds exactly when every id and element is truthy and no two ids are equal. */
  lemma IntegrityIff(es: seq<ElementInfo>)
    ensures ValidateElementIntegrity(es) <==>
      (forall i :: 0 <= i < |es| ==> Truthy(es[i].elementId) && Truthy(es[i].ifcElement))
      && (forall i, j :: 0 <= i < j < |es| ==> es[i].elementId != es[j].elementId)
  {
    SetOfSize(IdsOf(es));
  }

  // ------------------------------------------------------------ the converter

  /** The converter: registries and statistics live as long as the object. */
  class Converter {
    var idSet: set<Value>
    var nameSet: set<string>
    var hashSet: set<string>
    var registry: map<Value, ElementInfo>
    var statistics: Stats

    /** Everything the converter has recorded so far. */
    function Snapshot(): State
      reads this
    {
      State(Registries(idSet, nameSet, hashSet), registry, statistics)
    }

    constructor ()
      ensures Snapshot() == State(Registries({}, {}, {}), map[], Stats(0, 0, 0, 0, map[], map[]))
    {
      idSet := {};
      nameSet := {};
      hashSet := {};
      registry := map[];
      statistics := Stats(0, 0, 0, 0, map[], map[]);
    }

    /** `_ensure_no_duplicates`: the registries grow by what the kept elements record. */
    method EnsureNoDuplicates(defs: seq<Dict>, show: Value -> string, md5: string -> string) returns (unique: seq<Dict>)
      modifies this
      ensures (Registries(idSet, nameSet, hashSet), unique) == DedupPrefix(old(Snapshot()).reg, defs, |defs|, show, md5)
      ensures registry == old(registry) && statistics == old(statistics)
    {
      unique := [];
      var i := 0;
      while i < |defs|
        invariant 0 <= i <= |defs|
        invariant (Registries(idSet, nameSet, hashSet), unique) == DedupPrefix(old(Snapshot()).reg, defs, i, show, md5)
        invariant registry == old(registry) && statistics == old(statistics)
      {
        var e := defs[i];
        var id := IdAt(e, i);
        var name := ElementName(e, show);
        var h := md5(HashString(e, show));
        if Truthy(id) && id in idSet {
        } else if name.Some? && name.value != "" && name.value in nameSet {
        } else if h in hashSet {
        } else {
          if Truthy(id) {
            idSet := idSet + {id};
          }
          if name.Some? && name.value != "" {
            nameSet := nameSet + {name.value};
          }
          hashSet := hashSet + {h};
          unique := unique + [e];
        }
        i := i + 1;
      }
    }

    /** `_create_elements_batch`. */
    method CreateElementsBatch(defs: seq<Dict>, t: string, story: string,
                               create: (Dict, string) -> Result<Value>, show: Value -> string) returns (created: seq<ElementInfo>)
      modifies this
      ensures (Snapshot(), created) == CreatePrefix(old(Snapshot()), defs, |defs|, t, story, create, show)
    {
      created := [];
      var i := 0;
      while i < |defs|
        invariant 0 <= i <= |defs|
        invariant (Snapshot(), created) == CreatePrefix(old(Snapshot()), defs, i, t, story, create, show)
      {
        var e := defs[i];
        match create(e, t) {
          case Err(_) =>
            statistics := statistics.(failed := statistics.failed + 1);
          case Ok(v) =>
            if Truthy(v) {
            var info := ElementInfo(
              LookupOr(e, "id", Str(t + "_" + Strs.NatToString(|created|))), t, v, story, e,
              ElementName(e, show), Lookup(e, "analysis_method"), LookupOr(e, "analysis_confidence", Num(1.0)));
            created := created + [info];
            registry := registry[info.elementId := info];
            var counted := LookupOr(e, "analysis_method", Str("unknown"));
            statistics := statistics.(methodCounts := Bump(statistics.methodCounts, counted, 1));
          }
        }
        i := i + 1;
      }
    }

    /** One group of `create_elements_with_story_info`. */
    method ProcessOneGroup(story: string, t: string, defs: seq<Dict>,
                           create: (Dict, string) -> Result<Value>, show: Value -> string, md5: string -> string) returns (created: seq<ElementInfo>)
      modifies this
      ensures (Snapshot(), created) == ProcessGroup(old(Snapshot()), story, t, defs, create, show, md5)
    {
      if defs == [] {
        return [];
      }
      ghost var s0 := Snapshot();
      var unique := EnsureNoDuplicates(defs, show, md5);
      statistics := statistics.(duplicates := statistics.duplicates + |defs| - |unique|);
      assert (Snapshot(), unique) == Deduped(s0, defs, show, md5);
      ghost var s1 := Snapshot();
      created := CreateElementsBatch(unique, t, story, create, show);
      ghost var made := (Snapshot(), created);
      statistics := statistics.(typeCounts := Bump(statistics.typeCounts, t, |created|));
      assert (Snapshot(), created) == TypeCounted(made, t);
    }

    /**
     * `create_elements_with_story_info`: the total is set first, every group
     * is processed in order and the created count is the length of the result.
     */
    method CreateElementsWithStoryInfo(g: Grouped, create: (Dict, string) -> Result<Value>, show: Value -> string, md5: string -> string)
      returns (all: seq<ElementInfo>)
      modifies this
      ensures var st0 := old(Snapshot()).(stats := old(statistics).(total := TotalDefs(Flatten(g))));
        var out := ProcessFrom((st0, []), Flatten(g), create, show, md5);
        all == out.1 && Snapshot() == out.0.(stats := out.0.stats.(created := |all|))
    {
      statistics := statistics.(total := TotalDefs(Flatten(g)));
      ghost var st0 := Snapshot();
      all := [];
      var i := 0;
      while i < |g|
        invariant 0 <= i <= |g|
        invariant (Snapshot(), all) == ProcessFrom((st0, []), Flatten(g[..i]), create, show, md5)
      {
        var story := g[i].0;
        var types := g[i].1;
        ghost var acc := (Snapshot(), all);
        var j := 0;
        while j < |types|
          invariant 0 <= j <= |types|
          invariant (Snapshot(), all) == ProcessFrom(acc, Triples(story, types[..j]), create, show, md5)
        {
          var made := ProcessOneGroup(story, types[j].0, types[j].1, create, show, md5);
          ProcessFromSnoc(acc, Triples(story, types[..j]), (story, types[j].0, types[j].1), create, show, md5);
          assert Triples(story, types[..j + 1]) == Triples(story, types[..j]) + [(story, types[j].0, types[j].1)];
          all := all + made;
          j := j + 1;
        }
        assert types[..j] == types;
        ProcessFromAppend((st0, []), Flatten(g[..i]), Triples(story, types), create, show, md5);
        assert g[..i + 1][..i] == g[..i];
        i := i + 1;
      }
      assert g[..i] == g;
      statistics := statistics.(created := |all|);
    }
  }
}
