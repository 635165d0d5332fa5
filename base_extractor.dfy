/**
 * The element extraction framework (stbParser/base_extractor.py): the
 * containers of one element family are visited in configuration order
 * under StbMembers, and every element's result is spliced into one list.
 */
module BaseExtractor {
  import opened Wrappers
  import opened Values
  import opened Xml
  import opened ExtractorUtils
  import opened SectionBase

  /** What `_extract_single_element` returns: nothing, one definition or a list of them. */
  datatype Extracted = Skipped | One(def: Dict) | Many(defs: seq<Dict>)

  /**
   * How a result enters the list: a list is spliced in, a dictionary
   * appended, and a falsy result (None, {} or []) adds nothing.
   */
  function Spliced(x: Extracted): (r: seq<Dict>)
    ensures r == [] <==> x.Skipped? || (x.One? && x.def == map[]) || (x.Many? && x.defs == [])
    ensures forall d :: d in r ==> (x.One? && d == x.def) || (x.Many? && d in x.defs)
    ensures x.One? ==> |r| <= 1
  {
    match x
    case Skipped => []
    case One(d) => if d == map[] then [] else [d]
    case Many(ds) => ds
  }

  /** An attribute as a Python f-string shows it: an absent one prints as "None". */
  function IdText(e: Element, name: string): (r: string)
    ensures name in e.attrs ==> r == e.attrs[name]
    ensures name !in e.attrs ==> r == "None"
  {
    GetOr(e, name, "None")
  }

  /**
   * The floor rule the element extractors share: a non-empty `floor`
   * attribute, else the non-empty story of the node `node`, else nothing.
   */
  function StoryFloor(e: Element, storyMap: map<string, string>, node: Option<string>): Option<string>
  {
    if HasTruthy(e, "floor") then Some(e.attrs["floor"])
    else if node.Some? && node.value in storyMap && storyMap[node.value] != "" then Some(storyMap[node.value])
    else None
  }

  /** The floor is the attribute when it is set, and otherwise only ever a known non-empty story of the node. */
  lemma StoryFloorSpec(e: Element, storyMap: map<string, string>, node: Option<string>)
    ensures HasTruthy(e, "floor") ==> StoryFloor(e, storyMap, node) == Some(e.attrs["floor"])
    ensures (!HasTruthy(e, "floor") && StoryFloor(e, storyMap, node).Some?) ==>
      (node.Some? && node.value in storyMap && StoryFloor(e, storyMap, node).value == storyMap[node.value] != "")
    ensures StoryFloor(e, storyMap, node).None? <==>
      (!HasTruthy(e, "floor") && (node.None? || node.value !in storyMap || storyMap[node.value] == ""))
  {
  }

  /** The definition with its floor key, when a floor was found. */
  function WithFloor(d: Dict, floor: Option<string>): (r: Dict)
    ensures floor.Some? ==> "floor" in r && r["floor"] == Str(floor.value)
    ensures floor.None? ==> r == d
    ensures forall k :: k in d && k != "floor" ==> k in r && r[k] == d[k]
  {
    if floor.Some? then d["floor" := Str(floor.value)] else d
  }

  /**
   * A tapered section (one holding start_section and end_section) goes to
   * the two keys `startKey`/`endKey`, any other section to "section"; no
   * other key changes.
   */
  function WithSections(d: Dict, info: Dict, startKey: string, endKey: string): (r: Dict)
    requires startKey != endKey
    ensures "start_section" in info && "end_section" in info ==>
      Has(r, startKey, info["start_section"]) && Has(r, endKey, info["end_section"])
    ensures !("start_section" in info && "end_section" in info) ==> Has(r, "section", Dict(info))
  {
    if "start_section" in info && "end_section" in info then d[startKey := info["start_section"]][endKey := info["end_section"]]
    else d["section" := Dict(info)]
  }

  /** Adding the section keys leaves every other key as it was. */
  lemma WithSectionsKeeps(d: Dict, info: Dict, startKey: string, endKey: string, k: string)
    requires startKey != endKey && k != startKey && k != endKey && k != "section"
    ensures k in WithSections(d, info, startKey, endKey) <==> k in d
    ensures k in d ==> WithSections(d, info, startKey, endKey)[k] == d[k]
  {
  }

  /** A container of one element kind. */
  datatype ContainerConfig = ContainerConfig(containerTag: string, elementTag: string, elementType: string)

  /** The containers of one family, in the order they are visited. */
  datatype ExtractionConfig = ExtractionConfig(containers: seq<ContainerConfig>, resultName: string)

  const BeamConfig := ExtractionConfig([ContainerConfig("StbGirders", "StbGirder", "StbGirder"), ContainerConfig("StbBeams", "StbBeam", "StbBeam")], "beam_defs")
  const ColumnConfig := ExtractionConfig([ContainerConfig("StbColumns", "StbColumn", "StbColumn"), ContainerConfig("StbPosts", "StbPost", "StbPost")], "column_defs")
  const WallConfig := ExtractionConfig([ContainerConfig("StbWalls", "StbWall", "StbWall")], "wall_defs")
  const SlabConfig := ExtractionConfig([ContainerConfig("StbSlabs", "StbSlab", "StbSlab")], "slab_defs")
  const BraceConfig := ExtractionConfig([ContainerConfig("StbBraces", "StbBrace", "StbBrace")], "brace_defs")
  const FoundationColumnConfig := ExtractionConfig([ContainerConfig("StbFoundationColumns", "StbFoundationColumn", "StbFoundationColumn")], "foundation_column_defs")
  const FootingConfig := ExtractionConfig([ContainerConfig("StbFootings", "StbFooting", "StbFooting")], "footing_defs")
  const PileConfig := ExtractionConfig([ContainerConfig("StbPiles", "StbPile", "StbPile")], "pile_defs")

  /**
   * A family's `_extract_single_element`: the element, its element type and
   * the node-to-story map. An exception it lets escape is an `Err`.
   */
  type SingleExtractor = (Element, string, map<string, string>) -> Result<Extracted>

  /** The elements `es` in order; the first error stops the pass. */
  function Collect(es: seq<Element>, elementType: string, storyMap: map<string, string>, single: SingleExtractor): Result<seq<Dict>>
  {
    if es == [] then Ok([])
    else
      match Collect(es[..|es| - 1], elementType, storyMap, single)
      case Err(err) => Err(err)
      case Ok(defs) =>
        match single(es[|es| - 1], elementType, storyMap)
        case Err(err) => Err(err)
        case Ok(x) => Ok(defs + Spliced(x))
  }

  /** The pass succeeds exactly when every element's extraction does. */
  lemma {:induction false} CollectOk(es: seq<Element>, elementType: string, storyMap: map<string, string>, single: SingleExtractor)
    ensures Collect(es, elementType, storyMap, single).Ok? <==> forall i :: 0 <= i < |es| ==> single(es[i], elementType, storyMap).Ok?
    decreases |es|
  {
    if es != [] {
      var front := es[..|es| - 1];
      CollectOk(front, elementType, storyMap, single);
      assert forall i :: 0 <= i < |front| ==> front[i] == es[i];
    }
  }

  /** Every definition of the list comes from the result of one of the elements. */
  lemma {:induction false} CollectFrom(es: seq<Element>, elementType: string, storyMap: map<string, string>, single: SingleExtractor, d: Dict)
    requires Collect(es, elementType, storyMap, single).Ok? && d in Collect(es, elementType, storyMap, single).value
    ensures exists i :: 0 <= i < |es| && single(es[i], elementType, storyMap).Ok? && d in Spliced(single(es[i], elementType, storyMap).value)
    decreases |es|
  {
    var front := es[..|es| - 1];
    var x := single(es[|es| - 1], elementType, storyMap);
    if d in Collect(front, elementType, storyMap, single).value {
      CollectFrom(front, elementType, storyMap, single, d);
      var i :| 0 <= i < |front| && single(front[i], elementType, storyMap).Ok? && d in Spliced(single(front[i], elementType, storyMap).value);
      assert front[i] == es[i];
    } else {
      assert d in Spliced(x.value);
    }
  }

  /** One more element appends its spliced result, or its error replaces the list. */
  lemma CollectSnoc(es: seq<Element>, i: nat, elementType: string, storyMap: map<string, string>, single: SingleExtractor)
    requires i < |es|
    ensures Collect(es[..i + 1], elementType, storyMap, single) ==
      match Collect(es[..i], elementType, storyMap, single)
      case Err(err) => Err(err)
      case Ok(defs) =>
        match single(es[i], elementType, storyMap)
        case Err(err) => Err(err)
        case Ok(x) => Ok(defs + Spliced(x))
  {
    assert es[..i + 1][..i] == es[..i];
  }

  /** `_extract_from_container`: nothing when the container is absent. */
  function FromContainer(members: Element, c: ContainerConfig, storyMap: map<string, string>, single: SingleExtractor): Result<seq<Dict>>
  {
    match Below(members, c.containerTag)
    case None => Ok([])
    case Some(container) => Collect(Children(container, c.elementTag), c.elementType, storyMap, single)
  }

  /** The containers `cs` in order, their lists concatenated; the first error stops. */
  function AllContainers(members: Element, cs: seq<ContainerConfig>, storyMap: map<string, string>, single: SingleExtractor): Result<seq<Dict>>
  {
    if cs == [] then Ok([])
    else
      match AllContainers(members, cs[..|cs| - 1], storyMap, single)
      case Err(err) => Err(err)
      case Ok(defs) =>
        match FromContainer(members, cs[|cs| - 1], storyMap, single)
        case Err(err) => Err(err)
        case Ok(more) => Ok(defs + more)
  }

  /** What `extract_elements` returns: no StbMembers gives an empty list. */
  function ElementsData(root: Element, config: ExtractionConfig, single: SingleExtractor): (r: Result<seq<Dict>>)
    ensures Below(root, "StbMembers").None? ==> r == Ok([])
  {
    match Below(root, "StbMembers")
    case None => Ok([])
    case Some(members) => AllContainers(members, config.containers, NodeStoryMap(root), single)
  }

  /** With two containers, the list is the first container's list followed by the second's. */
  lemma TwoContainersInOrder(members: Element, c1: ContainerConfig, c2: ContainerConfig, storyMap: map<string, string>, single: SingleExtractor)
    requires FromContainer(members, c1, storyMap, single).Ok? && FromContainer(members, c2, storyMap, single).Ok?
    ensures AllContainers(members, [c1, c2], storyMap, single) ==
      Ok(FromContainer(members, c1, storyMap, single).value + FromContainer(members, c2, storyMap, single).value)
  {
    assert [c1, c2][..1] == [c1];
    assert [c1][..0] == [];
    assert AllContainers(members, [c1], storyMap, single) == Ok([] + FromContainer(members, c1, storyMap, single).value);
    assert [] + FromContainer(members, c1, storyMap, single).value == FromContainer(members, c1, storyMap, single).value;
  }

  /** The element loop of `_extract_from_container`. */
  method CollectElements(es: seq<Element>, elementType: string, storyMap: map<string, string>, single: SingleExtractor)
    returns (r: Result<seq<Dict>>)
    ensures r == Collect(es, elementType, storyMap, single)
  {
    var elements: seq<Dict> := [];
    var i := 0;
    while i < |es|
      invariant 0 <= i <= |es|
      invariant Collect(es[..i], elementType, storyMap, single) == Ok(elements)
    {
      CollectSnoc(es, i, elementType, storyMap, single);
      var x := single(es[i], elementType, storyMap);
      if x.Err? {
        assert es[..i + 1] + es[i + 1..] == es;
        CollectErrStays(es[..i + 1], es[i + 1..], elementType, storyMap, single);
        return Err(x.error);
      }
      elements := elements + Spliced(x.value);
      i := i + 1;
    }
    assert es[..i] == es;
    r := Ok(elements);
  }

  /** `BaseExtractor._extract_from_container`: an absent container gives an empty list. */
  method ExtractFromContainer(members: Element, c: ContainerConfig, storyMap: map<string, string>, single: SingleExtractor)
    returns (r: Result<seq<Dict>>)
    ensures r == FromContainer(members, c, storyMap, single)
  {
    var container := Below(members, c.containerTag);
    if container.None? {
      return Ok([]);
    }
    r := CollectElements(Children(container.value, c.elementTag), c.elementType, storyMap, single);
  }

  /** Once the pass has failed, further elements keep the same error. */
  lemma {:induction false} CollectErrStays(es: seq<Element>, more: seq<Element>, elementType: string, storyMap: map<string, string>, single: SingleExtractor)
    requires Collect(es, elementType, storyMap, single).Err?
    ensures Collect(es + more, elementType, storyMap, single) == Collect(es, elementType, storyMap, single)
    decreases |more|
  {
    if more != [] {
      var front := more[..|more| - 1];
      CollectErrStays(es, front, elementType, storyMap, single);
      assert (es + more)[..|es + more| - 1] == es + front;
    } else {
      assert es + more == es;
    }
  }

  /** One more container appends its list, or its error replaces the list. */
  lemma AllContainersSnoc(members: Element, cs: seq<ContainerConfig>, k: nat, storyMap: map<string, string>, single: SingleExtractor)
    requires k < |cs|
    ensures AllContainers(members, cs[..k + 1], storyMap, single) ==
      match AllContainers(members, cs[..k], storyMap, single)
      case Err(err) => Err(err)
      case Ok(defs) =>
        match FromContainer(members, cs[k], storyMap, single)
        case Err(err) => Err(err)
        case Ok(more) => Ok(defs + more)
  {
    assert cs[..k + 1][..k] == cs[..k];
  }

  /** A failing container ends the pass with its error. */
  lemma AllContainersStopsAt(members: Element, cs: seq<ContainerConfig>, k: nat, storyMap: map<string, string>, single: SingleExtractor, defs: seq<Dict>)
    requires k < |cs| && AllContainers(members, cs[..k], storyMap, single) == Ok(defs)
    requires FromContainer(members, cs[k], storyMap, single).Err?
    ensures AllContainers(members, cs, storyMap, single) == Err(FromContainer(members, cs[k], storyMap, single).error)
  {
    AllContainersSnoc(members, cs, k, storyMap, single);
    assert cs[..k + 1] + cs[k + 1..] == cs;
    AllContainersErrStays(members, cs[..k + 1], cs[k + 1..], storyMap, single);
  }

  /** The container loop of `extract_elements`. */
  method ExtractContainers(members: Element, cs: seq<ContainerConfig>, storyMap: map<string, string>, single: SingleExtractor)
    returns (r: Result<seq<Dict>>)
    ensures r == AllContainers(members, cs, storyMap, single)
  {
    var defs: seq<Dict> := [];
    var k := 0;
    while k < |cs|
      invariant 0 <= k <= |cs|
      invariant AllContainers(members, cs[..k], storyMap, single) == Ok(defs)
    {
      var more := ExtractFromContainer(members, cs[k], storyMap, single);
      if more.Err? {
        AllContainersStopsAt(members, cs, k, storyMap, single, defs);
        return Err(more.error);
      }
      AllContainersSnoc(members, cs, k, storyMap, single);
      defs := defs + more.value;
      k := k + 1;
    }
    assert cs[..k] == cs;
    r := Ok(defs);
  }

  /** `BaseExtractor.extract_elements`: the story map is built once and the containers visited in order. */
  method ExtractElements(root: Element, config: ExtractionConfig, single: SingleExtractor) returns (r: Result<seq<Dict>>)
    ensures r == ElementsData(root, config, single)
  {
    var storyMap := CreateNodeStoryMap(root);
    var members := Below(root, "StbMembers");
    if members.None? {
      return Ok([]);
    }
    r := ExtractContainers(members.value, config.containers, storyMap, single);
  }

  /** Once a container has failed, later containers keep the same error. */
  lemma {:induction false} AllContainersErrStays(members: Element, cs: seq<ContainerConfig>, more: seq<ContainerConfig>, storyMap: map<string, string>, single: SingleExtractor)
    requires AllContainers(members, cs, storyMap, single).Err?
    ensures AllContainers(members, cs + more, storyMap, single) == AllContainers(members, cs, storyMap, single)
    decreases |more|
  {
    if more != [] {
      var front := more[..|more| - 1];
      AllContainersErrStays(members, cs, front, storyMap, single);
      assert (cs + more)[..|cs + more| - 1] == cs + front;
    } else {
      assert cs + more == cs;
    }
  }
}
