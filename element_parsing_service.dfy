/**
 * The service that parses the element lists of an ST-Bridge document
 * (core/element_parsing_service.py): a category selection, the check of
 * whether a category is to be parsed, and the parse of every category into
 * the definition lists of the conversion, stories and axes always included.
 *
 * The unified parser is not part of this model: the definitions it gives for
 * an element type value ("beam", "story", ...) are the parameter `defs`.
 * Category names are lowered with ASCII case folding.
 */
module ElementParsingService {
  import opened Wrappers
  import opened Values
  import Strs
  import opened Xml
  import XmlParserCache

  /** The values of the parser's element type enumeration. */
  const ElementTypeValues: seq<string> :=
    ["beam", "column", "brace", "wall", "slab", "footing", "pile", "foundation_column", "src", "story", "axes"]

  /** The member categories a selection can leave out, in the order they are parsed. */
  const MemberCategories: seq<string> :=
    ["beam", "column", "brace", "pile", "slab", "wall", "footing", "foundation_column"]

  /** The lowered names of the valid categories of `cs`, in order, duplicates kept. */
  function ValidCategories(cs: seq<string>): (r: seq<string>)
    ensures |r| <= |cs|
    ensures forall x :: x in r ==> x in ElementTypeValues
    ensures forall x :: x in r <==> exists c :: c in cs && Strs.Lower(c) == x && x in ElementTypeValues
  {
    if cs == [] then []
    else
      var prev := ValidCategories(cs[..|cs| - 1]);
      var c := cs[|cs| - 1];
      assert cs == cs[..|cs| - 1] + [c];
      prev + (if Strs.Lower(c) in ElementTypeValues then [Strs.Lower(c)] else [])
  }

  /**
   * `set_selected_categories`: no list or an empty one selects everything
   * (`None`); otherwise the valid lowered names, or everything again when
   * none is valid.
   */
  function SelectCategories(categories: Option<seq<string>>): (r: Option<seq<string>>)
    ensures r.None? <==> categories.None? || ValidCategories(categories.value) == []
    ensures r.Some? ==> r.value == ValidCategories(categories.value) && r.value != []
  {
    match categories
    case None => None
    case Some(cs) =>
      if cs == [] then None
      else
        var valid := ValidCategories(cs);
        if valid == [] then None else Some(valid)
  }

  /** `_should_parse_category`: every category without a selection, else the selected ones (compared lowered). */
  function ShouldParse(selected: Option<seq<string>>, category: string): (b: bool)
    ensures selected.None? ==> b
    ensures selected.Some? ==> (b <==> Strs.Lower(category) in selected.value)
  {
    match selected
    case None => true
    case Some(s) => Strs.Lower(category) in s
  }

  /** The key of a member category's definition list. */
  function DefsKey(category: string): string
  {
    category + "_defs"
  }

  /** The definition list of one member category: parsed when selected, else empty. */
  function MemberDefs(selected: Option<seq<string>>, category: string, defs: string -> Value): (v: Value)
    ensures ShouldParse(selected, category) ==> v == defs(category)
    ensures !ShouldParse(selected, category) ==> v == List([])
  {
    if ShouldParse(selected, category) then defs(category) else List([])
  }

  /** The member lists of `categories`, keyed by `DefsKey`. */
  function MemberDefsMap(selected: Option<seq<string>>, categories: seq<string>, defs: string -> Value): (m: Dict)
    ensures forall c :: c in categories ==> DefsKey(c) in m && m[DefsKey(c)] == MemberDefs(selected, c, defs)
    ensures forall k :: k in m ==> exists c :: c in categories && k == DefsKey(c)
  {
    if categories == [] then map[]
    else
      var prev := MemberDefsMap(selected, categories[..|categories| - 1], defs);
      var c := categories[|categories| - 1];
      assert categories == categories[..|categories| - 1] + [c];
      assert forall c' :: c' in categories[..|categories| - 1] && DefsKey(c') == DefsKey(c) ==> c' == c by {
        forall c' | DefsKey(c') == DefsKey(c) ensures c' == c {
          SuffixCancels(c', c, "_defs");
        }
      }
      prev[DefsKey(c) := MemberDefs(selected, c, defs)]
  }

  /** `a + s == b + s` only when `a == b`. */
  lemma SuffixCancels(a: string, b: string, s: string)
    requires a + s == b + s
    ensures a == b
  {
    assert |a| == |b|;
    assert forall i :: 0 <= i < |a| ==> a[i] == (a + s)[i] && b[i] == (b + s)[i];
  }

  /** `parse_all_elements` without its cache warm-up: the member lists, then stories and axes. */
  function AllElements(selected: Option<seq<string>>, defs: string -> Value): (m: Dict)
    ensures forall c :: c in MemberCategories ==> DefsKey(c) in m && m[DefsKey(c)] == MemberDefs(selected, c, defs)
    ensures "story_defs" in m && m["story_defs"] == defs("story")
    ensures "axes_defs" in m && m["axes_defs"] == defs("axes")
  {
    var members := MemberDefsMap(selected, MemberCategories, defs);
    MembersAreNotStoriesOrAxes();
    StoriesAndAxesKeepMembers(members, MemberCategories, selected, defs, defs("story"), defs("axes"));
    members["story_defs" := defs("story")]["axes_defs" := defs("axes")]
  }

  /** Adding the stories and the axes leaves the member lists of `cs` as they are. */
  lemma StoriesAndAxesKeepMembers(members: Dict, cs: seq<string>, selected: Option<seq<string>>, defs: string -> Value, stories: Value, axes: Value)
    requires forall c :: c in cs ==> DefsKey(c) in members && members[DefsKey(c)] == MemberDefs(selected, c, defs)
    requires forall c :: c in cs ==> DefsKey(c) != "story_defs" && DefsKey(c) != "axes_defs"
    ensures var m := members["story_defs" := stories]["axes_defs" := axes];
      forall c :: c in cs ==> DefsKey(c) in m && m[DefsKey(c)] == MemberDefs(selected, c, defs)
  {
  }

  /** No member category's key is the key of the stories or the axes. */
  lemma MembersAreNotStoriesOrAxes()
    ensures forall c :: c in MemberCategories ==> DefsKey(c) != "story_defs" && DefsKey(c) != "axes_defs"
  {
    forall c | c in MemberCategories
      ensures DefsKey(c) != "story_defs" && DefsKey(c) != "axes_defs"
    {
      assert DefsKey(c)[0] != 's' || DefsKey(c)[1] != 't' || |DefsKey(c)| != |"story_defs"|;
      assert DefsKey(c)[0] != 'a';
    }
  }

  class Service {
    /** The lowered selected categories; `None` selects every category. */
    var selectedCategories: Option<seq<string>>
    /** The document cache the service warms before parsing. */
    const xmlCache: XmlParserCache.Cache

    constructor ()
      ensures selectedCategories.None? && fresh(xmlCache)
      ensures xmlCache.roots == map[] && xmlCache.contentHashes == map[]
    {
      selectedCategories := None;
      xmlCache := new XmlParserCache.Cache();
    }

    /** `set_selected_categories`. */
    method SetSelectedCategories(categories: Option<seq<string>>)
      modifies this
      ensures selectedCategories == SelectCategories(categories)
    {
      if categories.Some? && categories.value != [] {
        var valid: seq<string> := [];
        var i := 0;
        while i < |categories.value|
          invariant 0 <= i <= |categories.value|
          invariant valid == ValidCategories(categories.value[..i])
        {
          assert categories.value[..i + 1][..i] == categories.value[..i];
          var lowered := Strs.Lower(categories.value[i]);
          if lowered in ElementTypeValues {
            valid := valid + [lowered];
          }
          i := i + 1;
        }
        assert categories.value[..i] == categories.value;
        selectedCategories := if valid != [] then Some(valid) else None;
      } else {
        selectedCategories := None;
      }
    }

    /** `_should_parse_category`. */
    function ShouldParseCategory(category: string): (b: bool)
      reads this
      ensures b == ShouldParse(selectedCategories, category)
    {
      ShouldParse(selectedCategories, category)
    }

    /**
     * `parse_all_elements`: the document is first parsed into the cache
     * under "main_stb_content" (a failure is ignored), then every list is
     * parsed as selected.
     */
    method ParseAllElements(content: string, hash: string -> string, parse: string -> Result<Element>, defs: string -> Value)
      returns (result: Dict)
      modifies xmlCache
      ensures result == AllElements(selectedCategories, defs)
    {
      var _ := xmlCache.GetOrParse(content, Some("main_stb_content"), hash, parse);
      result := AllElements(selectedCategories, defs);
    }
  }

  /** Categories the selection names are parsed; the other member categories give empty lists. */
  lemma SelectionFilters(categories: seq<string>, defs: string -> Value, c: string)
    requires c in MemberCategories
    requires ValidCategories(categories) != []
    ensures var m := AllElements(SelectCategories(Some(categories)), defs);
      (exists x :: x in categories && Strs.Lower(x) == c) ==> m[DefsKey(c)] == defs(c)
    ensures var m := AllElements(SelectCategories(Some(categories)), defs);
      (forall x :: x in categories ==> Strs.Lower(x) != c) ==> m[DefsKey(c)] == List([])
  {
    assert c in ElementTypeValues;
    LowerOfLower(c);
  }

  /** The member category names are already lower case. */
  lemma LowerOfLower(c: string)
    requires c in MemberCategories
    ensures Strs.Lower(c) == c
  {
  }

  /** A selection of stories alone is valid, yet leaves every member list empty; stories and axes are still parsed. */
  lemma StoriesOnlySelection(defs: string -> Value)
    ensures SelectCategories(Some(["STORY"])) == Some(["story"])
    ensures var m := AllElements(SelectCategories(Some(["STORY"])), defs);
      (forall c :: c in MemberCategories ==> m[DefsKey(c)] == List([])) && m["story_defs"] == defs("story")
  {
    StorySelected();
    OnlyStoriesParsed(defs);
  }

  /** "STORY" lowers to the valid name "story". */
  lemma StorySelected()
    ensures SelectCategories(Some(["STORY"])) == Some(["story"])
  {
    var cs := ["STORY"];
    var lowered := Strs.Lower(cs[0]);
    assert lowered == "story";
    assert lowered in ElementTypeValues;
    assert cs[..|cs| - 1] == [];
    assert ValidCategories(cs) == [lowered];
  }

  /** Selecting "story" alone parses no member category. */
  lemma OnlyStoriesParsed(defs: string -> Value)
    ensures var m := AllElements(Some(["story"]), defs);
      forall c :: c in MemberCategories ==> m[DefsKey(c)] == List([])
  {
    forall c | c in MemberCategories
      ensures !ShouldParse(Some(["story"]), c)
    {
      LowerOfLower(c);
      NotStory(c);
    }
  }

  /** No member category is called "story". */
  lemma NotStory(c: string)
    requires c in MemberCategories
    ensures c != "story"
  {
    assert |c| != 5 || c[0] != 's';
  }

  /** With only unknown names the selection falls back to every category. */
  lemma UnknownSelectionParsesAll(categories: seq<string>, defs: string -> Value)
    requires forall x :: x in categories ==> Strs.Lower(x) !in ElementTypeValues
    ensures SelectCategories(Some(categories)).None?
    ensures forall c :: c in MemberCategories ==> AllElements(SelectCategories(Some(categories)), defs)[DefsKey(c)] == defs(c)
  {
    NoValidCategories(categories);
  }

  /** A list without a valid name has no valid categories. */
  lemma {:induction false} NoValidCategories(cs: seq<string>)
    requires forall x :: x in cs ==> Strs.Lower(x) !in ElementTypeValues
    ensures ValidCategories(cs) == []
  {
    if cs != [] {
      assert forall x :: x in cs[..|cs| - 1] ==> x in cs;
      NoValidCategories(cs[..|cs| - 1]);
      assert cs[|cs| - 1] in cs;
    }
  }
}
