/**
 * The default story (core/default_story_service.py): when no story has both
 * a name and node ids, one story "GL" (height 3000, elevation 0, type
 * DEFAULT) is made, holding the sorted, distinct ids of every node any
 * element uses.
 *
 * `show` is Python's `str` on a node id that is not text.
 */
module DefaultStoryService {
  import opened Values

  const DefaultStoryName := "GL"
  const DefaultStoryHeight := 3000.0
  const DefaultStoryElevation := 0.0

  // ------------------------------------------------------------ string order

  /** Python's `<` on strings: code point by code point, a proper prefix first. */
  predicate StrLess(a: string, b: string)
  {
    if a == [] then b != []
    else if b == [] then false
    else if a[0] != b[0] then a[0] < b[0]
    else StrLess(a[1..], b[1..])
  }

  /** Exactly one of a < b, a == b, b < a. */
  lemma {:induction false} StrLessTrichotomy(a: string, b: string)
    ensures a == b ==> !StrLess(a, b) && !StrLess(b, a)
    ensures a != b ==> (StrLess(a, b) <==> !StrLess(b, a))
  {
    if a != [] && b != [] && a[0] == b[0] {
      StrLessTrichotomy(a[1..], b[1..]);
      assert a == [a[0]] + a[1..] && b == [b[0]] + b[1..];
    }
  }

  /** Strictly increasing, so without repeats. */
  ghost predicate Sorted(s: seq<string>)
  {
    forall i, j :: 0 <= i < j < |s| ==> StrLess(s[i], s[j])
  }

  /** `x` placed in a sorted list, where it is not already. */
  function Insert(x: string, xs: seq<string>): (r: seq<string>)
    ensures forall y :: y in r <==> y == x || y in xs
    ensures Sorted(xs) ==> Sorted(r)
  {
    if xs == [] then [x]
    else if x == xs[0] then xs
    else if StrLess(x, xs[0]) then
      var r := [x] + xs;
      assert Sorted(xs) ==> Sorted(r) by {
        if Sorted(xs) {
          forall i, j | 0 <= i < j < |r| ensures StrLess(r[i], r[j]) {
            if i == 0 && j > 1 {
              assert StrLess(xs[0], xs[j - 1]);
              StrLessTransitive(x, xs[0], xs[j - 1]);
            }
          }
        }
      }
      r
    else
      var rest := Insert(x, xs[1..]);
      var r := [xs[0]] + rest;
      assert forall y :: y in xs <==> y == xs[0] || y in xs[1..];
      assert Sorted(xs) ==> Sorted(r) by {
        if Sorted(xs) {
          StrLessTrichotomy(x, xs[0]);
          assert Sorted(xs[1..]) by {
            forall i, j | 0 <= i < j < |xs[1..]| ensures StrLess(xs[1..][i], xs[1..][j]) {
              assert xs[1..][i] == xs[i + 1] && xs[1..][j] == xs[j + 1];
            }
          }
          forall j | 0 < j < |r| ensures StrLess(r[0], r[j]) {
            assert r[j] in rest;
            if r[j] != x {
              var k :| 0 <= k < |xs[1..]| && xs[1..][k] == r[j];
              assert xs[k + 1] == r[j];
            }
          }
        }
      }
      r
  }

  lemma {:induction false} StrLessTransitive(a: string, b: string, c: string)
    requires StrLess(a, b) && StrLess(b, c)
    ensures StrLess(a, c)
  {
    if a != [] && b != [] && c != [] && a[0] == b[0] && b[0] == c[0] {
      StrLessTransitive(a[1..], b[1..], c[1..]);
    }
  }

  /** Two sorted lists of the same strings are the same list: `sorted` of a set has one answer. */
  lemma {:induction false} SortedUnique(a: seq<string>, b: seq<string>)
    requires Sorted(a) && Sorted(b)
    requires forall y :: y in a <==> y in b
    ensures a == b
  {
    if a != [] {
      assert a[0] in b;
    }
    if b != [] {
      assert b[0] in a;
    }
    if a != [] && b != [] {
      if a[0] != b[0] {
        assert b[0] in a && a[0] in b;
        var i :| 0 < i < |a| && a[i] == b[0];
        var j :| 0 < j < |b| && b[j] == a[0];
        assert StrLess(a[0], b[0]) && StrLess(b[0], a[0]);
        StrLessTrichotomy(a[0], b[0]);
      }
      forall y ensures y in a[1..] <==> y in b[1..] {
        assert y in a <==> y == a[0] || y in a[1..];
        assert y in b <==> y == b[0] || y in b[1..];
        if y in a[1..] {
          var i :| 0 <= i < |a[1..]| && a[1..][i] == y;
          assert StrLess(a[0], a[i + 1]);
          StrLessTrichotomy(a[0], y);
        }
        if y in b[1..] {
          var i :| 0 <= i < |b[1..]| && b[1..][i] == y;
          assert StrLess(b[0], b[i + 1]);
          StrLessTrichotomy(b[0], y);
        }
      }
      assert Sorted(a[1..]) by {
        forall i, j | 0 <= i < j < |a[1..]| ensures StrLess(a[1..][i], a[1..][j]) {
          assert a[1..][i] == a[i + 1] && a[1..][j] == a[j + 1];
        }
      }
      assert Sorted(b[1..]) by {
        forall i, j | 0 <= i < j < |b[1..]| ensures StrLess(b[1..][i], b[1..][j]) {
          assert b[1..][i] == b[i + 1] && b[1..][j] == b[j + 1];
        }
      }
      SortedUnique(a[1..], b[1..]);
      assert a == [a[0]] + a[1..] && b == [b[0]] + b[1..];
    }
  }

  // ------------------------------------------------------------ node ids

  /** The raw ids of one element, by the first shape it has: start/end, bottom/top, node_id, node_ids, primary. */
  function RawNodeIds(e: Dict): (r: seq<Value>)
    ensures "start_node_id" in e && "end_node_id" in e ==> r == [e["start_node_id"], e["end_node_id"]]
    ensures "bottom_node_id" in e && "top_node_id" in e && ("start_node_id" !in e || "end_node_id" !in e)
      ==> r == [e["bottom_node_id"], e["top_node_id"]]
    ensures r == [] ==> "node_id" !in e && ("node_ids" !in e || e["node_ids"] == List([]))
    ensures (("start_node_id" !in e || "end_node_id" !in e) && ("bottom_node_id" !in e || "top_node_id" !in e)
      && "node_id" !in e && "node_ids" !in e) ==> r == (if "primary_node_id" in e then [e["primary_node_id"]] else [])
  {
    if "start_node_id" in e && "end_node_id" in e then [e["start_node_id"], e["end_node_id"]]
    else if "bottom_node_id" in e && "top_node_id" in e then [e["bottom_node_id"], e["top_node_id"]]
    else if "node_id" in e then [e["node_id"]]
    else if "node_ids" in e then (if e["node_ids"].List? then e["node_ids"].items else [e["node_ids"]])
    else if "primary_node_id" in e then [e["primary_node_id"]]
    else []
  }

  /** `str` of an id. */
  function Text(v: Value, show: Value -> string): string
  {
    if v.Str? then v.s else show(v)
  }

  /** `_extract_node_ids_from_element`: the distinct non-None ids, as text. */
  function NodeIdsOf(e: Dict, show: Value -> string): (r: set<string>)
    ensures forall v :: v in RawNodeIds(e) && v.Str? ==> v.s in r
    ensures forall t :: t in r ==> exists v :: v in RawNodeIds(e) && v != Null && Text(v, show) == t
  {
    set v | v in RawNodeIds(e) && v != Null :: Text(v, show)
  }

  /** The ids of a list of elements. */
  function IdsOfList(es: seq<Dict>, show: Value -> string): (r: set<string>)
    ensures forall i :: 0 <= i < |es| ==> NodeIdsOf(es[i], show) <= r
  {
    if es == [] then {} else IdsOfList(es[..|es| - 1], show) + NodeIdsOf(es[|es| - 1], show)
  }

  /** `_collect_all_node_ids`: the ids of every element of every list. */
  function AllNodeIds(lists: seq<seq<Dict>>, show: Value -> string): (r: set<string>)
    ensures forall i, j :: 0 <= i < |lists| && 0 <= j < |lists[i]| ==> NodeIdsOf(lists[i][j], show) <= r
  {
    if lists == [] then {} else AllNodeIds(lists[..|lists| - 1], show) + IdsOfList(lists[|lists| - 1], show)
  }

  /** Every collected id comes from some element. */
  lemma {:induction false} IdsComeFromElements(es: seq<Dict>, show: Value -> string, t: string)
    requires t in IdsOfList(es, show)
    ensures exists j :: 0 <= j < |es| && t in NodeIdsOf(es[j], show)
  {
    if t !in NodeIdsOf(es[|es| - 1], show) {
      IdsComeFromElements(es[..|es| - 1], show, t);
      var j :| 0 <= j < |es| - 1 && t in NodeIdsOf(es[..|es| - 1][j], show);
      assert es[..|es| - 1][j] == es[j];
    }
  }

  /** The loops of `_collect_all_node_ids`. */
  method CollectAllNodeIds(lists: seq<seq<Dict>>, show: Value -> string) returns (all: set<string>)
    ensures all == AllNodeIds(lists, show)
  {
    all := {};
    var i := 0;
    while i < |lists|
      invariant 0 <= i <= |lists|
      invariant all == AllNodeIds(lists[..i], show)
    {
      assert lists[..i + 1][..i] == lists[..i];
      var es := lists[i];
      var j := 0;
      while j < |es|
        invariant 0 <= j <= |es|
        invariant all == AllNodeIds(lists[..i], show) + IdsOfList(es[..j], show)
      {
        assert es[..j + 1][..j] == es[..j];
        all := all + NodeIdsOf(es[j], show);
        j := j + 1;
      }
      assert es[..j] == es;
      i := i + 1;
    }
    assert lists[..i] == lists;
  }

  /** `sorted(list(s))`. */
  method SortIds(s: set<string>) returns (r: seq<string>)
    ensures Sorted(r) && forall y :: y in r <==> y in s
  {
    r := [];
    var rest := s;
    while rest != {}
      invariant rest <= s
      invariant Sorted(r) && forall y :: y in r <==> y in s && y !in rest
      decreases rest
    {
      var x :| x in rest;
      r := Insert(x, r);
      rest := rest - {x};
    }
  }

  /** `create_default_story`: the one default story, holding every node id in order. */
  method CreateDefaultStory(lists: seq<seq<Dict>>, show: Value -> string) returns (stories: seq<Dict>)
    ensures |stories| == 1
    ensures stories[0].Keys == {"name", "height", "elevation", "node_ids", "story_type"}
    ensures stories[0]["name"] == Str(DefaultStoryName) && stories[0]["story_type"] == Str("DEFAULT")
    ensures stories[0]["height"] == Num(DefaultStoryHeight) && stories[0]["elevation"] == Num(DefaultStoryElevation)
    ensures stories[0]["node_ids"].List?
    ensures var ids := stories[0]["node_ids"].items;
      (forall i :: 0 <= i < |ids| ==> ids[i].Str?) &&
      (forall t :: Str(t) in ids <==> t in AllNodeIds(lists, show)) &&
      (forall i, j :: 0 <= i < j < |ids| ==> StrLess(ids[i].s, ids[j].s))
  {
    var all := CollectAllNodeIds(lists, show);
    var sorted := SortIds(all);
    var ids := seq(|sorted|, i requires 0 <= i < |sorted| => Str(sorted[i]));
    assert forall t :: Str(t) in ids <==> t in sorted by {
      forall t ensures Str(t) in ids <==> t in sorted {
        if Str(t) in ids {
          var i :| 0 <= i < |ids| && ids[i] == Str(t);
          assert sorted[i] == t;
        }
        if t in sorted {
          var i :| 0 <= i < |sorted| && sorted[i] == t;
          assert ids[i] == Str(t);
        }
      }
    }
    stories := [map[
      "name" := Str(DefaultStoryName),
      "height" := Num(DefaultStoryHeight),
      "elevation" := Num(DefaultStoryElevation),
      "node_ids" := List(ids),
      "story_type" := Str("DEFAULT")]];
  }

  // ------------------------------------------------------------ the decision

  /** A story with both a name and node ids. */
  predicate UsableStory(s: Dict)
  {
    Truthy(Lookup(s, "name")) && Truthy(Lookup(s, "node_ids"))
  }

  /** The usable stories, in order. */
  function ValidStories(stories: seq<Dict>): (r: seq<Dict>)
    ensures forall s :: s in r <==> s in stories && UsableStory(s)
  {
    if stories == [] then []
    else
      assert forall s :: s in stories <==> s == stories[0] || s in stories[1..];
      (if UsableStory(stories[0]) then [stories[0]] else []) + ValidStories(stories[1..])
  }

  /** `should_use_default_story`. */
  function ShouldUseDefaultStory(stories: seq<Dict>): (r: bool)
    ensures r <==> forall i :: 0 <= i < |stories| ==> !UsableStory(stories[i])
  {
    if stories == [] then true
    else
      var valid := ValidStories(stories);
      assert valid != [] <==> exists i :: 0 <= i < |stories| && UsableStory(stories[i]) by {
        if valid != [] {
          assert valid[0] in stories;
        }
        if exists i :: 0 <= i < |stories| && UsableStory(stories[i]) {
          var i :| 0 <= i < |stories| && UsableStory(stories[i]);
          assert stories[i] in valid;
        }
      }
      valid == []
  }

  /** A story named without node ids does not count: the default is still used. */
  lemma NamedStoryWithoutNodesUsesDefault(name: string)
    requires name != ""
    ensures ShouldUseDefaultStory([map["name" := Str(name), "node_ids" := List([])]])
  {
    assert !UsableStory(map["name" := Str(name), "node_ids" := List([])]);
  }
}
