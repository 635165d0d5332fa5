/**
 * The parsed ST-Bridge document as ElementTree presents it: an element has a
 * tag (possibly `{namespace-uri}Local`), string attributes, child elements in
 * document order and optional text. An attribute that is not in `attrs` is
 * one for which `elem.get(name)` gives `None`.
 *
 * The converter always queries with the document's own namespace, so a query
 * step matches an element by its local name.
 */
module Xml {
  import opened Wrappers
  import Strs

  datatype Element = Element(tag: string, attrs: map<string, string>, children: seq<Element>, text: Option<string>)

  /** Index of the first '}' in `s`, or |s|. */
  function CloseBrace(s: string): (k: nat)
    ensures k <= |s|
    ensures forall i :: 0 <= i < k ==> s[i] != '}'
    ensures k < |s| ==> s[k] == '}'
  {
    if s == [] then 0 else if s[0] == '}' then 0 else 1 + CloseBrace(s[1..])
  }

  /** The local name of a tag: everything after the first '}', or the whole tag. */
  function LocalName(tag: string): (r: string)
    ensures (forall i :: 0 <= i < |tag| ==> tag[i] != '}') ==> r == tag
    ensures (exists i :: 0 <= i < |tag| && tag[i] == '}') ==> |r| < |tag| && Strs.EndsWith(tag, r)
  {
    var k := CloseBrace(tag);
    if k < |tag| then tag[k + 1..] else tag
  }

  /** Removing a "{uri}" prefix leaves exactly the local part. */
  lemma LocalNameOfQualified(uri: string, local: string)
    requires forall i :: 0 <= i < |uri| ==> uri[i] != '}'
    ensures LocalName("{" + uri + "}" + local) == local
  {
    var t := "{" + uri + "}" + local;
    assert t[|uri| + 1] == '}';
    assert forall i :: 1 <= i < |uri| + 1 ==> t[i] == uri[i - 1];
    assert CloseBrace(t) == |uri| + 1;
    assert t[|uri| + 2..] == local;
  }

  predicate HasName(e: Element, name: string) { LocalName(e.tag) == name }

  /** `elem.get(name)`. */
  function Get(e: Element, name: string): Option<string>
  {
    if name in e.attrs then Some(e.attrs[name]) else None
  }

  /** `elem.get(name, default)`. */
  function GetOr(e: Element, name: string, default: string): (r: string)
    ensures name in e.attrs ==> r == e.attrs[name]
    ensures name !in e.attrs ==> r == default
  {
    if name in e.attrs then e.attrs[name] else default
  }

  /** The attribute as a Python truth value: present and non-empty. */
  predicate HasTruthy(e: Element, name: string)
  {
    name in e.attrs && e.attrs[name] != ""
  }

  /** Elements of `es` whose local name is `name`, in order. */
  function Named(es: seq<Element>, name: string): (r: seq<Element>)
    ensures |r| <= |es|
    ensures forall x :: x in r ==> x in es && HasName(x, name)
    ensures forall x :: x in es && HasName(x, name) ==> x in r
  {
    if es == [] then []
    else (if HasName(es[0], name) then [es[0]] else []) + Named(es[1..], name)
  }

  /** The first element of `es` with local name `name`. */
  function First(es: seq<Element>, name: string): (r: Option<Element>)
    ensures r.None? <==> Named(es, name) == []
    ensures r.Some? ==> r.value == Named(es, name)[0]
  {
    if es == [] then None
    else if HasName(es[0], name) then Some(es[0])
    else First(es[1..], name)
  }

  /** `elem.findall("X")`: the children named X, in order. */
  function Children(e: Element, name: string): seq<Element>
  {
    Named(e.children, name)
  }

  /** `elem.find("X")`: the first child named X. */
  function Child(e: Element, name: string): Option<Element>
  {
    First(e.children, name)
  }

  /** All elements below the roots of `es`, each root before its own descendants (document order). */
  function Subtrees(es: seq<Element>): (r: seq<Element>)
    ensures forall x :: x in es ==> x in r
    decreases es
  {
    if es == [] then []
    else [es[0]] + Subtrees(es[0].children) + Subtrees(es[1..])
  }

  /** The descendants of `e` (not `e` itself), in document order. */
  function Descendants(e: Element): seq<Element>
  {
    Subtrees(e.children)
  }

  /** `elem.findall(".//X")`. */
  function AllBelow(e: Element, name: string): seq<Element>
  {
    Named(Descendants(e), name)
  }

  /** `elem.find(".//X")`. */
  function Below(e: Element, name: string): Option<Element>
  {
    First(Descendants(e), name)
  }

  /** The children named `child` of each element of `es`, concatenated in order. */
  function ChildrenOfAll(es: seq<Element>, child: string): seq<Element>
  {
    if es == [] then [] else Children(es[0], child) + ChildrenOfAll(es[1..], child)
  }

  /** `elem.findall(".//A/B")`. */
  function AllPath(e: Element, parent: string, child: string): seq<Element>
  {
    ChildrenOfAll(AllBelow(e, parent), child)
  }

  /** `elem.find(".//A/B")`. */
  function Path(e: Element, parent: string, child: string): (r: Option<Element>)
    ensures r.None? <==> AllPath(e, parent, child) == []
    ensures r.Some? ==> r.value == AllPath(e, parent, child)[0]
  {
    var all := AllPath(e, parent, child);
    if all == [] then None else Some(all[0])
  }

  /** `elem.find("A/B")`: the first B child of the A children. */
  function ChildPath(e: Element, parent: string, child: string): (r: Option<Element>)
    ensures r.None? <==> ChildrenOfAll(Children(e, parent), child) == []
  {
    var all := ChildrenOfAll(Children(e, parent), child);
    if all == [] then None else Some(all[0])
  }

  /** A child found by `find` is one of the children and has the name asked for. */
  lemma ChildIsNamedChild(e: Element, name: string)
    ensures Child(e, name).Some? ==> Child(e, name).value in e.children && HasName(Child(e, name).value, name)
  {
    var ns := Named(e.children, name);
    if ns != [] {
      assert ns[0] in ns;
    }
  }
}
