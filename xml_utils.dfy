/**
 * The namespace-tolerant lookups over a parsed ST-Bridge document
 * (common/xml_utils.py): the namespace map taken from the root tag, the
 * descendant queries `.//stb:Name` with and without that map, and the check
 * that the document has a model.
 *
 * ElementTree's parser is not part of this model: its outcome on a string is
 * the parameter `parsed`. Queries are the descendant searches `.//stb:Name`
 * the converter issues; ElementTree matches their steps by exact tag.
 */
module XmlUtils {
  import opened Wrappers
  import Strs
  import opened Xml

  /** `parse_xml_string`: the root, or `None` when the text does not parse. */
  function ParseXmlString(parsed: Result<Element>): (r: Option<Element>)
    ensures r.None? <==> parsed.Err?
    ensures r.Some? ==> r.value == parsed.value
  {
    match parsed
    case Ok(root) => Some(root)
    case Err(_) => None
  }

  /** `s.split("}")[0]`: the text before the first closing brace. */
  lemma {:induction false} SplitFirstPart(s: string)
    ensures Strs.Split(s, "}")[0] == s[..CloseBrace(s)]
    decreases |s|
  {
    if |s| >= 1 && s[..1] != "}" {
      SplitFirstPart(s[1..]);
      assert s[0] != '}' by {
        assert s[..1] == [s[0]];
      }
      assert s[..CloseBrace(s)] == [s[0]] + s[1..][..CloseBrace(s[1..])];
    } else if |s| >= 1 {
      assert s[0] == '}' by {
        assert s[..1][0] == s[0];
      }
    }
  }

  /** The namespace URI of a tag `{uri}Local`: the text before the first '}', without its first character. */
  function NamespaceUri(tag: string): (uri: string)
    ensures uri == (var head := Strs.Split(tag, "}")[0]; if |head| == 0 then "" else head[1..])
  {
    SplitFirstPart(tag);
    var head := tag[..CloseBrace(tag)];
    if |head| == 0 then "" else head[1..]
  }

  /** `"}" in tag`. */
  predicate Qualified(tag: string)
  {
    exists i :: 0 <= i < |tag| && tag[i] == '}'
  }

  /**
   * `extract_namespaces`: for a qualified root tag the URI under both the
   * "stb" prefix and the default prefix; otherwise no namespaces.
   */
  function ExtractNamespaces(root: Element): (ns: map<string, string>)
    ensures Qualified(root.tag) ==> ns == map["stb" := NamespaceUri(root.tag), "" := NamespaceUri(root.tag)]
    ensures !Qualified(root.tag) ==> ns == map[]
  {
    if CloseBrace(root.tag) < |root.tag| then
      var uri := NamespaceUri(root.tag);
      map["stb" := uri, "" := uri]
    else map[]
  }

  /** The URI of a root tagged `{uri}Local` is `uri`. */
  lemma NamespaceOfQualified(uri: string, local: string)
    requires forall i :: 0 <= i < |uri| ==> uri[i] != '}'
    ensures NamespaceUri("{" + uri + "}" + local) == uri
    ensures Qualified("{" + uri + "}" + local)
  {
    var t := "{" + uri + "}" + local;
    assert t[|uri| + 1] == '}';
    assert forall i :: 1 <= i < |uri| + 1 ==> t[i] == uri[i - 1];
    assert CloseBrace(t) == |uri| + 1;
    assert t[..|uri| + 1][1..] == uri;
  }

  /** `s.replace(p, r)` leaves a string without `p` unchanged. */
  lemma {:induction false} ReplaceAbsent(s: string, p: string, r: string)
    requires |p| > 0 && !Strs.Contains(s, p)
    ensures Strs.Replace(s, p, r) == s
    decreases |s|
  {
    if |s| >= |p| {
      assert !Strs.StartsWith(s, p);
      ReplaceAbsent(s[1..], p, r);
    }
  }

  /** A leading character that does not start the pattern is kept. */
  lemma ReplaceKeeps(c: char, s: string, p: string, r: string)
    requires |p| > 0 && p[0] != c
    ensures Strs.Replace([c] + s, p, r) == [c] + Strs.Replace(s, p, r)
  {
    var t := [c] + s;
    if |t| >= |p| {
      assert t[..|p|][0] == c;
      assert t[1..] == s;
    }
  }

  /** A leading occurrence of the pattern is replaced. */
  lemma ReplaceDrops(s: string, p: string, r: string)
    requires |p| > 0
    ensures Strs.Replace(p + s, p, r) == r + Strs.Replace(s, p, r)
  {
    var t := p + s;
    assert t[..|p|] == p && t[|p|..] == s;
  }

  /** The query strings character by character. */
  lemma QueryShape(name: string)
    ensures ".//stb:" + name == ['.'] + (['/'] + (['/'] + ("stb:" + name)))
    ensures ".//" + name == ['.'] + (['/'] + (['/'] + name))
  {
  }

  /** Stripping the prefix from `.//stb:` followed by a name. */
  lemma StripSteps(name: string, p: string)
    requires p == "stb:"
    ensures Strs.Replace(['.'] + (['/'] + (['/'] + (p + name))), p, "") == ['.'] + (['/'] + (['/'] + Strs.Replace(name, p, "")))
  {
    var a := p + name;
    var b := ['/'] + a;
    var c := ['/'] + b;
    var r := Strs.Replace(name, p, "");
    ReplaceDrops(name, p, "");
    assert Strs.Replace(a, p, "") == r;
    ReplaceKeeps('/', a, p, "");
    assert Strs.Replace(b, p, "") == ['/'] + r;
    ReplaceKeeps('/', b, p, "");
    assert Strs.Replace(c, p, "") == ['/'] + (['/'] + r);
    ReplaceKeeps('.', c, p, "");
  }

  /** Without namespaces the query `.//stb:Name` becomes `.//Name`. */
  lemma StripPrefix(name: string)
    requires !Strs.Contains(name, "stb:")
    ensures Strs.Replace(".//stb:" + name, "stb:", "") == ".//" + name
  {
    QueryShape(name);
    StripSteps(name, "stb:");
    ReplaceAbsent(name, "stb:", "");
  }

  /**
   * The tag a step `stb:Name` matches: `{uri}Name` with the map, `Name`
   * once the prefix is stripped; a map without "stb" makes ElementTree raise.
   */
  function StepTag(name: string, ns: map<string, string>): (r: Result<string>)
    ensures ns == map[] ==> r == Ok(name)
    ensures ns != map[] && "stb" in ns ==> r == Ok("{" + ns["stb"] + "}" + name)
    ensures r.Err? <==> ns != map[] && "stb" !in ns
  {
    if ns == map[] then Ok(name)
    else if "stb" in ns then Ok("{" + ns["stb"] + "}" + name)
    else Err(SyntaxError("prefix 'stb' not found in prefix map"))
  }

  /** The elements of `es` with exactly the tag `tag`, in order. */
  function Tagged(es: seq<Element>, tag: string): (r: seq<Element>)
    ensures forall x :: x in r ==> x in es && x.tag == tag
    ensures forall x :: x in es && x.tag == tag ==> x in r
  {
    if es == [] then []
    else (if es[0].tag == tag then [es[0]] else []) + Tagged(es[1..], tag)
  }

  /** `find_elements_safe(root, ".//stb:" + name, ns)`: every descendant with the step's tag, in document order. */
  function FindElementsSafe(root: Element, name: string, ns: map<string, string>): (r: Result<seq<Element>>)
    ensures r.Err? <==> StepTag(name, ns).Err?
    ensures r.Ok? ==> r.value == Tagged(Descendants(root), StepTag(name, ns).value)
  {
    match StepTag(name, ns)
    case Ok(tag) => Ok(Tagged(Descendants(root), tag))
    case Err(e) => Err(e)
  }

  /** `find_element_safe(root, ".//stb:" + name, ns)`: the first of those, if any. */
  function FindElementSafe(root: Element, name: string, ns: map<string, string>): (r: Result<Option<Element>>)
    ensures r.Err? <==> StepTag(name, ns).Err?
    ensures r.Ok? ==> (r.value.None? <==> FindElementsSafe(root, name, ns).value == [])
    ensures r.Ok? && r.value.Some? ==> r.value.value == FindElementsSafe(root, name, ns).value[0]
  {
    match FindElementsSafe(root, name, ns)
    case Ok(all) => Ok(if all == [] then None else Some(all[0]))
    case Err(e) => Err(e)
  }

  /** `find_stb_members`. */
  function FindStbMembers(root: Element, ns: map<string, string>): Result<Option<Element>>
  {
    FindElementSafe(root, "StbMembers", ns)
  }

  /** `validate_xml_structure`: the document must hold a StbModel below its root. */
  function ValidateXmlStructure(root: Element, ns: map<string, string>): (r: Result<bool>)
    ensures r.Err? <==> StepTag("StbModel", ns).Err?
    ensures r.Ok? ==> (r.value <==> exists x :: x in Descendants(root) && x.tag == StepTag("StbModel", ns).value)
  {
    match FindElementSafe(root, "StbModel", ns)
    case Ok(found) =>
      var tag := StepTag("StbModel", ns).value;
      if found.Some? then
        assert found.value in Tagged(Descendants(root), tag);
        Ok(true)
      else
        assert forall x :: x in Descendants(root) && x.tag == tag ==> x in Tagged(Descendants(root), tag);
        Ok(false)
    case Err(e) => Err(e)
  }

  /**
   * A document in the ST-Bridge namespace, checked with its own namespaces,
   * passes exactly when some element below the root is `{uri}StbModel`.
   */
  lemma NamespacedDocumentCheck(uri: string, local: string, attrs: map<string, string>, children: seq<Element>, text: Option<string>)
    requires forall i :: 0 <= i < |uri| ==> uri[i] != '}'
    ensures var root := Element("{" + uri + "}" + local, attrs, children, text);
      ValidateXmlStructure(root, ExtractNamespaces(root)) ==
        Ok(exists x :: x in Descendants(root) && x.tag == "{" + uri + "}StbModel")
  {
    NamespaceOfQualified(uri, local);
    var root := Element("{" + uri + "}" + local, attrs, children, text);
    var ns := ExtractNamespaces(root);
    assert ns["stb"] == uri;
    assert StepTag("StbModel", ns) == Ok("{" + uri + "}" + "StbModel");
    assert "{" + uri + "}" + "StbModel" == "{" + uri + "}StbModel";
  }

  /** A document without a namespace, checked with no namespaces, passes exactly when some element below the root is `StbModel`. */
  lemma PlainDocumentCheck(root: Element)
    requires !Qualified(root.tag)
    ensures ValidateXmlStructure(root, ExtractNamespaces(root)) ==
      Ok(exists x :: x in Descendants(root) && x.tag == "StbModel")
  {
  }
}
