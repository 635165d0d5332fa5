/**
 * The cache of parsed documents (common/xml_parser_cache.py): parsed roots
 * under a key, with the hash of the text each was parsed from, so that the
 * same key with changed text is parsed afresh.
 *
 * Python's `str(hash(text))` is the parameter `hash` and ElementTree's parser
 * the parameter `parse`; a parse error comes back as `Err`.
 */
module XmlParserCache {
  import opened Wrappers
  import opened Xml

  class Cache {
    /** The parsed roots by key. */
    var roots: map<string, Element>
    /** The hash of the text each root was parsed from. */
    var contentHashes: map<string, string>

    /** Every cached root has its hash, and every hash its root. */
    predicate Valid()
      reads this
    {
      roots.Keys == contentHashes.Keys
    }

    /** The key holds the root of `content`, so the next request for it is a hit. */
    predicate Holds(key: string, content: string, root: Element, hash: string -> string)
      reads this
    {
      key in roots && key in contentHashes && roots[key] == root && contentHashes[key] == hash(content)
    }

    constructor ()
      ensures roots == map[] && contentHashes == map[]
      ensures Valid()
    {
      roots := map[];
      contentHashes := map[];
    }

    /** The key a request uses: the one given, or the hash of the text. */
    static function KeyOf(content: string, cacheKey: Option<string>, hash: string -> string): (k: string)
      ensures cacheKey.None? ==> k == hash(content)
      ensures cacheKey.Some? ==> k == cacheKey.value
    {
      cacheKey.GetOr(hash(content))
    }

    /**
     * `get_or_parse`: a cached root whose recorded hash matches the text is
     * returned unchanged; a stale entry is dropped; otherwise the text is
     * parsed and, when it parses, cached with its hash.
     */
    method GetOrParse(content: string, cacheKey: Option<string>, hash: string -> string, parse: string -> Result<Element>)
      returns (r: Result<Element>)
      modifies this
      ensures var k := KeyOf(content, cacheKey, hash);
        if k in old(roots) && k in old(contentHashes) && old(contentHashes)[k] == hash(content) then
          r == Ok(old(roots)[k]) && roots == old(roots) && contentHashes == old(contentHashes)
        else
          var dropped := if k in old(roots) then old(roots) - {k} else old(roots);
          var droppedHashes := if k in old(roots) then old(contentHashes) - {k} else old(contentHashes);
          match parse(content)
          case Ok(root) =>
            r == Ok(root) && roots == dropped[k := root] && contentHashes == droppedHashes[k := hash(content)]
          case Err(_) =>
            r.Err? && r.error.XmlParseError? && roots == dropped && contentHashes == droppedHashes
      ensures old(Valid()) ==> Valid()
      ensures r.Ok? ==> Holds(KeyOf(content, cacheKey, hash), content, r.value, hash)
    {
      var key := KeyOf(content, cacheKey, hash);
      if key in roots {
        var cachedHash := if key in contentHashes then Some(contentHashes[key]) else None;
        var currentHash := hash(content);
        if cachedHash == Some(currentHash) {
          return Ok(roots[key]);
        }
        roots := roots - {key};
        contentHashes := contentHashes - {key};
      }
      match parse(content)
      case Ok(root) =>
        roots := roots[key := root];
        contentHashes := contentHashes[key := hash(content)];
        r := Ok(root);
      case Err(e) =>
        r := Err(XmlParseError("XML parse error"));
    }

    /** `clear_cache`: both maps are emptied. */
    method ClearCache()
      modifies this
      ensures roots == map[] && contentHashes == map[]
      ensures Valid()
    {
      roots := map[];
      contentHashes := map[];
    }

    /** `get_cache_stats`: the sizes of both maps, equal while the cache is consistent. */
    function CacheStats(): (r: (nat, nat))
      reads this
      ensures r == (|roots|, |contentHashes|)
      ensures Valid() ==> r.0 == r.1
    {
      (|roots|, |contentHashes|)
    }
  }

  /** A second request with the same key and text is answered from the cache with the same root. */
  method RepeatedRequestHits(c: Cache, content: string, cacheKey: Option<string>, hash: string -> string, parse: string -> Result<Element>)
    returns (first: Result<Element>, second: Result<Element>)
    modifies c
    ensures first.Ok? ==> second == first
    ensures first.Err? ==> first.error.XmlParseError?
  {
    first := c.GetOrParse(content, cacheKey, hash, parse);
    second := c.GetOrParse(content, cacheKey, hash, parse);
  }

  /** Changed text under the same key is parsed again, and its own root is what the cache then holds. */
  method ChangedContentReparses(c: Cache, key: string, before: string, after: string, hash: string -> string, parse: string -> Result<Element>)
    returns (first: Result<Element>, second: Result<Element>)
    requires hash(before) != hash(after)
    modifies c
    ensures parse(after).Ok? ==> second == parse(after) && c.Holds(key, after, second.value, hash)
    ensures parse(after).Err? ==> second.Err? && key !in c.roots
  {
    first := c.GetOrParse(before, Some(key), hash, parse);
    second := c.GetOrParse(after, Some(key), hash, parse);
  }
}
