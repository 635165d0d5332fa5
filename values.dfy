/**
 * Python values as the converter's dictionaries hold them. Section and
 * element definitions are `dict`s from string keys to such values; a key
 * that is absent is different from a key whose value is `None` (`Null`).
 * IFC entities made by the writer are opaque `Token`s.
 */
module Values {
  import opened Wrappers
  import Strs

  datatype Value =
    | Null
    | Bool(b: bool)
    | Num(r: real)
    | Str(s: string)
    | List(items: seq<Value>)
    | Dict(m: map<string, Value>)
    | Token(id: nat)

  type Dict = map<string, Value>

  /** Python truthiness: `None`, `False`, zero, empty strings and empty containers are false. */
  predicate Truthy(v: Value)
  {
    match v
    case Null => false
    case Bool(b) => b
    case Num(r) => r != 0.0
    case Str(s) => s != ""
    case List(items) => items != []
    case Dict(m) => m != map[]
    case Token(_) => true
  }

  /** `if d:` on an optional dict: present and non-empty. */
  predicate Present(o: Option<Dict>)
  {
    o.Some? && |o.value| > 0
  }

  /** A dictionary holding some key is truthy. */
  lemma KeyMakesPresent(d: Dict, k: string)
    requires k in d
    ensures Present(Some(d))
  {
  }

  /** `d.get(k)`. */
  function Lookup(d: Dict, k: string): (r: Value)
    ensures k !in d ==> r == Null
  {
    if k in d then d[k] else Null
  }

  /** `d.get(k, default)`. */
  function LookupOr(d: Dict, k: string, default: Value): (r: Value)
    ensures k !in d ==> r == default
  {
    if k in d then d[k] else default
  }

  /** An optional float stored in a dict: `None` or a number. */
  function OptNum(o: Option<real>): (v: Value)
    ensures Truthy(v) <==> o.Some? && o.value != 0.0
  {
    match o
    case None => Null
    case Some(x) => Num(x)
  }

  /** An optional string stored in a dict: `None` or a string. */
  function OptStr(o: Option<string>): (v: Value)
    ensures Truthy(v) <==> o.Some? && o.value != ""
  {
    match o
    case None => Null
    case Some(s) => Str(s)
  }

  /** `d1.update(d2)`: keys of `d2` win. */
  function Update(d1: Dict, d2: Dict): (r: Dict)
    ensures r.Keys == d1.Keys + d2.Keys
    ensures forall k :: k in d2 ==> r[k] == d2[k]
    ensures forall k :: k in d1 && k !in d2 ==> r[k] == d1[k]
  {
    d1 + d2
  }

  /** `d.get(k)` as a string, `None` when absent or not a string. */
  function StrAt(d: Dict, k: string): Option<string>
  {
    if k in d && d[k].Str? then Some(d[k].s) else None
  }

  /** `d.get(k)` as a number, `None` when absent or not a number. */
  function NumAt(d: Dict, k: string): Option<real>
  {
    if k in d && d[k].Num? then Some(d[k].r) else None
  }

  /** `d.setdefault(k, v)` for its effect on `d`: a key already present keeps its value. */
  function SetDefault(d: Dict, k: string, v: Value): (r: Dict)
    ensures k in r && r[k] == (if k in d then d[k] else v)
    ensures forall j :: j in d ==> j in r && r[j] == d[j]
    ensures forall j :: j in r ==> j in d || j == k
  {
    if k in d then d else d[k := v]
  }

  /**
   * Python's `float(v)` on a dictionary value: a number as it is, a string
   * as read (ValueError when unreadable), a boolean as 1 or 0, anything
   * else a TypeError.
   */
  function ToFloat(v: Value): (r: Result<real>)
    ensures v.Num? ==> r == Ok(v.r)
    ensures v.Str? ==> (r.Ok? <==> Strs.ParseFloat(v.s).Some?)
    ensures v.Null? || v.List? || v.Dict? || v.Token? ==> r.Err?
  {
    match v
    case Num(x) => Ok(x)
    case Str(s) =>
      (match Strs.ParseFloat(s)
       case Some(x) => Ok(x)
       case None => Err(ValueError("could not convert string to float: " + s)))
    case Bool(b) => Ok(if b then 1.0 else 0.0)
    case _ => Err(TypeError("float() argument must be a string or a real number"))
  }
}
