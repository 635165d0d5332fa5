/** Optional values and error outcomes shared by every module of the model. */
module Wrappers {

  /** A Python value that may be `None`. */
  datatype Option<T> = None | Some(value: T)
  {
    function GetOr(default: T): (r: T)
      ensures this.Some? ==> r == value
      ensures this.None? ==> r == default
    {
      match this
      case Some(v) => v
      case None => default
    }
  }

  /** The exceptions of the source that the model keeps as outcomes. */
  datatype Error =
    | ValueError(msg: string)
    | KeyError(key: string)
    | ConversionError(msg: string)
    | XmlParseError(msg: string)
    | AttributeError(msg: string)
    | TypeError(msg: string)
    | SyntaxError(msg: string)

  datatype Result<T> = Ok(value: T) | Err(error: Error)

  /** The index of the first test that passes, `|tests|` when none does: the branch an if/elif chain takes. */
  function FirstTrue(tests: seq<bool>): (k: nat)
    ensures k <= |tests|
    ensures k < |tests| ==> tests[k]
    ensures forall j :: 0 <= j < k ==> !tests[j]
  {
    if tests == [] then 0
    else if tests[0] then 0
    else 1 + FirstTrue(tests[1..])
  }
}
