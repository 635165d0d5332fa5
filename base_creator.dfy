/**
 * The common element creator (ifcCreator/creators/base_creator.py): each
 * definition is handed to the subclass's `create_element`; truthy results
 * are collected in input order and counted, falsy results and exceptions
 * are dropped.
 *
 * `createOne` stands for the subclass's `create_element`: an `Err` is an
 * exception it raises.
 */
module BaseCreator {
  import opened Wrappers
  import opened Values

  /** The truthy results of `createOne` over `defs`, in input order. */
  function Created(defs: seq<Dict>, createOne: Dict -> Result<Value>): (r: seq<Value>)
    ensures |r| <= |defs|
    ensures forall i :: 0 <= i < |r| ==> Truthy(r[i])
  {
    if defs == [] then []
    else
      var prev := Created(defs[..|defs| - 1], createOne);
      var res := createOne(defs[|defs| - 1]);
      if res.Ok? && Truthy(res.value) then prev + [res.value] else prev
  }

  lemma CreatedSnoc(defs: seq<Dict>, d: Dict, createOne: Dict -> Result<Value>)
    ensures Created(defs + [d], createOne) ==
      Created(defs, createOne) + (if createOne(d).Ok? && Truthy(createOne(d).value) then [createOne(d).value] else [])
  {
    assert (defs + [d])[..|defs|] == defs;
  }

  /** Creating two lists one after the other gives the two results one after the other. */
  lemma {:induction false} CreatedAppend(xs: seq<Dict>, ys: seq<Dict>, createOne: Dict -> Result<Value>)
    ensures Created(xs + ys, createOne) == Created(xs, createOne) + Created(ys, createOne)
    decreases |ys|
  {
    if ys == [] {
      assert xs + ys == xs;
    } else {
      var y := ys[|ys| - 1];
      var ys' := ys[..|ys| - 1];
      assert xs + ys == (xs + ys') + [y];
      assert ys == ys' + [y];
      CreatedSnoc(xs + ys', y, createOne);
      CreatedSnoc(ys', y, createOne);
      CreatedAppend(xs, ys', createOne);
    }
  }

  /** When every definition yields a truthy element, the i-th result is the i-th definition's element. */
  lemma {:induction false} AllSucceedAligned(defs: seq<Dict>, createOne: Dict -> Result<Value>)
    requires forall i :: 0 <= i < |defs| ==> createOne(defs[i]).Ok? && Truthy(createOne(defs[i]).value)
    ensures |Created(defs, createOne)| == |defs|
    ensures forall i :: 0 <= i < |defs| ==> Created(defs, createOne)[i] == createOne(defs[i]).value
  {
    if defs != [] {
      var p := defs[..|defs| - 1];
      assert forall i :: 0 <= i < |p| ==> p[i] == defs[i];
      AllSucceedAligned(p, createOne);
    }
  }

  /** One failing definition drops its element and shifts every later one back by one place. */
  lemma FailureShifts(xs: seq<Dict>, bad: Dict, ys: seq<Dict>, createOne: Dict -> Result<Value>)
    requires !(createOne(bad).Ok? && Truthy(createOne(bad).value))
    ensures Created(xs + [bad] + ys, createOne) == Created(xs, createOne) + Created(ys, createOne)
  {
    CreatedAppend(xs + [bad], ys, createOne);
    CreatedSnoc(xs, bad, createOne);
  }

  /** The creator with its running count of created elements. */
  class ElementCreator {
    var elementCount: nat

    constructor ()
      ensures elementCount == 0
    {
      elementCount := 0;
    }

    /** `create_elements`: the truthy results, each of which is counted. */
    method CreateElements(defs: seq<Dict>, createOne: Dict -> Result<Value>) returns (elements: seq<Value>)
      modifies this
      ensures elements == Created(defs, createOne)
      ensures elementCount == old(elementCount) + |elements|
    {
      elements := [];
      var i := 0;
      while i < |defs|
        invariant 0 <= i <= |defs|
        invariant elements == Created(defs[..i], createOne)
        invariant elementCount == old(elementCount) + |elements|
      {
        CreatedSnoc(defs[..i], defs[i], createOne);
        assert defs[..i + 1] == defs[..i] + [defs[i]];
        var res := createOne(defs[i]);
        if res.Ok? && Truthy(res.value) {
          elements := elements + [res.value];
          elementCount := elementCount + 1;
        }
        i := i + 1;
      }
      assert defs[..i] == defs;
    }

    /** `reset_count`. */
    method ResetCount()
      modifies this
      ensures elementCount == 0
    {
      elementCount := 0;
    }
  }
}
