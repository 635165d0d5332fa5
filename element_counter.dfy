/**
 * The conversion report (core/element_counter.py): per element type, the
 * STB count against the IFC count, a conversion rate in percent and a
 * status, plus a summary over all types.
 *
 * The two counters (the STB parser and the regular expressions over the IFC
 * text) are not part of this model: their results are the inputs, each a
 * dictionary from type name to count, in order.
 */
module ElementCounter {

  /** A count dictionary, in insertion order. */
  type Counts = seq<(string, nat)>

  /** `counts.get(k, 0)`. */
  function Get(c: Counts, k: string): (n: nat)
    ensures (forall i :: 0 <= i < |c| ==> c[i].0 != k) ==> n == 0
  {
    if c == [] then 0 else if c[0].0 == k then c[0].1 else Get(c[1..], k)
  }

  /** `sum(counts.values())`. */
  function SumValues(c: Counts): nat
  {
    if c == [] then 0 else SumValues(c[..|c| - 1]) + c[|c| - 1].1
  }

  /** The primary types compared, in order (each STB type maps to the IFC type of the same name). */
  const Mapping: seq<string> := ["beam", "column", "slab", "wall", "brace", "pile", "footing", "foundation_column"]

  /** The IFC types that are counted, assemblies included. */
  const IfcTypes: seq<string> := Mapping + ["assembly"]

  datatype Status = OK | PARTIAL | FAILED | SRC_ASSEMBLY

  datatype TypeComparison = TypeComparison(stbCount: nat, ifcCount: nat, conversionRate: real, status: Status)

  datatype Summary = Summary(
    totalStbElements: nat,
    totalIfcPrimary: nat,
    totalIfcAll: nat,
    overallConversionRate: real,
    srcElements: nat,
    assemblyElements: nat)

  datatype Comparison = Comparison(types: seq<(string, TypeComparison)>, summary: Summary)

  /** The status of a rate: OK at 100 percent or more, PARTIAL above 0, FAILED otherwise. */
  function StatusOf(rate: real): Status
  {
    if rate >= 100.0 then OK else if rate > 0.0 then PARTIAL else FAILED
  }

  /** The comparison of one primary type, present only when STB has some. */
  function Compare(stb: nat, ifc: nat): (r: TypeComparison)
    requires stb > 0
    ensures r.conversionRate * (stb as real) == (ifc as real) * 100.0
    ensures r.status == OK <==> ifc >= stb
    ensures r.status == PARTIAL <==> 0 < ifc < stb
    ensures r.status == FAILED <==> ifc == 0
  {
    RateCompare(ifc, stb);
    TypeComparison(stb, ifc, Rate(ifc, stb), StatusOf(Rate(ifc, stb)))
  }

  /** A rate reaches 100 exactly when the IFC count reaches the STB count, and is positive exactly when it is. */
  lemma RateCompare(a: nat, b: nat)
    requires b > 0
    ensures Rate(a, b) * (b as real) == (a as real) * 100.0
    ensures Rate(a, b) >= 100.0 <==> a >= b
    ensures Rate(a, b) > 0.0 <==> a > 0
  {
    var q := a as real / b as real;
    assert q * (b as real) == a as real;
  }

  /** The STB total of the primary types in `keys`. */
  function Total(c: Counts, keys: seq<string>): nat
  {
    if keys == [] then 0 else Total(c, keys[..|keys| - 1]) + Get(c, keys[|keys| - 1])
  }

  /** The per-type comparisons of the primary types in `keys`, those with an STB count only. */
  function Entries(stb: Counts, ifc: Counts, keys: seq<string>): (r: seq<(string, TypeComparison)>)
    ensures forall i :: 0 <= i < |r| ==> r[i].0 in keys
    ensures forall i :: 0 <= i < |r| ==> Get(stb, r[i].0) > 0 && r[i].1 == Compare(Get(stb, r[i].0), Get(ifc, r[i].0))
  {
    if keys == [] then []
    else
      var prev := Entries(stb, ifc, keys[..|keys| - 1]);
      var k := keys[|keys| - 1];
      prev + (if Get(stb, k) > 0 then [(k, Compare(Get(stb, k), Get(ifc, k)))] else [])
  }

  /** Every primary type with an STB count has its entry. */
  lemma {:induction false} EntriesComplete(stb: Counts, ifc: Counts, keys: seq<string>, k: string)
    requires k in keys && Get(stb, k) > 0
    ensures exists i :: 0 <= i < |Entries(stb, ifc, keys)| && Entries(stb, ifc, keys)[i].0 == k
  {
    var prev := Entries(stb, ifc, keys[..|keys| - 1]);
    if k != keys[|keys| - 1] {
      assert k in keys[..|keys| - 1] by {
        var j :| 0 <= j < |keys| && keys[j] == k;
        assert keys[..|keys| - 1][j] == k;
      }
      EntriesComplete(stb, ifc, keys[..|keys| - 1], k);
      var i :| 0 <= i < |prev| && prev[i].0 == k;
      assert Entries(stb, ifc, keys)[i] == prev[i];
    } else {
      assert Entries(stb, ifc, keys)[|prev|].0 == k;
    }
  }

  /** `(a / b) * 100`, or 0 when `b` is 0. */
  function Rate(a: nat, b: nat): real
  {
    if b > 0 then (a as real / b as real) * 100.0 else 0.0
  }

  /** `compare_conversion`. */
  function ComparisonOf(stb: Counts, ifc: Counts): (r: Comparison)
    ensures r.summary.totalStbElements == 0 ==> r.summary.overallConversionRate == 0.0
    ensures r.summary.totalIfcAll == SumValues(ifc)
    ensures |r.types| == |Entries(stb, ifc, Mapping)| + (if Get(stb, "src") > 0 then 1 else 0)
    ensures r.types[..|Entries(stb, ifc, Mapping)|] == Entries(stb, ifc, Mapping)
  {
    var src := Get(stb, "src");
    var assembly := Get(ifc, "assembly");
    var entries := Entries(stb, ifc, Mapping);
    var all := entries + (if src > 0 then [("src", TypeComparison(src, assembly, Rate(assembly, src), SRC_ASSEMBLY))] else []);
    var totalStb := Total(stb, Mapping);
    var totalIfc := Total(ifc, Mapping);
    Comparison(all, Summary(totalStb, totalIfc, SumValues(ifc), Rate(totalIfc, totalStb), src, assembly))
  }

  /** The loop of `compare_conversion`: the totals and the entries type by type. */
  method CompareConversion(stb: Counts, ifc: Counts) returns (r: Comparison)
    ensures r == ComparisonOf(stb, ifc)
  {
    var types: seq<(string, TypeComparison)> := [];
    var totalStb: nat := 0;
    var totalIfc: nat := 0;
    var i := 0;
    while i < |Mapping|
      invariant 0 <= i <= |Mapping|
      invariant types == Entries(stb, ifc, Mapping[..i])
      invariant totalStb == Total(stb, Mapping[..i]) && totalIfc == Total(ifc, Mapping[..i])
    {
      assert Mapping[..i + 1][..i] == Mapping[..i];
      var k := Mapping[i];
      var s := Get(stb, k);
      var f := Get(ifc, k);
      totalStb := totalStb + s;
      totalIfc := totalIfc + f;
      if s > 0 {
        types := types + [(k, Compare(s, f))];
      }
      i := i + 1;
    }
    assert Mapping[..i] == Mapping;
    var src := Get(stb, "src");
    var assembly := Get(ifc, "assembly");
    if src > 0 {
      types := types + [("src", TypeComparison(src, assembly, Rate(assembly, src), SRC_ASSEMBLY))];
    }
    var all := SumCounts(ifc);
    r := Comparison(types, Summary(totalStb, totalIfc, all, Rate(totalIfc, totalStb), src, assembly));
  }

  /** `sum(counts.values())`, by a loop. */
  method SumCounts(c: Counts) returns (all: nat)
    ensures all == SumValues(c)
  {
    all := 0;
    var j := 0;
    while j < |c|
      invariant 0 <= j <= |c|
      invariant all == SumValues(c[..j])
    {
      assert c[..j + 1][..j] == c[..j];
      all := all + c[j].1;
      j := j + 1;
    }
    assert c[..j] == c;
  }

  /** The primary IFC total never exceeds the count of all IFC elements when the IFC counts have distinct keys. */
  lemma {:induction false} PrimaryWithinAll(ifc: Counts, keys: seq<string>)
    requires forall i, j :: 0 <= i < j < |ifc| ==> ifc[i].0 != ifc[j].0
    requires forall i, j :: 0 <= i < j < |keys| ==> keys[i] != keys[j]
    ensures Total(ifc, keys) <= SumValues(ifc)
    decreases |ifc|
  {
    if ifc != [] {
      var last := ifc[|ifc| - 1];
      var p := ifc[..|ifc| - 1];
      assert forall i, j :: 0 <= i < j < |p| ==> p[i].0 != p[j].0;
      PrimaryWithinAll(p, keys);
      TotalSplit(ifc, keys, last.0);
      assert SumValues(ifc) == SumValues(p) + last.1;
    } else {
      TotalOfNothing(keys);
    }
  }

  lemma {:induction false} TotalOfNothing(keys: seq<string>)
    ensures Total([], keys) == 0
  {
    if keys != [] {
      TotalOfNothing(keys[..|keys| - 1]);
    }
  }

  /** Removing the last entry of the counts lowers the total by at most that entry's count. */
  lemma {:induction false} TotalSplit(ifc: Counts, keys: seq<string>, k: string)
    requires ifc != [] && k == ifc[|ifc| - 1].0
    requires forall i, j :: 0 <= i < j < |ifc| ==> ifc[i].0 != ifc[j].0
    requires forall i, j :: 0 <= i < j < |keys| ==> keys[i] != keys[j]
    ensures Total(ifc, keys) <= Total(ifc[..|ifc| - 1], keys) + ifc[|ifc| - 1].1
  {
    var p := ifc[..|ifc| - 1];
    if keys != [] {
      var ks := keys[..|keys| - 1];
      var kl := keys[|keys| - 1];
      TotalSplit(ifc, ks, k);
      GetDropLast(ifc, kl);
      if kl == k {
        TotalWithout(ifc, ks, k);
      }
    }
  }

  lemma {:induction false} GetDropLast(c: Counts, k: string)
    requires c != []
    requires forall i, j :: 0 <= i < j < |c| ==> c[i].0 != c[j].0
    ensures k != c[|c| - 1].0 ==> Get(c, k) == Get(c[..|c| - 1], k)
    ensures k == c[|c| - 1].0 ==> Get(c, k) == c[|c| - 1].1 && Get(c[..|c| - 1], k) == 0
  {
    if |c| > 1 {
      var t := c[1..];
      assert c[..|c| - 1][1..] == t[..|t| - 1];
      assert forall i, j :: 0 <= i < j < |t| ==> t[i].0 != t[j].0 by {
        forall i, j | 0 <= i < j < |t| ensures t[i].0 != t[j].0 {
          assert t[i] == c[i + 1] && t[j] == c[j + 1];
        }
      }
      if c[0].0 != k {
        GetDropLast(t, k);
      } else {
        assert c[0].0 != c[|c| - 1].0;
      }
    }
  }

  /** Keys other than `k` see the same counts with and without the last entry `k`. */
  lemma {:induction false} TotalWithout(c: Counts, keys: seq<string>, k: string)
    requires c != [] && k == c[|c| - 1].0 && k !in keys
    requires forall i, j :: 0 <= i < j < |c| ==> c[i].0 != c[j].0
    ensures Total(c, keys) == Total(c[..|c| - 1], keys)
  {
    if keys != [] {
      TotalWithout(c, keys[..|keys| - 1], k);
      GetDropLast(c, keys[|keys| - 1]);
    }
  }
}
