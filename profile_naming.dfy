/**
 * Profile names (common/profile_naming_standards.py): a legacy form
 * `HProfile_{w}x{h}x{tw}x{tf}_FR{tf}`, a modern form `H_{w}x{h}x{tw}x{tf}`
 * for H, I and BOX only, a fallback `{T}Profile_{w}x{h}`, and the
 * conversion of a modern name back into the legacy one.
 *
 * Python's `str(float)` and `str(value)` are parameters: `fmt` writes a
 * float, `show` writes any value.
 */
module ProfileNaming {
  import opened Wrappers
  import opened Values
  import Strs

  /** The section types that have a naming rule, with their legacy prefixes. */
  function RulePrefix(t: string): Option<string>
  {
    if t == "H" then Some("HProfile_")
    else if t == "I" then Some("IProfile_")
    else if t == "BOX" then Some("BoxProfile_")
    else if t == "RECT" then Some("RectProfile_")
    else if t == "CIRCLE" then Some("CircleProfile_")
    else if t == "L" then Some("LProfile_")
    else None
  }

  /** `dims.get(primary, dims.get(secondary, default))`. */
  function Pick(dims: Dict, primary: string, secondary: string, default: Value): (v: Value)
    ensures primary in dims ==> v == dims[primary]
    ensures primary !in dims && secondary in dims ==> v == dims[secondary]
    ensures primary !in dims && secondary !in dims ==> v == default
  {
    if primary in dims then dims[primary] else LookupOr(dims, secondary, default)
  }

  /** `float(v)`; `None` stands for the ValueError or TypeError the naming code catches. */
  function FloatOf(v: Value): (r: Option<real>)
    ensures v.Num? ==> r == Some(v.r)
    ensures r.Some? <==> ToFloat(v).Ok?
  {
    match ToFloat(v)
    case Ok(x) => Some(x)
    case Err(_) => None
  }

  function Width(dims: Dict): Option<real> { FloatOf(Pick(dims, "overall_width", "width", Num(0.0))) }

  function Height(dims: Dict): Option<real> { FloatOf(Pick(dims, "overall_depth", "height", Num(0.0))) }

  function Web(dims: Dict): Option<real> { FloatOf(LookupOr(dims, "web_thickness", Num(0.0))) }

  function Flange(dims: Dict): Option<real> { FloatOf(LookupOr(dims, "flange_thickness", Num(0.0))) }

  function WallThickness(dims: Dict): Option<real> { FloatOf(Pick(dims, "wall_thickness", "thickness", Num(0.0))) }

  /** `a x b` joined by 'x'. */
  function X(a: string, b: string): string { a + "x" + b }

  /** `_generate_fallback_name`: the type and the raw width and height, "Unknown" when absent. */
  function FallbackName(t: string, dims: Dict, show: Value -> string): (n: string)
    ensures Strs.StartsWith(n, t + "Profile_")
    ensures var w := show(Pick(dims, "overall_width", "width", Str("Unknown")));
      var h := show(Pick(dims, "overall_depth", "height", Str("Unknown")));
      NoX(w) && NoX(h) ==> Strs.Split(n[|t| + 8..], "x") == [w, h]
  {
    var w := show(Pick(dims, "overall_width", "width", Str("Unknown")));
    var h := show(Pick(dims, "overall_depth", "height", Str("Unknown")));
    var r := t + "Profile_" + X(w, h);
    assert r == (t + "Profile_") + X(w, h);
    assert r[|t| + 8..] == X(w, h);
    FallbackSplit(w, h);
    r
  }

  /** A width and a height without 'x' joined by one 'x' split back into the two. */
  lemma FallbackSplit(w: string, h: string)
    ensures NoX(w) && NoX(h) ==> Strs.Split(X(w, h), "x") == [w, h]
  {
    if NoX(w) && NoX(h) {
      SplitNoX(h);
      SplitAfterNoX(w, h);
    }
  }

  /** The four sizes of an H or I name, when all of them read as floats. */
  function HSizes(dims: Dict): Option<(real, real, real, real)>
  {
    match (Width(dims), Height(dims), Web(dims), Flange(dims))
    case (Some(w), Some(h), Some(tw), Some(tf)) => Some((w, h, tw, tf))
    case _ => None
  }

  /** The three sizes of a BOX name. */
  function BoxSizes(dims: Dict): Option<(real, real, real)>
  {
    match (Width(dims), Height(dims), WallThickness(dims))
    case (Some(w), Some(h), Some(t)) => Some((w, h, t))
    case _ => None
  }

  /** `w x h x tw x tf` of an H or I section. */
  function HBody(s: (real, real, real, real), fmt: real -> string): string
  {
    X(fmt(s.0), X(fmt(s.1), X(fmt(s.2), fmt(s.3))))
  }

  /** `w x h x t` of a BOX section. */
  function BoxBody(s: (real, real, real), fmt: real -> string): string
  {
    X(fmt(s.0), X(fmt(s.1), fmt(s.2)))
  }

  /** `_generate_legacy_name` for a type that has a rule; an unreadable size falls back. */
  function LegacyName(t: string, dims: Dict, fmt: real -> string, show: Value -> string): (n: string)
    requires RulePrefix(t).Some?
  {
    var prefix := RulePrefix(t).value;
    if t == "H" || t == "I" then
      match HSizes(dims)
      case Some(s) => prefix + HBody(s, fmt) + "_FR" + fmt(s.3)
      case None => FallbackName(t, dims, show)
    else if t == "BOX" then
      match BoxSizes(dims)
      case Some(s) => prefix + BoxBody(s, fmt)
      case None => FallbackName(t, dims, show)
    else if t == "CIRCLE" then
      match FloatOf(Pick(dims, "outer_diameter", "diameter", Num(0.0)))
      case Some(dia) => prefix + fmt(dia)
      case None => FallbackName(t, dims, show)
    else if t == "L" then
      match (Width(dims), Height(dims), FloatOf(LookupOr(dims, "thickness", Num(0.0))))
      case (Some(w), Some(h), Some(th)) => prefix + X(fmt(w), X(fmt(h), fmt(th)))
      case _ => FallbackName(t, dims, show)
    else
      match (Width(dims), Height(dims))
      case (Some(w), Some(h)) => prefix + X(fmt(w), fmt(h))
      case _ => FallbackName(t, dims, show)
  }

  /** `_generate_modern_name`: only H, I and BOX have a modern form. */
  function ModernName(t: string, dims: Dict, fmt: real -> string, show: Value -> string): (n: string)
    ensures t != "H" && t != "I" && t != "BOX" ==> n == FallbackName(t, dims, show)
  {
    if t == "H" || t == "I" then
      match HSizes(dims)
      case Some(s) => t + "_" + HBody(s, fmt)
      case None => FallbackName(t, dims, show)
    else if t == "BOX" then
      match BoxSizes(dims)
      case Some(s) => t + "_" + BoxBody(s, fmt)
      case None => FallbackName(t, dims, show)
    else FallbackName(t, dims, show)
  }

  /**
   * `get_standardized_profile_name`: the type is upper-cased; an unknown type
   * falls back; "legacy" selects the legacy form and any other mode the
   * modern one.
   */
  function StandardizedName(sectionType: string, dims: Dict, mode: string, fmt: real -> string, show: Value -> string): (n: string)
    ensures RulePrefix(Strs.Upper(sectionType)).None? ==> n == FallbackName(Strs.Upper(sectionType), dims, show)
  {
    var t := Strs.Upper(sectionType);
    if RulePrefix(t).None? then FallbackName(t, dims, show)
    else if mode == "legacy" then LegacyName(t, dims, fmt, show)
    else ModernName(t, dims, fmt, show)
  }

  /** Lower-case type names select the same rule as upper-case ones. */
  lemma TypeCaseIgnored(dims: Dict, fmt: real -> string, show: Value -> string)
    ensures StandardizedName("h", dims, "legacy", fmt, show) == StandardizedName("H", dims, "legacy", fmt, show)
  {
    assert Strs.Upper("h") == "H";
    assert Strs.Upper("H") == "H";
  }

  /** A legacy H name with readable sizes has the documented shape. */
  lemma LegacyHShape(t: string, mode: string, dims: Dict, fmt: real -> string, show: Value -> string, w: real, h: real, tw: real, tf: real)
    requires t == "H" && mode == "legacy"
    requires HSizes(dims) == Some((w, h, tw, tf))
    ensures StandardizedName(t, dims, mode, fmt, show)
      == "HProfile_" + fmt(w) + "x" + fmt(h) + "x" + fmt(tw) + "x" + fmt(tf) + "_FR" + fmt(tf)
  {
    UpperOfH(t);
    var s := (w, h, tw, tf);
    var body := HBody(s, fmt);
    assert LegacyName(t, dims, fmt, show) == "HProfile_" + body + "_FR" + fmt(tf);
    HBodyIs(s, fmt);
  }

  /** "H" is its own upper case. */
  lemma UpperOfH(t: string)
    requires t == "H"
    ensures Strs.Upper(t) == t
  {
    assert Strs.Upper(t)[0] == t[0];
  }

  /** The four sizes joined by "x". */
  lemma HBodyIs(s: (real, real, real, real), fmt: real -> string)
    ensures HBody(s, fmt) == fmt(s.0) + "x" + fmt(s.1) + "x" + fmt(s.2) + "x" + fmt(s.3)
  {
  }

  /** Modern naming covers H, I and BOX; a RECT name in modern mode is the fallback. */
  lemma ModernRectFallsBack(dims: Dict, fmt: real -> string, show: Value -> string)
    ensures StandardizedName("RECT", dims, "modern", fmt, show) == FallbackName("RECT", dims, show)
  {
    assert Strs.Upper("RECT") == "RECT";
  }

  // ------------------------------------------------- standardize_existing_name

  /** The legacy H or I name built from the four size strings of a modern one. */
  function LegacyFromParts(prefix: string, parts: seq<string>): string
    requires |parts| == 4
  {
    prefix + X(parts[0], X(parts[1], X(parts[2], parts[3]))) + "_FR" + parts[3]
  }

  /**
   * `standardize_existing_name`: "H_" and "I_" names with four sizes become
   * legacy names, "BOX_x" becomes "BoxProfile_x", anything else is kept.
   */
  function StandardizeExistingName(n: string): (r: string)
  {
    if Strs.StartsWith(n, "H_") then
      var parts := Strs.Split(n[2..], "x");
      if |parts| == 4 then LegacyFromParts("HProfile_", parts) else n
    else if Strs.StartsWith(n, "I_") then
      var parts := Strs.Split(n[2..], "x");
      if |parts| == 4 then LegacyFromParts("IProfile_", parts) else n
    else if Strs.StartsWith(n, "BOX_") then "BoxProfile_" + n[4..]
    else n
  }

  /** A string without the letter 'x'. */
  predicate NoX(s: string) { forall i :: 0 <= i < |s| ==> s[i] != 'x' }

  lemma {:induction false} SplitNoX(s: string)
    requires NoX(s)
    ensures Strs.Split(s, "x") == [s]
    decreases |s|
  {
    if |s| >= 1 {
      assert s[..1] != "x" by { assert s[..1][0] == s[0]; }
      SplitNoX(s[1..]);
      assert [s[0]] + s[1..] == s;
    }
  }

  lemma {:induction false} SplitAfterNoX(a: string, rest: string)
    requires NoX(a)
    ensures Strs.Split(a + "x" + rest, "x") == [a] + Strs.Split(rest, "x")
    decreases |a|
  {
    var s := a + "x" + rest;
    if a == [] {
      assert s[..1] == "x";
      assert s[1..] == rest;
    } else {
      assert s[..1] != "x" by { assert s[..1][0] == a[0]; }
      assert s[1..] == a[1..] + "x" + rest;
      SplitAfterNoX(a[1..], rest);
      assert [s[0]] + a[1..] == a;
    }
  }

  /** Four 'x'-free parts joined with 'x' split back into those parts. */
  lemma SplitFour(a: string, b: string, c: string, d: string)
    requires NoX(a) && NoX(b) && NoX(c) && NoX(d)
    ensures Strs.Split(X(a, X(b, X(c, d))), "x") == [a, b, c, d]
  {
    SplitNoX(d);
    SplitAfterNoX(c, d);
    SplitAfterNoX(b, X(c, d));
    SplitAfterNoX(a, X(b, X(c, d)));
  }

  /** A float formatter that never writes the letter 'x' (Python's `str(float)` does not). */
  predicate FmtNoX(fmt: real -> string, s: (real, real, real, real))
  {
    NoX(fmt(s.0)) && NoX(fmt(s.1)) && NoX(fmt(s.2)) && NoX(fmt(s.3))
  }

  /** Standardizing a modern H name gives the legacy H name of the same sizes. */
  lemma StandardizeModernH(dims: Dict, fmt: real -> string, show: Value -> string)
    requires HSizes(dims).Some? && FmtNoX(fmt, HSizes(dims).value)
    ensures StandardizeExistingName(ModernName("H", dims, fmt, show)) == LegacyName("H", dims, fmt, show)
  {
    var s := HSizes(dims).value;
    var n := ModernName("H", dims, fmt, show);
    assert n == "H_" + HBody(s, fmt);
    assert n[2..] == HBody(s, fmt);
    SplitFour(fmt(s.0), fmt(s.1), fmt(s.2), fmt(s.3));
  }

  /** The same for I sections. */
  lemma StandardizeModernI(dims: Dict, fmt: real -> string, show: Value -> string)
    requires HSizes(dims).Some? && FmtNoX(fmt, HSizes(dims).value)
    ensures StandardizeExistingName(ModernName("I", dims, fmt, show)) == LegacyName("I", dims, fmt, show)
  {
    var s := HSizes(dims).value;
    var n := ModernName("I", dims, fmt, show);
    assert n == "I_" + HBody(s, fmt);
    assert !Strs.StartsWith(n, "H_") by { assert n[0] == 'I'; }
    assert n[2..] == HBody(s, fmt);
    SplitFour(fmt(s.0), fmt(s.1), fmt(s.2), fmt(s.3));
  }

  /** A modern BOX name standardizes to the legacy BOX name. */
  lemma StandardizeModernBox(dims: Dict, fmt: real -> string, show: Value -> string)
    requires BoxSizes(dims).Some?
    ensures StandardizeExistingName(ModernName("BOX", dims, fmt, show)) == LegacyName("BOX", dims, fmt, show)
  {
    var n := ModernName("BOX", dims, fmt, show);
    var body := BoxBody(BoxSizes(dims).value, fmt);
    assert n == "BOX_" + body;
    assert !Strs.StartsWith(n, "H_") && !Strs.StartsWith(n, "I_") by { assert n[0] == 'B'; }
    assert n[4..] == body;
  }

  /** Names that match no pattern are returned unchanged. */
  lemma StandardizeKeepsOthers(n: string)
    requires !Strs.StartsWith(n, "H_") && !Strs.StartsWith(n, "I_") && !Strs.StartsWith(n, "BOX_")
    ensures StandardizeExistingName(n) == n
  {
  }

  /** A short pattern is a prefix of `q + rest` exactly when it is a prefix of `q`. */
  lemma PrefixOfLonger(p: string, q: string, rest: string)
    requires |p| <= |q|
    ensures Strs.StartsWith(q + rest, p) <==> Strs.StartsWith(q, p)
  {
    assert (q + rest)[..|p|] == q[..|p|];
  }

  /** A name that begins with one of the legacy prefixes matches none of the modern patterns. */
  lemma LegacyPrefixIsStandard(prefix: string, rest: string)
    requires prefix == "HProfile_" || prefix == "IProfile_" || prefix == "BoxProfile_"
    ensures StandardizeExistingName(prefix + rest) == prefix + rest
  {
    PrefixOfLonger("H_", prefix, rest);
    PrefixOfLonger("I_", prefix, rest);
    PrefixOfLonger("BOX_", prefix, rest);
    assert prefix[1] != '_' && prefix[1] != 'O';
  }

  /** A standardized name is already standard: the conversion is idempotent. */
  lemma StandardizeIdempotent(n: string)
    ensures StandardizeExistingName(StandardizeExistingName(n)) == StandardizeExistingName(n)
  {
    if Strs.StartsWith(n, "H_") {
      var parts := Strs.Split(n[2..], "x");
      if |parts| == 4 {
        var rest := X(parts[0], X(parts[1], X(parts[2], parts[3]))) + "_FR" + parts[3];
        assert LegacyFromParts("HProfile_", parts) == "HProfile_" + rest;
        LegacyPrefixIsStandard("HProfile_", rest);
      }
    } else if Strs.StartsWith(n, "I_") {
      var parts := Strs.Split(n[2..], "x");
      if |parts| == 4 {
        var rest := X(parts[0], X(parts[1], X(parts[2], parts[3]))) + "_FR" + parts[3];
        assert LegacyFromParts("IProfile_", parts) == "IProfile_" + rest;
        LegacyPrefixIsStandard("IProfile_", rest);
      }
    } else if Strs.StartsWith(n, "BOX_") {
      LegacyPrefixIsStandard("BoxProfile_", n[4..]);
    }
  }
}
