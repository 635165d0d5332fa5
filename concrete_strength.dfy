/**
 * Concrete strength strings of ST-Bridge (common/concrete_strength_utils.py):
 * "Fc21" and friends are read as a number of N/mm², converted to pascals and
 * turned into an IFC material name.
 *
 * The pattern `^Fc(\d+(?:\.\d+)?)$` is matched ignoring case. Python's `$`
 * also matches just before a final line feed, so "Fc21\n" reads as 21.
 */
module ConcreteStrength {
  import opened Wrappers
  import Strs

  /** The input begins with "Fc" in any letter case. */
  predicate FcPrefix(s: string)
  {
    |s| >= 2 && (s[0] == 'F' || s[0] == 'f') && (s[1] == 'C' || s[1] == 'c')
  }

  /** The text the capture group must cover: after "Fc", without one final line feed. */
  function RegexBody(s: string): (b: string)
    requires |s| >= 2
    ensures |b| <= |s| - 2 && b == s[2..2 + |b|]
  {
    if |s| >= 3 && s[|s| - 1] == '\n' then s[2..|s| - 1] else s[2..]
  }

  /** `\d+(?:\.\d+)?` over the whole string (ASCII digits). */
  predicate DecimalForm(b: string)
  {
    var k := Strs.DotIndex(b);
    k > 0 && Strs.AllDigits(b[..k]) &&
    (k == |b| || (k + 1 < |b| && Strs.AllDigits(b[k + 1..])))
  }

  /** The regular expression matches. */
  predicate FcMatch(s: string)
  {
    FcPrefix(s) && DecimalForm(RegexBody(s))
  }

  /** `float(group)` never fails on the captured digits: the `except` branch is dead. */
  lemma DecimalParses(b: string)
    requires DecimalForm(b)
    ensures Strs.ParseFloat(b) == Strs.ParseUnsigned(b) && Strs.ParseUnsigned(b).Some?
  {
    var k := Strs.DotIndex(b);
    assert b[..k][0] == b[0];
    assert !Strs.IsSpace(b[0]) && b[0] != '-' && b[0] != '+';
    if k == |b| {
      assert b[..k] == b;
    } else {
      assert b[k + 1..][|b| - k - 2] == b[|b| - 1];
    }
    assert !Strs.IsSpace(b[|b| - 1]);
  }

  /**
   * `extract_concrete_strength_value`: `None` or "" gives None; a match of
   * the Fc pattern gives its number; otherwise `float(s)` or None.
   */
  function ExtractStrengthValue(s: Option<string>): (r: Option<real>)
    ensures s.None? || s == Some("") ==> r.None?
    ensures s.Some? && FcMatch(s.value) ==> r.Some? && r == Strs.ParseUnsigned(RegexBody(s.value))
    ensures s.Some? && s.value != "" && !FcMatch(s.value) ==> r == Strs.ParseFloat(s.value)
  {
    if s.None? || s.value == "" then None
    else if FcMatch(s.value) then
      var group := RegexBody(s.value);
      DecimalParses(group);
      Strs.ParseFloat(group)
    else Strs.ParseFloat(s.value)
  }

  /** The same natural number behind "Fc", "FC", "fc" or "fC". */
  lemma FcNumeral(prefix: string, n: nat)
    requires prefix == "Fc" || prefix == "FC" || prefix == "fc" || prefix == "fC"
    ensures ExtractStrengthValue(Some(prefix + Strs.NatToString(n))) == Some(n as real)
  {
    var d := Strs.NatToString(n);
    var s := prefix + d;
    assert s[2..] == d;
    assert s[|s| - 1] == d[|d| - 1];
    Strs.DigitsHaveNoDot(d);
    assert d[..|d|] == d;
    Strs.ParseNatToString(n);
    Strs.StripOfDigits(d);
  }

  /** Python's `$` accepts one trailing line feed: "Fc21\n" is still 21. */
  lemma FcNumeralLineFeed(n: nat)
    ensures ExtractStrengthValue(Some("Fc" + Strs.NatToString(n) + "\n")) == Some(n as real)
  {
    var d := Strs.NatToString(n);
    var s := "Fc" + d + "\n";
    assert s[2..|s| - 1] == d;
    Strs.DigitsHaveNoDot(d);
    assert d[..|d|] == d;
    Strs.ParseNatToString(n);
    Strs.StripOfDigits(d);
  }

  /** A bare number is read as itself. */
  lemma BareNumeral(n: nat)
    ensures ExtractStrengthValue(Some(Strs.NatToString(n))) == Some(n as real)
  {
    var d := Strs.NatToString(n);
    assert Strs.IsDigit(d[0]);
    Strs.ParseNatToString(n);
  }

  /** Text that is neither an Fc string nor a number reads as None. */
  lemma InvalidIsNone()
    ensures ExtractStrengthValue(Some("invalid")) == None
  {
    ParseFloatInvalid();
    assert !FcPrefix("invalid");
  }

  /** `convert_strength_to_pascals`: 1 N/mm² is 1,000,000 Pa. */
  function ToPascals(nmm2: real): (pa: real)
    ensures nmm2 > 0.0 ==> pa > nmm2
    ensures pa / 1000000.0 == nmm2
  {
    nmm2 * 1000000.0
  }

  /**
   * `format_concrete_strength_name`: empty gives "Concrete"; a "Concrete_"
   * name is kept; an "Fc" name (any case) and any other text gain
   * "Concrete_"; a number gains "Concrete_Fc".
   */
  function FormatName(s: Option<string>): (r: string)
    ensures s.None? || s == Some("") ==> r == "Concrete"
    ensures s.Some? && s.value != "" ==> Strs.StartsWith(r, "Concrete_") && Strs.EndsWith(r, s.value)
  {
    if s.None? || s.value == "" then "Concrete"
    else
      var v := s.value;
      if Strs.StartsWith(v, "Concrete_") then
        assert v[|v| - |v|..] == v;
        v
      else if Strs.StartsWith(Strs.Upper(v), "FC") then
        var r := "Concrete_" + v;
        assert r[|r| - |v|..] == v;
        r
      else if Strs.ParseFloat(v).Some? then
        var r := "Concrete_Fc" + v;
        assert r[|r| - |v|..] == v;
        assert r[..9] == "Concrete_";
        r
      else
        var r := "Concrete_" + v;
        assert r[|r| - |v|..] == v;
        r
  }

  /** Only the empty input gives the bare name "Concrete". */
  lemma FormatBareOnlyForEmpty(s: Option<string>)
    ensures FormatName(s) == "Concrete" <==> s.None? || s == Some("")
  {
    if s.Some? && s.value != "" {
      assert |FormatName(s)| >= 9 + |s.value| || FormatName(s) == s.value;
      assert |FormatName(s)| >= |"Concrete_"|;
    }
  }

  /** Formatting a non-empty name twice changes nothing more. */
  lemma FormatIdempotent(v: string)
    requires v != ""
    ensures FormatName(Some(FormatName(Some(v)))) == FormatName(Some(v))
  {
  }

  /** A bare number is named "Concrete_Fc" followed by that number. */
  lemma FormatNumeral(n: nat)
    ensures FormatName(Some(Strs.NatToString(n))) == "Concrete_Fc" + Strs.NatToString(n)
  {
    var d := Strs.NatToString(n);
    assert Strs.IsDigit(d[0]) && Strs.Upper(d)[0] == d[0];
    Strs.ParseNatToString(n);
  }

  /**
   * `parse_concrete_strength_info`: the name, the strength in N/mm² and the
   * strength in pascals, the last present exactly when the second is.
   */
  function ParseInfo(s: Option<string>): (r: (string, Option<real>, Option<real>))
    ensures r.0 == FormatName(s) && r.1 == ExtractStrengthValue(s)
    ensures r.2.Some? <==> r.1.Some?
    ensures r.1.Some? ==> r.2.value == r.1.value * 1000000.0
  {
    var nmm2 := ExtractStrengthValue(s);
    (FormatName(s), nmm2, if nmm2.Some? then Some(ToPascals(nmm2.value)) else None)
  }

  lemma NatToString21()
    ensures Strs.NatToString(21) == "21"
  {
  }

  lemma ExtractFc21()
    ensures ExtractStrengthValue(Some("Fc21")) == Some(21.0)
  {
    NatToString21();
    FcNumeral("Fc", 21);
    assert "Fc" + "21" == "Fc21";
  }

  lemma FormatFc21()
    ensures FormatName(Some("Fc21")) == "Concrete_Fc21"
  {
    var u := Strs.Upper("Fc21");
    assert u[0] == 'F' && u[1] == 'C';
    assert u[..2] == "FC";
  }

  /** "Fc21" gives ("Concrete_Fc21", 21, 21 000 000). */
  lemma InfoFc21()
    ensures ParseInfo(Some("Fc21")) == ("Concrete_Fc21", Some(21.0), Some(21000000.0))
  {
    ExtractFc21();
    FormatFc21();
  }

  lemma ParseFloatInvalid()
    ensures Strs.ParseFloat("invalid") == None
  {
    var s := "invalid";
    assert !Strs.IsSpace(s[0]) && !Strs.IsSpace(s[|s| - 1]);
    assert Strs.StripRight(s) == s;
    var k := Strs.DotIndex(s);
    assert s[0] != '.';
    assert k > 0;
    assert s[..k][0] == 'i';
  }

  lemma FormatInvalid(v: string)
    requires v == "invalid"
    ensures FormatName(Some(v)) == "Concrete_" + v
  {
    ParseFloatInvalid();
    InvalidNotFc();
    assert !Strs.StartsWith(v, "Concrete_") by { assert |v| < |"Concrete_"|; }
    FormatOther(v);
  }

  /** Text that is no "Concrete_" or "Fc" name and no number gains "Concrete_". */
  lemma FormatOther(v: string)
    requires v != "" && !Strs.StartsWith(v, "Concrete_") && !Strs.StartsWith(Strs.Upper(v), "FC")
    requires Strs.ParseFloat(v).None?
    ensures FormatName(Some(v)) == "Concrete_" + v
  {
  }

  /** "invalid" upper-cased does not start with "FC". */
  lemma InvalidNotFc()
    ensures !Strs.StartsWith(Strs.Upper("invalid"), "FC")
  {
    var u := Strs.Upper("invalid");
    assert u[0] == Strs.UpperChar('i') == 'I';
  }

  /** "invalid" gives ("Concrete_invalid", None, None). */
  lemma InfoInvalid(v: string)
    requires v == "invalid"
    ensures ParseInfo(Some(v)) == ("Concrete_" + v, None, None)
  {
    InvalidIsNone();
    FormatInvalid(v);
  }
}
