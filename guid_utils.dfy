/**
 * `convert_stb_guid_to_ifc` (common/guid_utils.py): an ST-Bridge GUID loses
 * its hyphens and surrounding white space, must then be 32 characters long,
 * and is handed to the IFC GUID compressor. The compressor belongs to the
 * IFC library and is a parameter here.
 */
module GuidUtils {
  import opened Wrappers
  import Strs

  /** The string the length check looks at: hyphens removed, then stripped. */
  function HexOf(g: string): (h: string)
    ensures |h| <= |g|
  {
    ReplaceShrinks(g);
    Strs.Strip(Strs.Replace(g, "-", ""))
  }

  lemma {:induction false} ReplaceShrinks(g: string)
    ensures |Strs.Replace(g, "-", "")| <= |g|
    decreases |g|
  {
    if |g| >= 1 {
      ReplaceShrinks(g[1..]);
    }
  }

  /** No character of `s` is a hyphen. */
  predicate NoHyphen(s: string)
  {
    forall i :: 0 <= i < |s| ==> s[i] != '-'
  }

  /** Removing hyphens leaves no hyphen behind. */
  lemma {:induction false} ReplaceRemovesHyphens(g: string)
    ensures NoHyphen(Strs.Replace(g, "-", ""))
    decreases |g|
  {
    if |g| >= 1 {
      ReplaceRemovesHyphens(g[1..]);
      if g[..1] != "-" {
        assert g[0] != '-' by { assert g[..1][0] == g[0]; }
        assert Strs.Replace(g, "-", "") == [g[0]] + Strs.Replace(g[1..], "-", "");
      }
    }
  }

  lemma {:induction false} StripLeftNoHyphen(t: string)
    requires NoHyphen(t)
    ensures NoHyphen(Strs.StripLeft(t))
    decreases |t|
  {
    if |t| > 0 && Strs.IsSpace(t[0]) {
      StripLeftNoHyphen(t[1..]);
    }
  }

  lemma {:induction false} StripRightNoHyphen(t: string)
    requires NoHyphen(t)
    ensures NoHyphen(Strs.StripRight(t))
    decreases |t|
  {
    if |t| > 0 && Strs.IsSpace(t[|t| - 1]) {
      StripRightNoHyphen(t[..|t| - 1]);
    }
  }

  /**
   * The conversion. An absent or empty GUID and a GUID whose cleaned form
   * is not 32 characters long raise ValueError; otherwise the compressor
   * receives the cleaned form.
   */
  function ConvertStbGuidToIfc(g: Option<string>, compress: string -> string): (r: Result<string>)
    ensures g.None? || g == Some("") ==> r.Err? && r.error.ValueError?
    ensures g.Some? && g.value != "" && |HexOf(g.value)| != 32 ==> r.Err? && r.error.ValueError?
    ensures r.Ok? ==> g.Some? && |HexOf(g.value)| == 32 && r.value == compress(HexOf(g.value))
  {
    if g.None? || g.value == "" then Err(ValueError("STB GUID is required"))
    else
      var h := HexOf(g.value);
      if |h| != 32 then Err(ValueError("malformed STB GUID: " + g.value))
      else Ok(compress(h))
  }

  /** The text the compressor receives has no hyphen in it. */
  lemma CompressedTextHasNoHyphen(g: string)
    ensures NoHyphen(HexOf(g))
  {
    ReplaceRemovesHyphens(g);
    StripLeftNoHyphen(Strs.Replace(g, "-", ""));
    StripRightNoHyphen(Strs.StripLeft(Strs.Replace(g, "-", "")));
  }

  /** The pieces written one after the other. */
  function Concat(pieces: seq<string>): string
  {
    if |pieces| == 0 then "" else pieces[0] + Concat(pieces[1..])
  }

  /** Hyphen-joined pieces without hyphens lose exactly the joining hyphens. */
  lemma {:induction false} ReplaceJoined(pieces: seq<string>)
    requires forall i :: 0 <= i < |pieces| ==> NoHyphen(pieces[i])
    ensures Strs.Replace(Strs.Join(pieces, "-"), "-", "") == Concat(pieces)
    decreases |pieces|
  {
    if |pieces| == 1 {
      ReplaceNoHyphen(pieces[0]);
    } else if |pieces| > 1 {
      ReplaceJoined(pieces[1..]);
      ReplaceNoHyphen(pieces[0]);
      ReplaceAppend(pieces[0], "-" + Strs.Join(pieces[1..], "-"));
      ReplaceAppend("-", Strs.Join(pieces[1..], "-"));
      assert Strs.Replace("-", "-", "") == "";
      assert pieces[0] + "-" + Strs.Join(pieces[1..], "-") == pieces[0] + ("-" + Strs.Join(pieces[1..], "-"));
    }
  }

  /** Removing a one-character pattern works piece by piece. */
  lemma {:induction false} ReplaceAppend(x: string, y: string)
    ensures Strs.Replace(x + y, "-", "") == Strs.Replace(x, "-", "") + Strs.Replace(y, "-", "")
    decreases |x|
  {
    if |x| == 0 {
      assert x + y == y;
    } else {
      assert (x + y)[..1] == x[..1];
      assert (x + y)[1..] == x[1..] + y;
      ReplaceAppend(x[1..], y);
    }
  }

  predicate IsHexDigit(c: char)
  {
    '0' <= c <= '9' || 'a' <= c <= 'f' || 'A' <= c <= 'F'
  }

  predicate IsHex(s: string)
  {
    forall i :: 0 <= i < |s| ==> IsHexDigit(s[i])
  }

  /** The canonical 8-4-4-4-12 form is accepted, and the compressor receives its 32 hexadecimal digits. */
  lemma HyphenatedGuidAccepted(a: string, b: string, c: string, d: string, e: string, compress: string -> string)
    requires |a| == 8 && |b| == 4 && |c| == 4 && |d| == 4 && |e| == 12
    requires IsHex(a) && IsHex(b) && IsHex(c) && IsHex(d) && IsHex(e)
    ensures ConvertStbGuidToIfc(Some(Strs.Join([a, b, c, d, e], "-")), compress) == Ok(compress(Concat([a, b, c, d, e])))
  {
    var pieces := [a, b, c, d, e];
    assert forall i :: 0 <= i < |pieces| ==> NoHyphen(pieces[i]);
    ReplaceJoined(pieces);
    var h := Concat(pieces);
    assert pieces[1..] == [b, c, d, e] && pieces[1..][1..] == [c, d, e];
    assert pieces[1..][1..][1..] == [d, e] && pieces[1..][1..][1..][1..] == [e];
    assert Concat([e]) == e by { assert [e][1..] == []; }
    assert Concat([d, e]) == d + e;
    assert Concat([c, d, e]) == c + (d + e);
    assert Concat([b, c, d, e]) == b + (c + (d + e));
    assert h == a + (b + (c + (d + e)));
    assert |h| == 32;
    assert Strs.Join(pieces, "-") != "";
    assert !Strs.IsSpace(h[0]) by { assert h[0] == a[0]; }
    assert !Strs.IsSpace(h[|h| - 1]) by { assert h[|h| - 1] == e[11]; }
    assert Strs.StripLeft(h) == h;
  }

  /**
   * Only the length is checked: 32 characters that are not hexadecimal
   * digits still reach the compressor.
   */
  lemma NonHexReachesCompressor(compress: string -> string)
    ensures var z := seq(32, _ => 'z'); ConvertStbGuidToIfc(Some(z), compress) == Ok(compress(z))
  {
    var z := seq(32, _ => 'z');
    assert |z| >= 1 && z[..1] != "-" by { assert z[..1][0] == 'z'; }
    ReplaceNoHyphen(z);
    assert !Strs.IsSpace(z[0]) && !Strs.IsSpace(z[31]);
  }

  lemma {:induction false} ReplaceNoHyphen(s: string)
    requires forall i :: 0 <= i < |s| ==> s[i] != '-'
    ensures Strs.Replace(s, "-", "") == s
    decreases |s|
  {
    if |s| >= 1 {
      assert s[..1] != "-" by { assert s[..1][0] == s[0]; }
      ReplaceNoHyphen(s[1..]);
      assert [s[0]] + s[1..] == s;
    }
  }
}
