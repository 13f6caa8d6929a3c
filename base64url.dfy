/**
 * The character translation between the standard base64 alphabet and the
 * URL-safe alphabet of section 5 of RFC 4648 ('+' <-> '-', '/' <-> '_'), and the
 * stripping of '=' padding.  The base64 coding itself is not part of this model.
 */
module Base64Url {

  function UrlSafeChar(ch: char): char {
    if ch == '+' then '-' else if ch == '/' then '_' else ch
  }

  function StandardChar(ch: char): char {
    if ch == '-' then '+' else if ch == '_' then '/' else ch
  }

  /** `strtr(s, '+/', '-_')`. */
  function ToUrlSafe(s: string): (r: string)
    ensures |r| == |s|
    ensures '+' !in r && '/' !in r
  {
    seq(|s|, i requires 0 <= i < |s| => UrlSafeChar(s[i]))
  }

  /** `strtr(s, '-_', '+/')`. */
  function FromUrlSafe(s: string): (r: string)
    ensures |r| == |s|
    ensures '-' !in r && '_' !in r
  {
    seq(|s|, i requires 0 <= i < |s| => StandardChar(s[i]))
  }

  /** Translating a standard-alphabet string and back gives it unchanged. */
  lemma FromToUrlSafe(s: string)
    requires '-' !in s && '_' !in s
    ensures FromUrlSafe(ToUrlSafe(s)) == s
  {
    forall i | 0 <= i < |s| ensures FromUrlSafe(ToUrlSafe(s))[i] == s[i] {
      assert s[i] in s;
    }
  }

  /** Translating a URL-safe string and back gives it unchanged. */
  lemma ToFromUrlSafe(s: string)
    requires '+' !in s && '/' !in s
    ensures ToUrlSafe(FromUrlSafe(s)) == s
  {
    forall i | 0 <= i < |s| ensures ToUrlSafe(FromUrlSafe(s))[i] == s[i] {
      assert s[i] in s;
    }
  }

  /** `rtrim(s, '=')`: `s` without its run of trailing '='. */
  function StripPadding(s: string): (r: string)
    ensures |r| <= |s| && r == s[..|r|]
    ensures r == [] || r[|r| - 1] != '='
    ensures forall i :: |r| <= i < |s| ==> s[i] == '='
  {
    if s != [] && s[|s| - 1] == '=' then StripPadding(s[..|s| - 1]) else s
  }

  lemma {:induction false} StripPaddingOf(body: string, pad: string)
    requires '=' !in body
    requires forall i :: 0 <= i < |pad| ==> pad[i] == '='
    ensures StripPadding(body + pad) == body
    decreases |pad|
  {
    if pad == [] {
      assert body + pad == body;
      if body != [] {
        assert body[|body| - 1] in body;
      }
    } else {
      var s := body + pad;
      assert s[..|s| - 1] == body + pad[..|pad| - 1];
      StripPaddingOf(body, pad[..|pad| - 1]);
    }
  }

  /** The standard base64 alphabet. */
  predicate IsBase64Char(ch: char) {
    'A' <= ch <= 'Z' || 'a' <= ch <= 'z' || '0' <= ch <= '9' || ch == '+' || ch == '/'
  }
}
