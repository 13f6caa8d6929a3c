/**
 * PKCE material and the authorization URL of src/CodexOAuthService.php.
 * The challenge is built the S256 way of section 4.2 of RFC 7636: base64 of the
 * SHA-256 digest of the verifier, made URL-safe and stripped of padding.  The
 * random verifier, the digest and its base64 encoding are inputs here.
 */
module Pkce {
  import opened Strings
  import opened Base64Url

  const Issuer := "https://auth.openai.com"
  const ClientId := "app_EMoamEEZ73f0CkXaXp7hrann"
  const Scopes := "openid profile email offline_access"

  datatype PkceMaterial = PkceMaterial(verifier: string, challenge: string)

  /** `rtrim(strtr($encodedDigest, '+/', '-_'), '=')`. */
  function Challenge(encodedDigest: string): (r: string)
    ensures '+' !in r && '/' !in r
    ensures r == [] || r[|r| - 1] != '='
    ensures |r| <= |encodedDigest|
  {
    StripPadding(ToUrlSafe(encodedDigest))
  }

  /** For a standard base64 string, the challenge is its unpadded URL-safe form,
      and translating it back to the standard alphabet recovers the unpadded text. */
  lemma ChallengeOfBase64(body: string, pad: string)
    requires forall i :: 0 <= i < |body| ==> IsBase64Char(body[i])
    requires forall i :: 0 <= i < |pad| ==> pad[i] == '='
    ensures Challenge(body + pad) == ToUrlSafe(body)
    ensures FromUrlSafe(Challenge(body + pad)) == body
  {
    assert ToUrlSafe(body + pad) == ToUrlSafe(body) + pad;
    forall ch | ch in ToUrlSafe(body) ensures ch != '=' {
      var i :| 0 <= i < |body| && ToUrlSafe(body)[i] == ch;
    }
    StripPaddingOf(ToUrlSafe(body), pad);
    forall ch | ch in body ensures ch != '-' && ch != '_' {
      var i :| 0 <= i < |body| && body[i] == ch;
    }
    FromToUrlSafe(body);
  }

  /** `generatePkce`, given the random 43-character verifier and the base64
      encoding of its SHA-256 digest. */
  function GeneratePkce(verifier: string, sha256Base64: string -> string): (p: PkceMaterial)
    ensures p.verifier == verifier
    ensures '+' !in p.challenge && '/' !in p.challenge
  {
    PkceMaterial(verifier, Challenge(sha256Base64(verifier)))
  }

  /** The parameters of the authorize request, in the order the source sends them. */
  function AuthorizeParams(challenge: string, state: string, redirectUri: string): (ps: seq<(string, string)>)
    ensures |ps| == 8
    ensures ps[0] == ("client_id", ClientId) && ps[1] == ("scope", Scopes) && ps[2] == ("response_type", "code")
    ensures ps[3] == ("redirect_uri", redirectUri) && ps[4] == ("code_challenge", challenge)
    ensures ps[5] == ("code_challenge_method", "S256") && ps[6] == ("state", state)
    ensures ps[7] == ("codex_cli_simplified_flow", "true")
  {
    [ ("client_id", ClientId), ("scope", Scopes), ("response_type", "code"),
      ("redirect_uri", redirectUri), ("code_challenge", challenge),
      ("code_challenge_method", "S256"), ("state", state),
      ("codex_cli_simplified_flow", "true") ]
  }

  function QueryPairs(ps: seq<(string, string)>, urlencode: string -> string): (r: seq<string>)
    ensures |r| == |ps|
    ensures forall i :: 0 <= i < |ps| ==> r[i] == urlencode(ps[i].0) + "=" + urlencode(ps[i].1)
  {
    seq(|ps|, i requires 0 <= i < |ps| => urlencode(ps[i].0) + "=" + urlencode(ps[i].1))
  }

  /** `http_build_query`, given PHP's `urlencode`. */
  function HttpBuildQuery(ps: seq<(string, string)>, urlencode: string -> string): string {
    Join(QueryPairs(ps, urlencode), "&")
  }

  /** `buildAuthorizationUrl`. */
  function BuildAuthorizationUrl(challenge: string, state: string, redirectUri: string, urlencode: string -> string): (url: string)
    ensures StartsWith(url, Issuer + "/oauth/authorize?")
  {
    var prefix := Issuer + "/oauth/authorize?";
    var url := prefix + HttpBuildQuery(AuthorizeParams(challenge, state, redirectUri), urlencode);
    assert url[..|prefix|] == prefix;
    url
  }

  /** Since `urlencode` never produces '&', the query of the authorization URL
      holds exactly the eight encoded parameters, in order. */
  lemma {:induction false} AuthorizationQueryParams(challenge: string, state: string, redirectUri: string, urlencode: string -> string)
    requires forall s :: '&' !in urlencode(s)
    ensures var query := BuildAuthorizationUrl(challenge, state, redirectUri, urlencode)[|Issuer + "/oauth/authorize?"|..];
            Split(query, '&') == QueryPairs(AuthorizeParams(challenge, state, redirectUri), urlencode)
  {
    var ps := AuthorizeParams(challenge, state, redirectUri);
    var qs := QueryPairs(ps, urlencode);
    forall i | 0 <= i < |qs| ensures '&' !in qs[i] {
      assert qs[i] == urlencode(ps[i].0) + "=" + urlencode(ps[i].1);
      assert '&' !in urlencode(ps[i].0) && '&' !in urlencode(ps[i].1);
    }
    SplitJoin(qs, '&');
  }
}
