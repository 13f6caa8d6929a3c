/**
 * The unverified JWT claim reader of src/CodexOAuthService.php: the token is
 * split on '.' into the three segments of section 7.2 of RFC 7519, only the
 * middle (payload) segment is decoded, and the signature is never checked.
 * Base64 decoding and JSON decoding are foreign to the model and are passed in.
 */
module Jwt {
  import opened Wrappers
  import opened PhpArray
  import opened Strings
  import opened Base64Url

  /** `base64_decode` and `json_decode($s, true)`; a JSON decoding failure is `Null`. */
  datatype Decoders = Decoders(base64Decode: string -> string, jsonDecode: string -> Value)

  /** The claims a payload segment decodes to, when it decodes to an array. */
  function PayloadClaims(payload: string, dec: Decoders): Option<Entries> {
    var claims := dec.jsonDecode(dec.base64Decode(FromUrlSafe(payload)));
    if claims.Arr? then Some(claims.entries) else None
  }

  /** `decodeJwtClaims`: none for an empty (or "0") token, for a token that does
      not have exactly three segments, and for a payload that is not a JSON array. */
  function DecodeClaims(jwt: string, dec: Decoders): (r: Option<Entries>)
    ensures r.Some? ==> Truthy(Str(jwt)) && |Split(jwt, '.')| == 3
    ensures r.Some? ==> r == PayloadClaims(Split(jwt, '.')[1], dec)
  {
    if !Truthy(Str(jwt)) then None
    else
      var parts := Split(jwt, '.');
      if |parts| != 3 then None else PayloadClaims(parts[1], dec)
  }

  /** The claims of a well-formed token are those of its middle segment: the
      header and the signature segment play no part. */
  lemma {:induction false} ClaimsComeFromPayload(header: string, payload: string, signature: string, dec: Decoders)
    requires '.' !in header && '.' !in payload && '.' !in signature
    ensures DecodeClaims(header + "." + payload + "." + signature, dec) == PayloadClaims(payload, dec)
  {
    var parts := [header, payload, signature];
    var jwt := header + "." + payload + "." + signature;
    assert Join(parts, ".") == jwt by {
      assert parts[1..][1..] == [signature];
    }
    SplitJoin(parts, '.');
    assert jwt != "" && jwt != "0" by {
      assert |jwt| >= 2;
    }
  }

  /** Changing the signature never changes the claims read. */
  lemma SignatureIgnored(header: string, payload: string, sig1: string, sig2: string, dec: Decoders)
    requires '.' !in header && '.' !in payload && '.' !in sig1 && '.' !in sig2
    ensures DecodeClaims(header + "." + payload + "." + sig1, dec)
         == DecodeClaims(header + "." + payload + "." + sig2, dec)
  {
    ClaimsComeFromPayload(header, payload, sig1, dec);
    ClaimsComeFromPayload(header, payload, sig2, dec);
  }

  /** A token without any '.' (such as "not-a-jwt") has no claims. */
  lemma {:induction false} NoDotNoClaims(jwt: string, dec: Decoders)
    requires '.' !in jwt
    ensures DecodeClaims(jwt, dec) == None
  {
    SplitNoDelimiter(jwt, '.');
  }

  /** A claim value returned where the source declares `?string`; a value of
      another type would raise a type error there, and is no result here. */
  function AsString(v: Value): Option<string> {
    if v.Str? then Some(v.s) else None
  }

  const AccountIdClaim := StrKey("chatgpt_account_id")
  const AuthNamespace := StrKey("https://api.openai.com/auth")

  /** Priority 1: the root `chatgpt_account_id` claim. */
  function RootAccountClaim(c: Entries): Value {
    Coalesce(Lookup(c, AccountIdClaim), Null)
  }

  /** Priority 2: `chatgpt_account_id` inside the namespaced auth claim, when that is an array. */
  function NamespacedAccountClaim(c: Entries): Value {
    Coalesce(Get(Coalesce(Lookup(c, AuthNamespace), Null), AccountIdClaim), Null)
  }

  /** Priority 3: the `id` of the first element of the `organizations` array. */
  function OrganizationAccountClaim(c: Entries): Value {
    var orgs := Coalesce(Lookup(c, StrKey("organizations")), Null);
    Coalesce(Get(Coalesce(Get(orgs, IntKey(0)), Null), StrKey("id")), Null)
  }

  /** The account id of a claim set: the first non-empty of the three claims. */
  function AccountIdFromClaims(c: Entries): (r: Option<string>)
    ensures r.Some? ==> Truthy(Str(r.value))
    ensures Truthy(RootAccountClaim(c)) ==> r == AsString(RootAccountClaim(c))
    ensures (!Truthy(RootAccountClaim(c)) && Truthy(NamespacedAccountClaim(c)))
              ==> r == AsString(NamespacedAccountClaim(c))
    ensures (!Truthy(RootAccountClaim(c)) && !Truthy(NamespacedAccountClaim(c)) && Truthy(OrganizationAccountClaim(c)))
              ==> r == AsString(OrganizationAccountClaim(c))
    ensures (!Truthy(RootAccountClaim(c)) && !Truthy(NamespacedAccountClaim(c)) && !Truthy(OrganizationAccountClaim(c)))
              ==> r == None
  {
    var root := Lookup(c, AccountIdClaim);
    if root.Some? && Truthy(root.value) then AsString(root.value)
    else
      var namespaced := Coalesce(Lookup(c, AuthNamespace), Null);
      if namespaced.Arr? && Get(namespaced, AccountIdClaim).Some? && Truthy(Get(namespaced, AccountIdClaim).value)
      then AsString(Get(namespaced, AccountIdClaim).value)
      else
        var orgs := Coalesce(Lookup(c, StrKey("organizations")), Null);
        var first := Coalesce(Get(orgs, IntKey(0)), Null);
        if orgs.Arr? && Truthy(Coalesce(Get(first, StrKey("id")), Null))
        then AsString(Coalesce(Get(first, StrKey("id")), Null))
        else None
  }

  /** `extractAccountIdFromJwt`. */
  function ExtractAccountId(jwt: string, dec: Decoders): (r: Option<string>)
    ensures DecodeClaims(jwt, dec).None? ==> r.None?
    ensures DecodeClaims(jwt, dec).Some? ==> r == AccountIdFromClaims(DecodeClaims(jwt, dec).value)
  {
    var claims := DecodeClaims(jwt, dec);
    if claims.None? || claims.value == [] then None else AccountIdFromClaims(claims.value)
  }

  /** `extractEmailFromJwt`: the root `email` claim. */
  function ExtractEmail(jwt: string, dec: Decoders): (r: Option<string>)
    ensures r.Some? <==> DecodeClaims(jwt, dec).Some? && Lookup(DecodeClaims(jwt, dec).value, StrKey("email")).Some?
                         && Lookup(DecodeClaims(jwt, dec).value, StrKey("email")).value.Str?
    ensures r.Some? ==> Lookup(DecodeClaims(jwt, dec).value, StrKey("email")) == Some(Str(r.value))
  {
    var claims := DecodeClaims(jwt, dec);
    if claims.None? then None else AsString(Coalesce(Lookup(claims.value, StrKey("email")), Null))
  }

  /** A root claim "A" wins over an organizations claim "B". */
  lemma RootBeatsOrganizations(c: Entries, a: string)
    requires Lookup(c, AccountIdClaim) == Some(Str(a)) && a != "" && a != "0"
    ensures AccountIdFromClaims(c) == Some(a)
  {
  }

  /** The empty string is never a token with claims. */
  lemma EmptyTokenHasNoAccount(dec: Decoders)
    ensures ExtractAccountId("", dec) == None && ExtractEmail("", dec) == None
  {
  }
}
