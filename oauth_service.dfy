/**
 * The token lifecycle of src/CodexOAuthService.php: code exchange, the device
 * authorization poll, the refresh-token grant of section 6 of RFC 6749,
 * `storeTokens` and `getAccessToken`.  The network is replaced by the
 * responses it would give, passed in; each operation reports the requests it
 * sends, so that "no request" and "exactly one exchange" can be stated.  The
 * current time is an integer parameter.
 */
module OAuthService {
  import opened Wrappers
  import opened PhpArray
  import opened Jwt
  import opened Pkce
  import opened TokenStore

  const TokenUrl := Issuer + "/oauth/token"
  const UserCodeUrl := Issuer + "/api/accounts/deviceauth/usercode"
  const DeviceTokenUrl := Issuer + "/api/accounts/deviceauth/token"
  const DeviceAuthRedirectUri := "https://auth.openai.com/deviceauth/callback"
  const DefaultExpiresIn := 3600

  /** A request sent to the identity provider: its URL and its fields in order. */
  datatype HttpRequest = HttpRequest(url: string, fields: seq<(string, string)>)

  /** A response from the identity provider: its status and its decoded JSON body. */
  datatype HttpResponse = HttpResponse(status: int, json: Value)

  /** Laravel's `failed()`, which is also when `throw()` raises: a 4xx or 5xx status. */
  predicate Failed(r: HttpResponse) {
    r.status >= 400
  }

  function ExchangeRequest(code: string, verifier: string, redirectUri: string): HttpRequest {
    HttpRequest(TokenUrl, [("grant_type", "authorization_code"), ("client_id", ClientId), ("code", code),
                           ("code_verifier", verifier), ("redirect_uri", redirectUri)])
  }

  function RefreshRequest(refreshToken: string): HttpRequest {
    HttpRequest(TokenUrl, [("grant_type", "refresh_token"), ("refresh_token", refreshToken), ("client_id", ClientId)])
  }

  function UserCodeRequest(): HttpRequest {
    HttpRequest(UserCodeUrl, [("client_id", ClientId)])
  }

  function PollRequest(deviceAuthId: string, userCode: string): HttpRequest {
    HttpRequest(DeviceTokenUrl, [("device_auth_id", deviceAuthId), ("user_code", userCode)])
  }

  /** `exchangeCode`, which sends `ExchangeRequest(code, verifier, redirectUri)`:
      a failed response raises, and so does a body that is not an array (the
      declared return type); otherwise the token payload is returned as is. */
  function ExchangeCode(code: string, verifier: string, redirectUri: string, resp: HttpResponse): (r: Result<Value>)
    ensures r.Ok? <==> !Failed(resp) && resp.json.Arr?
    ensures r.Ok? ==> r.value == resp.json
  {
    if Failed(resp) then Err("token exchange failed")
    else if !resp.json.Arr? then Err("type error: token payload is not an array")
    else Ok(resp.json)
  }

  /** `initiateDeviceAuth`, which sends `UserCodeRequest()`: a failed response
      raises, and so does a body that is not an array; otherwise the session
      array (device auth id, user code, interval) is returned as is. */
  function InitiateDeviceAuth(resp: HttpResponse): (r: Result<Value>)
    ensures r.Ok? <==> !Failed(resp) && resp.json.Arr?
    ensures r.Ok? ==> r.value == resp.json
  {
    if Failed(resp) then Err("device authorization failed")
    else if !resp.json.Arr? then Err("type error: device session is not an array")
    else Ok(resp.json)
  }

  /** What `pollDeviceAuth` gives: `Ok(None)` is "still pending", `Ok(Some(p))`
      a token payload, `Err` a raised exception; and the requests it sent. */
  datatype PollResult = PollResult(outcome: Result<Option<Value>>, sent: seq<HttpRequest>)

  /** `pollDeviceAuth`: status 403 is the pending signal; any other failure
      raises; a payload carrying an authorization code and a code verifier is
      exchanged once, with the device redirect URI; any other payload is
      returned as is (a body that is not JSON reads as null, that is pending). */
  function PollDeviceAuth(deviceAuthId: string, userCode: string, pollResp: HttpResponse, exchangeResp: HttpResponse): (r: PollResult)
    ensures |r.sent| >= 1 && r.sent[0] == PollRequest(deviceAuthId, userCode)
    ensures |r.sent| <= 2
    ensures r.outcome.Ok? && r.outcome.value.Some? ==> r.outcome.value.value.Arr?
    ensures r.outcome == Ok(None) ==> r.sent == [PollRequest(deviceAuthId, userCode)]
    ensures |r.sent| == 2 ==> r.sent[1].url == TokenUrl
  {
    var sent := [PollRequest(deviceAuthId, userCode)];
    if pollResp.status == 403 then PollResult(Ok(None), sent)
    else if Failed(pollResp) then PollResult(Err("device authorization poll failed"), sent)
    else
      var data := pollResp.json;
      if IsSet(data, StrKey("authorization_code")) && IsSet(data, StrKey("code_verifier")) then
        var code := Get(data, StrKey("authorization_code")).value;
        var verifier := Get(data, StrKey("code_verifier")).value;
        if !code.Str? || !verifier.Str? then PollResult(Err("type error: code is not a string"), sent)
        else
          var exchanged := ExchangeCode(code.s, verifier.s, DeviceAuthRedirectUri, exchangeResp);
          var sent' := sent + [ExchangeRequest(code.s, verifier.s, DeviceAuthRedirectUri)];
          if exchanged.Err? then PollResult(Err(exchanged.error), sent')
          else PollResult(Ok(Some(exchanged.value)), sent')
      else if data == Null then PollResult(Ok(None), sent)
      else if data.Arr? then PollResult(Ok(Some(data)), sent)
      else PollResult(Err("type error: poll payload is not an array"), sent)
  }

  /** A 403 is "pending": no error, no exchange. */
  lemma PollForbiddenIsPending(deviceAuthId: string, userCode: string, pollResp: HttpResponse, exchangeResp: HttpResponse)
    requires pollResp.status == 403
    ensures PollDeviceAuth(deviceAuthId, userCode, pollResp, exchangeResp) == PollResult(Ok(None), [PollRequest(deviceAuthId, userCode)])
  {
  }

  /** A successful poll carrying a code and a verifier makes exactly one
      exchange, with those values and the device redirect URI, and returns the
      exchanged payload. */
  lemma PollExchangesOnce(deviceAuthId: string, userCode: string, pollResp: HttpResponse, exchangeResp: HttpResponse, code: string, verifier: string)
    requires pollResp.status != 403 && !Failed(pollResp)
    requires Get(pollResp.json, StrKey("authorization_code")) == Some(Str(code))
    requires Get(pollResp.json, StrKey("code_verifier")) == Some(Str(verifier))
    requires !Failed(exchangeResp) && exchangeResp.json.Arr?
    ensures var r := PollDeviceAuth(deviceAuthId, userCode, pollResp, exchangeResp);
            r.sent == [PollRequest(deviceAuthId, userCode), ExchangeRequest(code, verifier, DeviceAuthRedirectUri)]
            && r.outcome == Ok(Some(exchangeResp.json))
  {
  }

  /** Any other successful array payload is returned unchanged, without an exchange. */
  lemma PollPassesPayloadThrough(deviceAuthId: string, userCode: string, pollResp: HttpResponse, exchangeResp: HttpResponse)
    requires pollResp.status != 403 && !Failed(pollResp) && pollResp.json.Arr?
    requires !IsSet(pollResp.json, StrKey("authorization_code")) || !IsSet(pollResp.json, StrKey("code_verifier"))
    ensures PollDeviceAuth(deviceAuthId, userCode, pollResp, exchangeResp) == PollResult(Ok(Some(pollResp.json)), [PollRequest(deviceAuthId, userCode)])
  {
  }

  /** The fields of a token payload that the lifecycle reads. */
  datatype TokenPayload = TokenPayload(
    accessToken: string,
    refreshToken: Option<string>,
    idToken: Option<string>,
    accountId: Option<string>,
    expiresIn: Option<int>,
    expiresAt: Option<int>)

  /** An optional string field: missing or null is `None`, another type raises. */
  function OptionalString(data: Value, key: string): (r: Result<Option<string>>)
    ensures r == Ok(None) <==> Coalesce(Get(data, StrKey(key)), Null) == Null
    ensures Coalesce(Get(data, StrKey(key)), Null).Str? <==> r.Ok? && r.value.Some?
    ensures r.Ok? && r.value.Some? ==> Coalesce(Get(data, StrKey(key)), Null) == Str(r.value.value)
  {
    var v := Coalesce(Get(data, StrKey(key)), Null);
    if v == Null then Ok(None) else if v.Str? then Ok(Some(v.s)) else Err("type error: " + key)
  }

  function OptionalInt(data: Value, key: string): (r: Result<Option<int>>)
    ensures r == Ok(None) <==> Coalesce(Get(data, StrKey(key)), Null) == Null
    ensures Coalesce(Get(data, StrKey(key)), Null).Int? <==> r.Ok? && r.value.Some?
    ensures r.Ok? && r.value.Some? ==> Coalesce(Get(data, StrKey(key)), Null) == Int(r.value.value)
  {
    var v := Coalesce(Get(data, StrKey(key)), Null);
    if v == Null then Ok(None) else if v.Int? then Ok(Some(v.i)) else Err("type error: " + key)
  }

  /** Reads a token payload array; a missing access token, or a field of the
      wrong type, raises (a type error or a database error in the source). */
  function ParseTokenPayload(data: Value): (r: Result<TokenPayload>)
    ensures r.Ok? ==> Get(data, StrKey("access_token")) == Some(Str(r.value.accessToken))
    ensures r.Ok? ==> OptionalString(data, "refresh_token") == Ok(r.value.refreshToken)
                      && OptionalString(data, "id_token") == Ok(r.value.idToken)
                      && OptionalString(data, "account_id") == Ok(r.value.accountId)
                      && OptionalInt(data, "expires_in") == Ok(r.value.expiresIn)
                      && OptionalInt(data, "expires_at") == Ok(r.value.expiresAt)
  {
    var access := Get(data, StrKey("access_token"));
    if access.None? || !access.value.Str? then Err("type error: access_token")
    else
      var refresh := OptionalString(data, "refresh_token");
      var idToken := OptionalString(data, "id_token");
      var accountId := OptionalString(data, "account_id");
      var expiresIn := OptionalInt(data, "expires_in");
      var expiresAt := OptionalInt(data, "expires_at");
      if refresh.Err? || idToken.Err? || accountId.Err? || expiresIn.Err? || expiresAt.Err? then Err("type error")
      else Ok(TokenPayload(access.value.s, refresh.value, idToken.value, accountId.value, expiresIn.value, expiresAt.value))
  }

  /** The columns `storeTokens` writes: every one of them.  The account id is
      the payload's own, else the access token's, else the id token's; the
      e-mail is the id token's, else the access token's; the expiry is the
      payload's absolute one, else now plus `expires_in` (default 3600); the
      id token, when non-empty, is kept in the token data. */
  function TokensUpdate(p: TokenPayload, now: int, dec: Decoders): (u: Update)
    requires p.refreshToken.Some?
    ensures Complete(u)
    ensures u.accessToken == Some(p.accessToken) && u.refreshToken == p.refreshToken
    ensures u.accountId == Some(p.accountId.OrElse(ExtractAccountId(p.accessToken, dec)).OrElse(ExtractAccountId(p.idToken.GetOr(""), dec)))
    ensures u.email == Some(ExtractEmail(p.idToken.GetOr(""), dec).OrElse(ExtractEmail(p.accessToken, dec)))
    ensures p.expiresAt.Some? ==> u.expiresAt == p.expiresAt
    ensures p.expiresAt.None? ==> u.expiresAt == Some(now + p.expiresIn.GetOr(DefaultExpiresIn))
  {
    var accountId := p.accountId.OrElse(ExtractAccountId(p.accessToken, dec)).OrElse(ExtractAccountId(p.idToken.GetOr(""), dec));
    var email := ExtractEmail(p.idToken.GetOr(""), dec).OrElse(ExtractEmail(p.accessToken, dec));
    var expiresAt := if p.expiresAt.Some? then p.expiresAt.value else now + p.expiresIn.GetOr(DefaultExpiresIn);
    var tokenData := if p.idToken.Some? && Truthy(Str(p.idToken.value))
                     then Arr([(StrKey("id_token"), Str(p.idToken.value))]) else Arr([]);
    Update(Some(p.accessToken), p.refreshToken, Some(expiresAt), Some(accountId), Some(email), Some(tokenData))
  }

  /** The row after `storeTokens(p)`: the refresh token is a required column, so
      a payload without one fails; otherwise the row is wholly replaced. */
  function StorePayload(current: Option<Record>, p: TokenPayload, now: int, dec: Decoders): (r: Result<Record>)
    ensures r.Ok? <==> p.refreshToken.Some?
    ensures r.Ok? ==> Some(r.value) == Upsert(current, TokensUpdate(p, now, dec))
    ensures r.Ok? ==> r.value.accessToken == p.accessToken && r.value.refreshToken == p.refreshToken.value
  {
    if p.refreshToken.None? then Err("database error: refresh_token is required")
    else Ok(Upsert(current, TokensUpdate(p, now, dec)).value)
  }

  /** `storeTokens($data)` on the raw payload array. */
  function StoreTokensOutcome(current: Option<Record>, data: Value, now: int, dec: Decoders): (r: Result<Record>)
    ensures r.Ok? <==> ParseTokenPayload(data).Ok? && ParseTokenPayload(data).value.refreshToken.Some?
    ensures r.Ok? ==> Get(data, StrKey("access_token")) == Some(Str(r.value.accessToken))
                      && Get(data, StrKey("refresh_token")) == Some(Str(r.value.refreshToken))
  {
    var p := ParseTokenPayload(data);
    if p.Err? then Err(p.error) else StorePayload(current, p.value, now, dec)
  }

  /** The outcome of `refreshToken` (`Ok(true)`, `Ok(false)` or a raised
      exception), the row afterwards and the requests sent. */
  datatype RefreshResult = RefreshResult(outcome: Result<bool>, row: Option<Record>, sent: seq<HttpRequest>)

  /** The payload `refreshToken` hands to `storeTokens`, read from the grant
      response: the access token must be a string; the account id is the new
      access token's, else the new id token's (read only when needed), else the
      stored one; the refresh token falls back to the stored one; the expiry is
      now plus `expires_in` (default 3600).  No id token is passed on. */
  function RefreshGrant(stored: Record, data: Value, now: int, dec: Decoders): (r: Result<TokenPayload>)
    ensures r.Ok? <==> (Get(data, StrKey("access_token")).Some? && Get(data, StrKey("access_token")).value.Str?
                        && (ExtractAccountId(Get(data, StrKey("access_token")).value.s, dec).None? ==> OptionalString(data, "id_token").Ok?)
                        && OptionalString(data, "refresh_token").Ok? && OptionalInt(data, "expires_in").Ok?)
    ensures r.Ok? ==> r.value.idToken.None? && r.value.expiresIn.None?
                      && Get(data, StrKey("access_token")) == Some(Str(r.value.accessToken))
                      && r.value.refreshToken == Some(OptionalString(data, "refresh_token").value.GetOr(stored.refreshToken))
                      && r.value.expiresAt == Some(now + OptionalInt(data, "expires_in").value.GetOr(DefaultExpiresIn))
    ensures r.Ok? ==> var fromAccess := ExtractAccountId(r.value.accessToken, dec);
                      (fromAccess.Some? ==> r.value.accountId == fromAccess)
                      && (fromAccess.None? ==> r.value.accountId == ExtractAccountId(OptionalString(data, "id_token").value.GetOr(""), dec).OrElse(stored.accountId))
  {
    var access := Get(data, StrKey("access_token"));
    if access.None? || !access.value.Str? then Err("type error: access_token")
    else
      var fromAccess := ExtractAccountId(access.value.s, dec);
      var idToken := OptionalString(data, "id_token");
      var refresh := OptionalString(data, "refresh_token");
      var expiresIn := OptionalInt(data, "expires_in");
      if fromAccess.None? && idToken.Err? then Err("type error: id_token")
      else if refresh.Err? || expiresIn.Err? then Err("type error")
      else
        var accountId := if fromAccess.Some? then fromAccess
                         else ExtractAccountId(idToken.value.GetOr(""), dec).OrElse(stored.accountId);
        Ok(TokenPayload(access.value.s, Some(refresh.value.GetOr(stored.refreshToken)), None, accountId, None,
                        Some(now + expiresIn.value.GetOr(DefaultExpiresIn))))
  }

  /** `refreshToken`. */
  function Refresh(current: Option<Record>, resp: HttpResponse, now: int, dec: Decoders): (r: RefreshResult)
    ensures current.None? ==> r == RefreshResult(Ok(false), None, [])
    ensures current.Some? ==> r.sent == [RefreshRequest(current.value.refreshToken)]
    ensures r.outcome != Ok(true) ==> r.row == current
    ensures r.outcome == Ok(false) <==> current.None? || Failed(resp)
    ensures r.outcome == Ok(true) <==> current.Some? && !Failed(resp) && RefreshGrant(current.value, resp.json, now, dec).Ok?
  {
    if current.None? then RefreshResult(Ok(false), None, [])
    else
      var sent := [RefreshRequest(current.value.refreshToken)];
      if Failed(resp) then RefreshResult(Ok(false), current, sent)
      else
        var p := RefreshGrant(current.value, resp.json, now, dec);
        if p.Err? then RefreshResult(Err(p.error), current, sent)
        else
          var stored := StorePayload(current, p.value, now, dec);
          RefreshResult(Ok(true), Some(stored.value), sent)
  }

  /** A failed refresh grant answers false and leaves the row as it was. */
  lemma RefreshFailureKeepsRow(current: Option<Record>, resp: HttpResponse, now: int, dec: Decoders)
    requires Failed(resp)
    ensures Refresh(current, resp, now, dec).outcome == Ok(false)
    ensures Refresh(current, resp, now, dec).row == current
  {
  }

  /** What a successful refresh stores: the grant's tokens and expiry, the
      account id it resolved, the e-mail of the new access token, and no id token. */
  lemma RefreshStores(current: Option<Record>, resp: HttpResponse, now: int, dec: Decoders)
    requires Refresh(current, resp, now, dec).outcome == Ok(true)
    ensures var p := RefreshGrant(current.value, resp.json, now, dec).value;
            var row := Refresh(current, resp, now, dec).row;
            row.Some?
            && row.value.accessToken == p.accessToken
            && row.value.refreshToken == p.refreshToken.value
            && row.value.accountId == p.accountId
            && row.value.expiresAt == p.expiresAt.value
            && row.value.email == ExtractEmail(p.accessToken, dec)
            && row.value.tokenData == Arr([])
  {
    var p := RefreshGrant(current.value, resp.json, now, dec).value;
    assert ExtractEmail("", dec) == None;
    CompleteUpdateDeterminesRow(current, TokensUpdate(p, now, dec));
  }

  /** The outcome of `getAccessToken`, the row afterwards and the requests sent. */
  datatype AccessResult = AccessResult(token: Result<Option<string>>, row: Option<Record>, sent: seq<HttpRequest>)

  /** `getAccessToken`: none without a row; the stored token while it is not
      expiring soon (60-second buffer); otherwise one refresh attempt, then none
      on failure or the newly stored token on success. */
  function AccessToken(current: Option<Record>, resp: HttpResponse, now: int, dec: Decoders): (r: AccessResult)
    ensures |r.sent| <= 1
    ensures r.token.Ok? && r.token.value.Some? ==> r.row.Some? && r.row.value.accessToken == r.token.value.value
    ensures (current.Some? && !IsExpiringSoon(current.value, now, DefaultBuffer))
              ==> r == AccessResult(Ok(Some(current.value.accessToken)), current, [])
    ensures r.sent != [] ==> current.Some? && IsExpiringSoon(current.value, now, DefaultBuffer)
    ensures current.None? ==> r == AccessResult(Ok(None), None, [])
    ensures current.Some? && IsExpiringSoon(current.value, now, DefaultBuffer) ==>
              var f := Refresh(current, resp, now, dec);
              r.sent == [RefreshRequest(current.value.refreshToken)] && r.row == f.row
              && (f.outcome.Err? ==> r.token == Err(f.outcome.error))
              && (f.outcome == Ok(false) ==> r.token == Ok(None) && r.row == current)
              && (f.outcome == Ok(true) ==> r.token == Ok(Some(f.row.value.accessToken)))
  {
    if current.None? then AccessResult(Ok(None), current, [])
    else if !IsExpiringSoon(current.value, now, DefaultBuffer) then AccessResult(Ok(Some(current.value.accessToken)), current, [])
    else
      var refreshed := Refresh(current, resp, now, dec);
      match refreshed.outcome
      case Err(e) => AccessResult(Err(e), refreshed.row, refreshed.sent)
      case Ok(ok) =>
        if !ok then AccessResult(Ok(None), refreshed.row, refreshed.sent)
        else AccessResult(Ok(Some(refreshed.row.value.accessToken)), refreshed.row, refreshed.sent)
  }

  /** A token handed out is not expiring soon, provided the issuer grants at
      least the 60-second buffer when it refreshes. */
  lemma HandedOutTokenIsFresh(current: Option<Record>, resp: HttpResponse, now: int, dec: Decoders)
    requires OptionalInt(resp.json, "expires_in").Ok? ==> OptionalInt(resp.json, "expires_in").value.GetOr(DefaultExpiresIn) > DefaultBuffer
    requires AccessToken(current, resp, now, dec).token.Ok? && AccessToken(current, resp, now, dec).token.value.Some?
    ensures var r := AccessToken(current, resp, now, dec);
            !IsExpiringSoon(r.row.value, now, DefaultBuffer) && !IsExpired(r.row.value, now)
  {
    if current.Some? && IsExpiringSoon(current.value, now, DefaultBuffer) {
      RefreshStores(current, resp, now, dec);
    }
  }

  /** When the refresh fails, no stale token is handed out. */
  lemma NoStaleToken(current: Option<Record>, resp: HttpResponse, now: int, dec: Decoders)
    requires current.Some? && IsExpiringSoon(current.value, now, DefaultBuffer) && Failed(resp)
    ensures AccessToken(current, resp, now, dec) == AccessResult(Ok(None), current, [RefreshRequest(current.value.refreshToken)])
  {
  }

  /** The lifecycle service over the token table. */
  class Service {
    const store: Store

    constructor (store: Store)
      ensures this.store == store
    {
      this.store := store;
    }

    /** `isConfigured`: a row exists, whatever its expiry. */
    function IsConfigured(): (b: bool)
      reads store
      requires store.Valid()
      ensures b <==> store.rows != []
    {
      store.Current().Some?
    }

    /** `getAccountId`: the stored account id, or none. */
    function AccountId(): (a: Option<string>)
      reads store
      requires store.Valid()
      ensures a.Some? ==> store.rows != [] && store.rows[0].accountId == a
      ensures store.rows != [] ==> a == store.rows[0].accountId
    {
      if store.Current().Some? then store.Current().value.accountId else None
    }

    /** `storeTokens` on a parsed payload. */
    method StoreTokenPayload(p: TokenPayload, now: int, dec: Decoders) returns (r: Result<()>)
      requires store.Valid()
      modifies store
      ensures store.Valid()
      ensures var want := StorePayload(old(store.Current()), p, now, dec);
              (r.Ok? <==> want.Ok?) && (want.Ok? ==> store.Current() == Some(want.value))
              && (want.Err? ==> store.rows == old(store.rows))
    {
      if p.refreshToken.None? {
        return Err("database error: refresh_token is required");
      }
      var ok := store.Store(TokensUpdate(p, now, dec));
      r := Ok(());
    }

    /** `storeTokens($data)`. */
    method StoreTokens(data: Value, now: int, dec: Decoders) returns (r: Result<()>)
      requires store.Valid()
      modifies store
      ensures store.Valid()
      ensures var want := StoreTokensOutcome(old(store.Current()), data, now, dec);
              (r.Ok? <==> want.Ok?) && (want.Ok? ==> store.Current() == Some(want.value))
              && (want.Err? ==> store.rows == old(store.rows))
    {
      var p := ParseTokenPayload(data);
      if p.Err? {
        return Err(p.error);
      }
      r := StoreTokenPayload(p.value, now, dec);
    }

    /** `refreshToken`, reading the row, posting the grant and storing the result. */
    method RefreshToken(resp: HttpResponse, now: int, dec: Decoders) returns (outcome: Result<bool>, sent: seq<HttpRequest>)
      requires store.Valid()
      modifies store
      ensures store.Valid()
      ensures RefreshResult(outcome, store.Current(), sent) == Refresh(old(store.Current()), resp, now, dec)
    {
      var stored := store.Current();
      if stored.None? {
        return Ok(false), [];
      }
      sent := [RefreshRequest(stored.value.refreshToken)];
      if Failed(resp) {
        return Ok(false), sent;
      }
      var p := RefreshGrant(stored.value, resp.json, now, dec);
      if p.Err? {
        return Err(p.error), sent;
      }
      var stored' := StoreTokenPayload(p.value, now, dec);
      outcome := Ok(true);
    }

    /** `getAccessToken`, re-reading the row after a successful refresh. */
    method GetAccessToken(resp: HttpResponse, now: int, dec: Decoders) returns (token: Result<Option<string>>, sent: seq<HttpRequest>)
      requires store.Valid()
      modifies store
      ensures store.Valid()
      ensures AccessResult(token, store.Current(), sent) == AccessToken(old(store.Current()), resp, now, dec)
    {
      var stored := store.Current();
      if stored.None? {
        return Ok(None), [];
      }
      if IsExpiringSoon(stored.value, now, DefaultBuffer) {
        var refreshed;
        refreshed, sent := RefreshToken(resp, now, dec);
        if refreshed.Err? {
          return Err(refreshed.error), sent;
        }
        if !refreshed.value {
          return Ok(None), sent;
        }
        stored := store.Current();
      } else {
        sent := [];
      }
      token := Ok(Some(stored.value.accessToken));
    }
  }
}
