/**
 * The provider glue of src/Codex.php: how the HTTP client for the upstream
 * API is authorised, and how an upstream error response becomes the
 * provider's error.  The token service is the one of `OAuthService`; the
 * JSON encoder is a parameter.
 */
module Provider {
  import opened Wrappers
  import opened PhpArray
  import opened Strings
  import opened Jwt
  import opened TokenStore
  import opened OAuthService

  const DefaultUrl := "https://chatgpt.com/backend-api/codex"
  const NotAuthenticated := "Codex not authenticated. Run: php artisan codex:login"
  const AccountHeader := "ChatGPT-Account-Id"

  /** What `client` configures: the extra headers, the bearer token and the base URL. */
  datatype ClientConfig = ClientConfig(headers: seq<(string, string)>, bearer: string, baseUrl: string)

  /** `client` once the token and the stored account id are known: no usable
      token raises; the account header takes the constructor's account id
      unless that is null, then the stored one, and is left out when the
      chosen value is falsy (`array_filter`). */
  function ClientFor(token: Option<string>, ctorAccountId: Option<string>, storedAccountId: Option<string>,
                     baseUrl: Option<string>, url: string): (r: Result<ClientConfig>)
    ensures r.Err? <==> token.None? || !Truthy(Str(token.value))
    ensures r.Err? ==> r.error == NotAuthenticated
    ensures r.Ok? ==> r.value.bearer == token.value && r.value.baseUrl == baseUrl.GetOr(url)
    ensures r.Ok? ==> |r.value.headers| <= 1
    ensures (r.Ok? && r.value.headers != [])
              ==> (r.value.headers[0].0 == AccountHeader && Truthy(Str(r.value.headers[0].1))
                   && ctorAccountId.OrElse(storedAccountId) == Some(r.value.headers[0].1))
    ensures (r.Ok? && r.value.headers == [])
              ==> (ctorAccountId.OrElse(storedAccountId).None? || !Truthy(Str(ctorAccountId.OrElse(storedAccountId).value)))
  {
    if token.None? || !Truthy(Str(token.value)) then Err(NotAuthenticated)
    else
      var chosen := ctorAccountId.OrElse(storedAccountId);
      var headers := if chosen.Some? && Truthy(Str(chosen.value)) then [(AccountHeader, chosen.value)] else [];
      Ok(ClientConfig(headers, token.value, baseUrl.GetOr(url)))
  }

  /** The constructor's account id wins over the stored one. */
  lemma ConstructorAccountWins(token: string, ctor: string, stored: Option<string>, baseUrl: Option<string>, url: string)
    requires Truthy(Str(token)) && Truthy(Str(ctor))
    ensures ClientFor(Some(token), Some(ctor), stored, baseUrl, url).value.headers == [(AccountHeader, ctor)]
  {
  }

  /** Without a constructor account id the stored one is sent, when non-empty. */
  lemma StoredAccountUsed(token: string, stored: string, baseUrl: Option<string>, url: string)
    requires Truthy(Str(token)) && Truthy(Str(stored))
    ensures ClientFor(Some(token), None, Some(stored), baseUrl, url).value.headers == [(AccountHeader, stored)]
  {
  }

  /** An empty constructor account id is not null, so it hides the stored one
      and no header is sent at all. */
  lemma EmptyConstructorAccountHidesStored(token: string, stored: Option<string>, baseUrl: Option<string>, url: string)
    requires Truthy(Str(token))
    ensures ClientFor(Some(token), Some(""), stored, baseUrl, url).value.headers == []
  {
  }

  /** The provider, holding the token service and its constructor arguments. */
  class CodexProvider {
    const service: Service
    const url: string
    const accountId: Option<string>

    constructor (service: Service, url: string, accountId: Option<string>)
      ensures this.service == service && this.url == url && this.accountId == accountId
    {
      this.service := service;
      this.url := url;
      this.accountId := accountId;
    }

    /** `client`: get a token (refreshing when needed), then read the stored
        account id only when the constructor gave none. */
    method Client(resp: HttpResponse, now: int, dec: Decoders, baseUrl: Option<string>)
      returns (r: Result<ClientConfig>, sent: seq<HttpRequest>)
      requires service.store.Valid()
      modifies service.store
      ensures service.store.Valid()
      ensures var want := AccessToken(old(service.store.Current()), resp, now, dec);
              sent == want.sent && service.store.Current() == want.row
              && (want.token.Err? ==> r == Err(want.token.error))
              && (want.token.Ok? ==> r == ClientFor(want.token.value, accountId,
                                                    if want.row.Some? then want.row.value.accountId else None,
                                                    baseUrl, url))
    {
      var token;
      token, sent := service.GetAccessToken(resp, now, dec);
      if token.Err? {
        return Err(token.error), sent;
      }
      if token.value.None? || !Truthy(Str(token.value.value)) {
        return Err(NotAuthenticated), sent;
      }
      var stored := if accountId.Some? then None else service.AccountId();
      r := ClientFor(token.value, accountId, stored, baseUrl, url);
    }
  }

  /** `data_get($data, 'a.b')`: null when any step is missing. */
  function DataGet(v: Value, path: seq<string>): (r: Value)
    ensures path == [] ==> r == v
    ensures |path| == 1 ==> r == Coalesce(Get(v, StrKey(path[0])), Null)
    decreases |path|
  {
    if path == [] then v else DataGet(Coalesce(Get(v, StrKey(path[0])), Null), path[1..])
  }

  /** `Str::limit($s, n)` with the default end `...`: the text itself when it
      fits, else its first n characters, right-trimmed, and `...`. */
  function Limit(s: string, n: nat): (r: string)
    ensures |s| <= n ==> r == s
    ensures |s| > n ==> 3 <= |r| <= n + 3 && r[|r| - 3..] == "..." && r[..|r| - 3] == TrimRight(s[..n])
  {
    if |s| <= n then s else TrimRight(s[..n]) + "..."
  }

  /** The provider error raised for an upstream error response, and the body
      logged with it. */
  datatype ProviderError = ProviderError(statusCode: int, errorType: Value, message: Value, loggedBody: string)

  const LoggedBodyLimit := 2000

  /** Where `handleResponseErrors` looks for a message, in order. */
  const MessagePaths: seq<seq<string>> := [["error", "message"], ["detail"], ["message"]]

  /** A message as sent: an array is JSON-encoded, anything else kept. */
  function Encoded(message: Value, encode: Value -> string): (r: Value)
    ensures message.Arr? ==> r == Str(encode(message))
    ensures !message.Arr? ==> r == message
  {
    if message.Arr? then Str(encode(message)) else message
  }

  /** `handleResponseErrors`: the decoded body (an empty array when it is not
      JSON) is searched for a message at `error.message`, then `detail`, then
      `message`, falling back to the raw body; an array message is encoded.
      The type is `error.type`, else `error_code`; the body is logged cut to
      2000 characters. */
  function HandleResponseErrors(status: int, body: string, json: Value, encode: Value -> string): (e: ProviderError)
    ensures e.statusCode == status
    ensures e.loggedBody == Limit(body, LoggedBodyLimit)
    ensures |e.loggedBody| <= LoggedBodyLimit + 3
    ensures e.message != Null && !e.message.Arr?
    ensures json == Null ==> e.errorType == Null && e.message == Str(body)
    ensures json != Null && DataGet(json, ["error", "type"]) != Null ==> e.errorType == DataGet(json, ["error", "type"])
  {
    var data := if json == Null then Arr([]) else json;
    var candidates := [DataGet(data, MessagePaths[0]), DataGet(data, MessagePaths[1]), DataGet(data, MessagePaths[2])];
    var message := FirstNonNull(candidates, Str(body));
    var errorType := FirstNonNull([DataGet(data, ["error", "type"]), DataGet(data, ["error_code"])], Null);
    ProviderError(status, errorType, Encoded(message, encode), Limit(body, LoggedBodyLimit))
  }

  /** `a ?? b ?? ... ?? last`. */
  function FirstNonNull(vs: seq<Value>, last: Value): (r: Value)
    ensures (exists i :: 0 <= i < |vs| && vs[i] != Null) ==> r != Null
    ensures (forall i :: 0 <= i < |vs| ==> vs[i] == Null) ==> r == last
    ensures r == last || r in vs
    ensures forall i :: 0 <= i < |vs| && vs[i] != Null ==> (r == vs[i] || exists j :: 0 <= j < i && r == vs[j])
  {
    if vs == [] then last
    else if vs[0] != Null then vs[0]
    else
      var r := FirstNonNull(vs[1..], last);
      assert forall i :: 1 <= i < |vs| ==> vs[i] == vs[1..][i - 1];
      r
  }

  /** `??` takes the first non-null operand. */
  lemma {:induction false} FirstNonNullPicks(vs: seq<Value>, last: Value, i: nat)
    requires i < |vs| && vs[i] != Null
    requires forall j :: 0 <= j < i ==> vs[j] == Null
    ensures FirstNonNull(vs, last) == vs[i]
  {
    if i > 0 {
      FirstNonNullPicks(vs[1..], last, i - 1);
    }
  }

  /** The message comes from the first of `error.message`, `detail` and
      `message` that is set, encoded when it is an array. */
  lemma MessageLevel(status: int, body: string, json: Value, encode: Value -> string, i: nat)
    requires json != Null && i < |MessagePaths|
    requires forall j :: 0 <= j < i ==> DataGet(json, MessagePaths[j]) == Null
    requires DataGet(json, MessagePaths[i]) != Null
    ensures HandleResponseErrors(status, body, json, encode).message == Encoded(DataGet(json, MessagePaths[i]), encode)
  {
    var candidates := [DataGet(json, MessagePaths[0]), DataGet(json, MessagePaths[1]), DataGet(json, MessagePaths[2])];
    FirstNonNullPicks(candidates, Str(body), i);
  }

  /** A body that carries no message anywhere is itself the message. */
  lemma RawBodyLast(status: int, body: string, json: Value, encode: Value -> string)
    requires json == Null || (DataGet(json, ["error", "message"]) == Null && DataGet(json, ["detail"]) == Null
                              && DataGet(json, ["message"]) == Null)
    ensures HandleResponseErrors(status, body, json, encode).message == Str(body)
  {
    var data := if json == Null then Arr([]) else json;
    assert DataGet(data, MessagePaths[0]) == Null;
  }

  /** The error type falls back from `error.type` to `error_code`. */
  lemma ErrorTypeFallback(status: int, body: string, json: Value, encode: Value -> string)
    requires json != Null && DataGet(json, ["error", "type"]) == Null
    ensures HandleResponseErrors(status, body, json, encode).errorType == DataGet(json, ["error_code"])
  {
    var v := DataGet(json, ["error_code"]);
    assert [DataGet(json, ["error", "type"]), v][1..] == [v];
    assert FirstNonNull([v], Null) == v;
  }
}
