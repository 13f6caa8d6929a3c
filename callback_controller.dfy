/**
 * The web callback of src/Http/Controllers/CodexCallbackController.php.
 * `redirect` starts a browser login: it keeps the PKCE verifier, the callback
 * URI and the page to return to in the cache under the state, for five
 * minutes.  `handle` receives the identity provider's redirect: it checks the
 * query, takes the cached entry out of the cache (so a state is good for one
 * callback only), exchanges the code and stores the tokens.  The cache is a
 * map from keys to items; expiry by time is left out.
 */
module CallbackController {
  import opened Wrappers
  import opened PhpArray
  import opened Strings
  import opened Jwt
  import opened Pkce
  import opened TokenStore
  import opened OAuthService

  const StatePrefix := "codex-oauth-state:"
  const StateTtlSeconds := 300

  datatype CacheItem = CacheItem(value: Value, ttlSeconds: int)

  type Cache = map<string, CacheItem>

  /** The controller's answer: a JSON response, a redirect, or an exception
      raised outside the controller's `try` (left to the framework). */
  datatype Reply = Json(status: int, body: Entries) | Redirect(target: Value) | Uncaught(message: string)

  /** `$request->query($k, $default)`. */
  function QueryOr(query: Entries, k: string, default: Value): Value {
    Lookup(query, StrKey(k)).GetOr(default)
  }

  /** PHP's string conversion, as in `"codex-oauth-state:{$state}"`.  An array
      converts to `Array` with a warning, which the framework raises as an
      exception; `handle` checks for that before building the key. */
  function PhpString(v: Value): string {
    match v
    case Null => ""
    case Bool(b) => if b then "1" else ""
    case Int(i) => IntToString(i)
    case Str(s) => s
    case Arr(_) => "Array"
  }

  function StateKey(state: Value): string {
    StatePrefix + PhpString(state)
  }

  function JsonError(status: int, error: string): Reply {
    Json(status, [(StrKey("error"), Str(error))])
  }

  const MissingParameters := "Missing state or code parameter"
  const InvalidState := "Invalid or expired state parameter"
  const TokenExchangeFailed := "token_exchange_failed"
  /** The `TypeError` the URL generator raises when `redirect` is given an
      array, which it passes on to `preg_match`. */
  const RedirectToArray := "preg_match(): Argument #2 ($subject) must be of type string, array given"

  datatype HandleResult = HandleResult(reply: Reply, cache: Cache, row: Option<Record>, sent: seq<HttpRequest>)

  /** The verifier of a cached entry, null when missing. */
  function CachedVerifier(cached: Value): Value {
    Coalesce(Get(cached, StrKey("verifier")), Null)
  }

  /** The callback URI of a cached entry, the callback route when missing. */
  function CachedRedirectUri(cached: Value, callbackRoute: string): Value {
    Coalesce(Get(cached, StrKey("redirect_uri")), Str(callbackRoute))
  }

  function ExchangeFailure(description: string): Reply {
    Json(500, [(StrKey("error"), Str(TokenExchangeFailed)), (StrKey("description"), Str(description))])
  }

  /** The return URL of a cached entry, `/` when missing. */
  function CachedReturnUrl(cached: Value): Value {
    Coalesce(Get(cached, StrKey("return_url")), Str("/"))
  }

  /** The exchange and store, once the cached entry is in hand: a code,
      verifier or redirect URI that is not a string raises (strict types), as
      does a failing exchange or store, and an array return URL once the
      tokens are stored; every exception becomes a 500. */
  function ExchangeAndStore(code: Value, cached: Value, row: Option<Record>, exchangeResp: HttpResponse,
                            callbackRoute: string, now: int, dec: Decoders): (r: (Reply, Option<Record>, seq<HttpRequest>))
    ensures r.0.Redirect? || r.0.Json?
    ensures var verifier, redirectUri := CachedVerifier(cached), CachedRedirectUri(cached, callbackRoute);
            var strings := code.Str? && verifier.Str? && redirectUri.Str?;
            var stored := strings && ExchangeCode(code.s, verifier.s, redirectUri.s, exchangeResp).Ok?
                          && StoreTokensOutcome(row, ExchangeCode(code.s, verifier.s, redirectUri.s, exchangeResp).value, now, dec).Ok?;
            (strings ==> r.2 == [ExchangeRequest(code.s, verifier.s, redirectUri.s)])
            && (!strings ==> r.2 == [])
            && (stored ==> r.1 == Some(StoreTokensOutcome(row, ExchangeCode(code.s, verifier.s, redirectUri.s, exchangeResp).value, now, dec).value))
            && (!stored ==> r.1 == row)
            && (r.0.Redirect? <==> stored && !CachedReturnUrl(cached).Arr?)
            && (stored && CachedReturnUrl(cached).Arr? ==> r.0 == ExchangeFailure(RedirectToArray))
    ensures r.0.Redirect? ==> r.0.target == CachedReturnUrl(cached)
    ensures r.0.Json? ==> r.0.status == 500 && Lookup(r.0.body, StrKey("error")) == Some(Str(TokenExchangeFailed))
  {
    var redirectUri := CachedRedirectUri(cached, callbackRoute);
    var verifier := CachedVerifier(cached);
    if !code.Str? || !verifier.Str? || !redirectUri.Str? then (ExchangeFailure("type error"), row, [])
    else
      var sent := [ExchangeRequest(code.s, verifier.s, redirectUri.s)];
      var tokens := ExchangeCode(code.s, verifier.s, redirectUri.s, exchangeResp);
      if tokens.Err? then (ExchangeFailure(tokens.error), row, sent)
      else
        var stored := StoreTokensOutcome(row, tokens.value, now, dec);
        if stored.Err? then (ExchangeFailure(stored.error), row, sent)
        else if CachedReturnUrl(cached).Arr? then (ExchangeFailure(RedirectToArray), Some(stored.value), sent)
        else (Redirect(CachedReturnUrl(cached)), Some(stored.value), sent)
  }

  /** The cached entry for a key, null when there is none. */
  function CachedEntry(cache: Cache, key: string): Value {
    if key in cache then cache[key].value else Null
  }

  /** `handle`: an `error` parameter is answered first, then missing
      parameters, both without touching the cache; an array state raises when
      the cache key is built; then the entry for the state is pulled (read and
      removed) and must be present, and the exchange and store run on it. */
  function Handle(cache: Cache, row: Option<Record>, query: Entries, exchangeResp: HttpResponse,
                  callbackRoute: string, now: int, dec: Decoders): (r: HandleResult)
    ensures (Truthy(QueryOr(query, "error", Null)))
              ==> (r.reply == Json(400, [(StrKey("error"), QueryOr(query, "error", Null)),
                                         (StrKey("description"), QueryOr(query, "error_description", Str("Authentication failed")))])
                   && r.cache == cache && r.row == row && r.sent == [])
    ensures (!Truthy(QueryOr(query, "error", Null))
             && (!Truthy(QueryOr(query, "state", Null)) || !Truthy(QueryOr(query, "code", Null))))
              ==> r == HandleResult(JsonError(400, MissingParameters), cache, row, [])
    ensures (!Truthy(QueryOr(query, "error", Null))
             && Truthy(QueryOr(query, "state", Null)) && Truthy(QueryOr(query, "code", Null))
             && QueryOr(query, "state", Null).Arr?)
              ==> r == HandleResult(Uncaught(ArrayToString), cache, row, [])
    ensures (!Truthy(QueryOr(query, "error", Null))
             && Truthy(QueryOr(query, "state", Null)) && Truthy(QueryOr(query, "code", Null))
             && !QueryOr(query, "state", Null).Arr?) ==>
              var key := StateKey(QueryOr(query, "state", Null));
              var cached := CachedEntry(cache, key);
              var x := ExchangeAndStore(QueryOr(query, "code", Null), cached, row, exchangeResp, callbackRoute, now, dec);
              (!Truthy(cached) ==> r == HandleResult(JsonError(400, InvalidState), cache - {key}, row, []))
              && (Truthy(cached) ==> r == HandleResult(x.0, cache - {key}, x.1, x.2))
    ensures r.cache == cache || r.cache == cache - {StateKey(QueryOr(query, "state", Null))}
    ensures r.sent != [] ==> StateKey(QueryOr(query, "state", Null)) in cache && r.cache == cache - {StateKey(QueryOr(query, "state", Null))}
    ensures r.row != row ==> r.sent != [] && (r.reply.Redirect? || r.reply == ExchangeFailure(RedirectToArray))
  {
    var error := QueryOr(query, "error", Null);
    var state := QueryOr(query, "state", Null);
    var code := QueryOr(query, "code", Null);
    if Truthy(error) then
      HandleResult(Json(400, [(StrKey("error"), error),
                              (StrKey("description"), QueryOr(query, "error_description", Str("Authentication failed")))]),
                   cache, row, [])
    else if !Truthy(state) || !Truthy(code) then HandleResult(JsonError(400, MissingParameters), cache, row, [])
    else if state.Arr? then HandleResult(Uncaught(ArrayToString), cache, row, [])
    else
      var key := StateKey(state);
      var cached := CachedEntry(cache, key);
      var cache' := cache - {key};
      if !Truthy(cached) then HandleResult(JsonError(400, InvalidState), cache', row, [])
      else
        var (reply, row', sent) := ExchangeAndStore(code, cached, row, exchangeResp, callbackRoute, now, dec);
        HandleResult(reply, cache', row', sent)
  }

  /** A state is good for one callback: whatever the first callback's outcome,
      a second one with the same state is refused. */
  lemma StateIsSingleUse(cache: Cache, row: Option<Record>, query: Entries, resp1: HttpResponse, resp2: HttpResponse,
                         callbackRoute: string, now: int, dec: Decoders)
    requires !Truthy(QueryOr(query, "error", Null))
    requires Truthy(QueryOr(query, "state", Null)) && Truthy(QueryOr(query, "code", Null))
    requires !QueryOr(query, "state", Null).Arr?
    ensures var first := Handle(cache, row, query, resp1, callbackRoute, now, dec);
            var second := Handle(first.cache, first.row, query, resp2, callbackRoute, now, dec);
            second == HandleResult(JsonError(400, InvalidState), first.cache, first.row, [])
  {
  }

  /** The entry `redirect` caches for a login. */
  function StateEntry(verifier: string, redirectUri: string, query: Entries): (v: Value)
    ensures Get(v, StrKey("verifier")) == Some(Str(verifier))
    ensures Get(v, StrKey("redirect_uri")) == Some(Str(redirectUri))
    ensures Get(v, StrKey("return_url")) == Some(QueryOr(query, "return_url", Str("/")))
  {
    var e := [(StrKey("verifier"), Str(verifier)), (StrKey("redirect_uri"), Str(redirectUri)),
              (StrKey("return_url"), QueryOr(query, "return_url", Str("/")))];
    LookupDistinct(e, 1);
    LookupDistinct(e, 2);
    Arr(e)
  }

  /** `redirect`, given the PKCE material and the random state: the cache
      gains the entry for five minutes and the browser is sent to the
      authorization URL. */
  function StartLogin(cache: Cache, pkce: PkceMaterial, state: string, callbackRoute: string, query: Entries,
                      urlencode: string -> string): (r: (Cache, string))
    ensures r.0 == cache[StatePrefix + state := CacheItem(StateEntry(pkce.verifier, callbackRoute, query), StateTtlSeconds)]
    ensures r.1 == BuildAuthorizationUrl(pkce.challenge, state, callbackRoute, urlencode)
  {
    (cache[StatePrefix + state := CacheItem(StateEntry(pkce.verifier, callbackRoute, query), StateTtlSeconds)],
     BuildAuthorizationUrl(pkce.challenge, state, callbackRoute, urlencode))
  }

  /** A login started by `redirect` and completed by its callback exchanges
      the code with the cached verifier and callback URI, and on success
      returns the user to the page they came from. */
  lemma RedirectThenCallback(cache: Cache, row: Option<Record>, pkce: PkceMaterial, state: string, code: string,
                             callbackRoute: string, startQuery: Entries, query: Entries, urlencode: string -> string,
                             exchangeResp: HttpResponse, now: int, dec: Decoders)
    requires Truthy(Str(state)) && Truthy(Str(code))
    requires QueryOr(query, "state", Null) == Str(state) && QueryOr(query, "code", Null) == Str(code)
    requires !Truthy(QueryOr(query, "error", Null))
    ensures var started := StartLogin(cache, pkce, state, callbackRoute, startQuery, urlencode).0;
            var r := Handle(started, row, query, exchangeResp, callbackRoute, now, dec);
            var tokens := ExchangeCode(code, pkce.verifier, callbackRoute, exchangeResp);
            var stored := tokens.Ok? && StoreTokensOutcome(row, tokens.value, now, dec).Ok?;
            var target := Coalesce(Lookup(startQuery, StrKey("return_url")), Str("/"));
            r.sent == [ExchangeRequest(code, pkce.verifier, callbackRoute)]
            && r.cache == cache - {StatePrefix + state}
            && (stored ==> r.row == Some(StoreTokensOutcome(row, tokens.value, now, dec).value))
            && (r.reply.Redirect? <==> stored && !target.Arr?)
            && (r.reply.Redirect? ==> r.reply.target == target)
            && (stored && target.Arr? ==> r.reply == ExchangeFailure(RedirectToArray))
            && (!stored ==> r.reply == ExchangeFailure(if tokens.Err? then tokens.error
                                                       else StoreTokensOutcome(row, tokens.value, now, dec).error)
                            && r.row == row)
  {
    var started := StartLogin(cache, pkce, state, callbackRoute, startQuery, urlencode).0;
    var entry := StateEntry(pkce.verifier, callbackRoute, startQuery);
    var key := StatePrefix + state;
    assert StateKey(QueryOr(query, "state", Null)) == key;
    assert CachedEntry(started, key) == entry && Truthy(entry);
    assert started - {key} == cache - {key};
    var x := ExchangeAndStore(Str(code), entry, row, exchangeResp, callbackRoute, now, dec);
    assert Handle(started, row, query, exchangeResp, callbackRoute, now, dec) == HandleResult(x.0, cache - {key}, x.1, x.2);
    ExchangeOnEntry(code, pkce.verifier, callbackRoute, startQuery, row, exchangeResp, now, dec);
  }

  /** The exchange and store on an entry `redirect` cached. */
  lemma ExchangeOnEntry(code: string, verifier: string, callbackRoute: string, startQuery: Entries,
                        row: Option<Record>, exchangeResp: HttpResponse, now: int, dec: Decoders)
    ensures var x := ExchangeAndStore(Str(code), StateEntry(verifier, callbackRoute, startQuery), row, exchangeResp, callbackRoute, now, dec);
            var tokens := ExchangeCode(code, verifier, callbackRoute, exchangeResp);
            var stored := tokens.Ok? && StoreTokensOutcome(row, tokens.value, now, dec).Ok?;
            var target := Coalesce(Lookup(startQuery, StrKey("return_url")), Str("/"));
            x.2 == [ExchangeRequest(code, verifier, callbackRoute)]
            && (stored ==> x.1 == Some(StoreTokensOutcome(row, tokens.value, now, dec).value))
            && (x.0.Redirect? <==> stored && !target.Arr?)
            && (x.0.Redirect? ==> x.0.target == target)
            && (stored && target.Arr? ==> x.0 == ExchangeFailure(RedirectToArray))
            && (!stored ==> x.0 == ExchangeFailure(if tokens.Err? then tokens.error
                                                   else StoreTokensOutcome(row, tokens.value, now, dec).error)
                            && x.1 == row)
  {
    var entry := StateEntry(verifier, callbackRoute, startQuery);
    assert CachedVerifier(entry) == Str(verifier);
    assert CachedRedirectUri(entry, callbackRoute) == Str(callbackRoute);
    assert CachedReturnUrl(entry) == Coalesce(Lookup(startQuery, StrKey("return_url")), Str("/"));
  }

  /** The controller and the cache it writes to. */
  class Controller {
    var cache: Cache
    const service: Service

    constructor (cache: Cache, service: Service)
      ensures this.cache == cache && this.service == service
    {
      this.cache := cache;
      this.service := service;
    }

    /** `handle`, pulling the cache entry and writing the tokens. */
    method HandleCallback(query: Entries, exchangeResp: HttpResponse, callbackRoute: string, now: int, dec: Decoders)
      returns (reply: Reply, sent: seq<HttpRequest>)
      requires service.store.Valid()
      modifies this, service.store
      ensures service.store.Valid()
      ensures HandleResult(reply, cache, service.store.Current(), sent)
              == Handle(old(cache), old(service.store.Current()), query, exchangeResp, callbackRoute, now, dec)
    {
      var error := QueryOr(query, "error", Null);
      var state := QueryOr(query, "state", Null);
      var code := QueryOr(query, "code", Null);
      if Truthy(error) {
        return Json(400, [(StrKey("error"), error),
                          (StrKey("description"), QueryOr(query, "error_description", Str("Authentication failed")))]), [];
      }
      if !Truthy(state) || !Truthy(code) {
        return JsonError(400, MissingParameters), [];
      }
      if state.Arr? {
        return Uncaught(ArrayToString), [];
      }
      var key := StateKey(state);
      var cached := CachedEntry(cache, key);
      cache := cache - {key};
      if !Truthy(cached) {
        return JsonError(400, InvalidState), [];
      }
      var row := service.store.Current();
      var (r, row', s) := ExchangeAndStore(code, cached, row, exchangeResp, callbackRoute, now, dec);
      reply, sent := r, s;
      var verifier, redirectUri := CachedVerifier(cached), CachedRedirectUri(cached, callbackRoute);
      if code.Str? && verifier.Str? && redirectUri.Str? {
        var tokens := ExchangeCode(code.s, verifier.s, redirectUri.s, exchangeResp);
        if tokens.Ok? {
          var stored := service.StoreTokens(tokens.value, now, dec);
        }
      }
    }

    /** `redirect`. */
    method RedirectToLogin(pkce: PkceMaterial, state: string, callbackRoute: string, query: Entries, urlencode: string -> string)
      returns (authUrl: string)
      modifies this
      ensures (cache, authUrl) == StartLogin(old(cache), pkce, state, callbackRoute, query, urlencode)
    {
      cache := cache[StatePrefix + state := CacheItem(StateEntry(pkce.verifier, callbackRoute, query), StateTtlSeconds)];
      authUrl := BuildAuthorizationUrl(pkce.challenge, state, callbackRoute, urlencode);
    }
  }
}
