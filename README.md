# prism-codex, modelled in Dafny

prism-codex is a Prism (Laravel) provider that reaches OpenAI's Codex backend
with a ChatGPT subscription instead of an API key. This project models its
core and proves properties of the model:

- **OAuth token lifecycle** (`OAuthService`, `Jwt`, `Pkce`, `Base64Url`). This covers
  - PKCE material (section 4.2 of RFC 7636) and the authorization URL;
  - the authorization-code exchange and the device authorization poll;
  - the refresh-token grant (section 6 of RFC 6749);
  - `storeTokens` and `getAccessToken`, with its 60-second expiry buffer;
  - the unverified JWT claim reader with its three-level account-id priority.
- **Single-row token table** (`TokenStore`). `store` updates the row or creates one. `clear` deletes it.
- **Tool-schema sanitiser** (`SchemaSanitizer`). Every bare `array` schema gets the default `items: {type: string}`, recursively.
- **Request body and text handler** (`RequestBody`, `CodexText`, `CodexStream`). The system prompts become the top-level `instructions`, streaming is always requested and storage is always refused. For the text handler, the buffered Server-Sent Events body is scanned for the last `response.completed` event.
- **Provider glue** (`Provider`). This is the authorised HTTP client, with its account header, and the translation of upstream error bodies.
- **`codex:login` command** (`LoginCommand`). The device flow polls a bounded number of times; the browser flow reads a single callback request.
- **Web callback controller** (`CallbackController`). This is the state cache, which is single-use, the exchange and the redirect back.

PHP semantics are written out once in `PhpArray`. The framework raises PHP's warnings as exceptions, so an array used as a string raises, as does a missing array key read without `??`.
- arrays are ordered maps;
- truthiness, `isset` and `??`;
- `Arr::whereNotNull`;
- `array_merge`, where a later string key replaces the value of an earlier one in place and integer keys are renumbered.

The string functions the core uses are in `Strings`.

The following are function-typed parameters:
- foreign functions: base64, JSON, SHA-256, `urlencode`, `parse_str`;
- responses of the identity provider and the upstream API;
- the clock;
- random values.

Each operation that talks to the identity provider returns the requests it sends as a log, so statements such as "no request" and "exactly one exchange" can be made about it. PHP exceptions are `Result.Err`. State the source changes in place is held in classes:
- the token table: `TokenStore.Store`;
- the cache of the callback controller: `CallbackController.Controller`.

Their methods are proved equal to pure functions, and the properties are proved about those functions.

Four behaviours of the source are easy to miss. The model keeps them:
- `refreshToken` takes the account id from the new access token, then the new id token, then the stored row. It never reads an `account_id` field of the grant response (src/CodexOAuthService.php:145-147).
- `refreshToken` passes no id token to `storeTokens` (src/CodexOAuthService.php:149-154). On refresh, the e-mail therefore comes from the new access token alone, and `token_data` is emptied (src/CodexOAuthService.php:207-218).
- `client` uses the constructor's account id whenever it is not null. An empty one hides the stored id, and `array_filter` then drops the header (src/Codex.php:49-51).
- `tools` is sent even when the sanitised list is empty, because `Arr::whereNotNull` drops only nulls (src/Handlers/CodexText.php:58).

## Model

| member | source | states |
|---|---|---|
| `Base64Url.ToUrlSafe` | src/CodexOAuthService.php:28 | `strtr(.., '+/', '-_')` keeps the length and leaves no '+' or '/' |
| `Base64Url.FromUrlSafe` | src/CodexOAuthService.php:280 | `strtr(.., '-_', '+/')` keeps the length and leaves no '-' or '_' |
| `Base64Url.FromToUrlSafe` | src/CodexOAuthService.php:28 | translating a standard-alphabet string to URL-safe and back gives it unchanged |
| `Base64Url.ToFromUrlSafe` | src/CodexOAuthService.php:280 | translating a URL-safe string to standard and back gives it unchanged |
| `Base64Url.StripPadding` | src/CodexOAuthService.php:28 | `rtrim(.., '=')` returns a prefix with no trailing '=' and only '=' removed |
| `Base64Url.StripPaddingOf` | src/CodexOAuthService.php:28 | stripping a body without '=' followed by padding gives back exactly the body |
| `Pkce.Challenge` | src/CodexOAuthService.php:28 | the challenge is URL-safe, unpadded and no longer than the encoded digest |
| `Pkce.ChallengeOfBase64` | src/CodexOAuthService.php:28 | for a padded base64 digest, the challenge is its URL-safe unpadded body, and mapping it back recovers the body |
| `Pkce.GeneratePkce` | src/CodexOAuthService.php:25-34 | the verifier is returned as given and the challenge is URL-safe |
| `Pkce.AuthorizeParams` | src/CodexOAuthService.php:41-50 | the eight authorize parameters, in order, with the client id, scopes, `S256`, state, redirect URI and the simplified-flow flag |
| `Pkce.BuildAuthorizationUrl` | src/CodexOAuthService.php:39-51 | the URL starts with the issuer's `/oauth/authorize?` |
| `Pkce.AuthorizationQueryParams` | src/CodexOAuthService.php:39-51 | the query of the URL splits on '&' into exactly the eight encoded `key=value` pairs, in order |
| `Jwt.DecodeClaims` | src/CodexOAuthService.php:268-284 | claims exist only for a truthy token of exactly three '.'-separated segments, and are those of the middle segment |
| `Jwt.ClaimsComeFromPayload` | src/CodexOAuthService.php:274-283 | for `header.payload.signature` the claims are the decoded payload's, whatever the header and signature |
| `Jwt.SignatureIgnored` | src/CodexOAuthService.php:268-284 | two tokens differing only in the signature yield the same claims (no verification) |
| `Jwt.NoDotNoClaims` | src/CodexOAuthService.php:274-278 | a token without '.' has no claims |
| `Jwt.AccountIdFromClaims` | src/CodexOAuthService.php:234-251 | the account id is the root claim if non-empty, else the namespaced one, else the first organization's `id`, else none; it is never empty |
| `Jwt.ExtractAccountId` | src/CodexOAuthService.php:226-252 | no claims give no account id; otherwise the priority order over the claims |
| `Jwt.ExtractEmail` | src/CodexOAuthService.php:257-262 | an e-mail exactly when the claims have a string `email` claim, and then that claim |
| `Jwt.RootBeatsOrganizations` | src/CodexOAuthService.php:234-237 | a non-empty root claim wins over any other claim |
| `Jwt.EmptyTokenHasNoAccount` | src/CodexOAuthService.php:270-272 | the empty token has neither account id nor e-mail |
| `TokenStore.Merge` | src/CodexTokenStore.php:38-41 | `update` sets exactly the supplied columns and keeps every other one |
| `TokenStore.Create` | src/CodexTokenStore.php:44 | `create` succeeds iff both tokens and the expiry are supplied; nullable columns default to null |
| `TokenStore.Upsert` | src/CodexTokenStore.php:33-45 | an existing row is updated in place, otherwise a row is created |
| `TokenStore.CompleteUpdateDeterminesRow` | src/CodexTokenStore.php:33-45 | an update supplying every column gives the same row whether or not one existed |
| `TokenStore.LastStoreWins` | src/CodexTokenStore.php:33-45 | after a sequence of stores, the row holds the access token of the last one |
| `TokenStore.ExpiredIsExpiringSoon` | src/CodexTokenStore.php:52-60 | an expired row is expiring soon for every non-negative buffer |
| `TokenStore.ExpiringSoonMonotone` | src/CodexTokenStore.php:57-60 | a larger buffer never turns "expiring soon" off |
| `TokenStore.ThirtySecondsFromExpiry` | src/CodexTokenStore.php:57-60 | 30 s before expiry: expiring soon with the default 60 s buffer, not with 10 s, not expired |
| `TokenStore.Store.Current` | src/CodexTokenStore.php:28-31 | the row when the table has one, none when empty |
| `TokenStore.Store.Store` | src/CodexTokenStore.php:33-45 | on success the table holds exactly the upserted row; on failure it is unchanged |
| `TokenStore.Store.Clear` | src/CodexTokenStore.php:47-50 | the table is empty afterwards |
| `OAuthService.ExchangeCode` | src/CodexOAuthService.php:58-71 | the payload is returned iff the response did not fail and is an array |
| `OAuthService.InitiateDeviceAuth` | src/CodexOAuthService.php:78-87 | the session is returned iff the response did not fail and is an array |
| `OAuthService.PollDeviceAuth` | src/CodexOAuthService.php:94-120 | the poll is always the first request sent, at most one exchange follows, a pending answer sends only the poll, and a returned payload is an array |
| `OAuthService.PollForbiddenIsPending` | src/CodexOAuthService.php:101-104 | status 403 is "pending", with no exchange |
| `OAuthService.PollExchangesOnce` | src/CodexOAuthService.php:111-117 | a code and verifier in the poll answer lead to exactly one exchange with the device redirect URI, returning its payload |
| `OAuthService.PollPassesPayloadThrough` | src/CodexOAuthService.php:119 | any other array payload is returned unchanged, without an exchange |
| `OAuthService.OptionalString` | src/CodexOAuthService.php:205-217 | `$data[k] ?? null` read as `?string`: none iff missing or null, a value iff a string, otherwise a type error |
| `OAuthService.OptionalInt` | src/CodexOAuthService.php:213 | `$data[k] ?? default` read as an integer: none iff missing or null, a value iff an integer |
| `OAuthService.ParseTokenPayload` | src/CodexOAuthService.php:201-217 | the access token must be a string, and every optional field read is the payload's own |
| `OAuthService.TokensUpdate` | src/CodexOAuthService.php:201-219 | every column is written; account id: payload, else access token, else id token; e-mail: id token, else access token; expiry: `expires_at`, else now + `expires_in` (3600) |
| `OAuthService.StorePayload` | src/CodexOAuthService.php:199-220 | storing succeeds iff there is a refresh token, and the row is then the upsert of the full update |
| `OAuthService.StoreTokensOutcome` | src/CodexOAuthService.php:199-220 | storing succeeds iff the payload parses and has a refresh token; the stored tokens are the payload's |
| `OAuthService.RefreshGrant` | src/CodexOAuthService.php:143-154 | the access token must be a string; account id: new access token, else id token, else the stored one; refresh token falls back to the stored one; expiry now + `expires_in` (3600) |
| `OAuthService.Refresh` | src/CodexOAuthService.php:125-157 | no row: false, no request; else exactly one refresh request; false iff it failed; true iff the grant is usable; the row changes only on true |
| `OAuthService.RefreshFailureKeepsRow` | src/CodexOAuthService.php:139-141 | a failed grant answers false and keeps the row |
| `OAuthService.RefreshStores` | src/CodexOAuthService.php:143-156 | a successful refresh stores the grant's tokens, account id and expiry, the e-mail of the new access token, and empty token data |
| `OAuthService.AccessToken` | src/CodexOAuthService.php:162-178 | no row: none, no request; a row not expiring soon: its token, no request; expiring soon: exactly one refresh request and the row `Refresh` leaves, then none when the refresh answers false, the newly stored token when it answers true, and the raised error otherwise |
| `OAuthService.HandedOutTokenIsFresh` | src/CodexOAuthService.php:162-178 | if the issuer grants more than the 60 s buffer, any token handed out is neither expiring soon nor expired |
| `OAuthService.NoStaleToken` | src/CodexOAuthService.php:170-173 | when the refresh fails, none is returned, not the stale token |
| `OAuthService.Service.IsConfigured` | src/CodexOAuthService.php:191-194 | configured iff a row exists, whatever its expiry |
| `OAuthService.Service.AccountId` | src/CodexOAuthService.php:183-186 | the stored account id, none without a row |
| `OAuthService.Service.StoreTokenPayload` | src/CodexOAuthService.php:199-220 | the table afterwards is the one `StorePayload` describes, and is unchanged on failure |
| `OAuthService.Service.StoreTokens` | src/CodexOAuthService.php:199-220 | the table afterwards is the one `StoreTokensOutcome` describes, and is unchanged on failure |
| `OAuthService.Service.RefreshToken` | src/CodexOAuthService.php:125-157 | outcome, requests and table afterwards are those of `Refresh` |
| `OAuthService.Service.GetAccessToken` | src/CodexOAuthService.php:162-178 | token, requests and table afterwards are those of `AccessToken` |
| `SchemaSanitizer.SanitizeProperty` | src/Concerns/SanitizesToolSchemas.php:54-72 | only `items` may be added; other keys unchanged; a bare array gets the default items; non-array items are kept; other types unchanged; failure only for array or object schemas |
| `SchemaSanitizer.SanitizeProperties` | src/Concerns/SanitizesToolSchemas.php:37-48 | names and order are kept, non-array values are kept, and array values stay arrays |
| `SchemaSanitizer.SanitizePropertiesPointwise` | src/Concerns/SanitizesToolSchemas.php:39-45 | each array-valued property becomes exactly its sanitised form |
| `SchemaSanitizer.SanitizePropertiesFails` | src/Concerns/SanitizesToolSchemas.php:37-48 | the properties fail iff one array-valued property fails |
| `SchemaSanitizer.SanitizePropertiesInPlace` | src/Concerns/SanitizesToolSchemas.php:37-48 | the by-reference `foreach` loop computes `SanitizeProperties` |
| `SchemaSanitizer.SanitizeTool` | src/Concerns/SanitizesToolSchemas.php:22-29 | a tool without `parameters.properties` is unchanged; a tool's keys are kept; a non-array tool is a type error |
| `SchemaSanitizer.SanitizeTools` | src/Concerns/SanitizesToolSchemas.php:20-31 | tools are sanitised one by one, in order; failure iff some tool fails |
| `SchemaSanitizer.DefaultItemsFixed` | src/Concerns/SanitizesToolSchemas.php:57-64 | the default items need no further sanitising |
| `SchemaSanitizer.BareArrayAsWritten` | src/Concerns/SanitizesToolSchemas.php:57-64 | assigning the default items and then sanitising them, as the source does, gives the model's result |
| `SchemaSanitizer.ItemsSanitised` | src/Concerns/SanitizesToolSchemas.php:62-64 | existing array items are sanitised in place, not replaced |
| `SchemaSanitizer.ObjectPropertiesSanitised` | src/Concerns/SanitizesToolSchemas.php:67-69 | an object's `properties` succeed iff they are an array that sanitises, and then hold the sanitised properties |
| `SchemaSanitizer.PropertyExtends` | src/Concerns/SanitizesToolSchemas.php:54-72 | the sanitiser only adds: every entry keeps its place and key, and only default items are new |
| `SchemaSanitizer.PropertiesExtend` | src/Concerns/SanitizesToolSchemas.php:37-48 | the same for a properties map |
| `SchemaSanitizer.ToolExtends` | src/Concerns/SanitizesToolSchemas.php:22-29 | the same for a tool |
| `SchemaSanitizer.PropertyIdempotent` | src/Concerns/SanitizesToolSchemas.php:54-72 | sanitising a schema twice equals sanitising it once |
| `SchemaSanitizer.PropertiesIdempotent` | src/Concerns/SanitizesToolSchemas.php:37-48 | sanitising properties twice equals once |
| `SchemaSanitizer.ToolIdempotent` | src/Concerns/SanitizesToolSchemas.php:22-29 | sanitising a tool twice equals once |
| `SchemaSanitizer.ToolsIdempotent` | src/Concerns/SanitizesToolSchemas.php:20-31 | sanitising the tools twice equals once |
| `SchemaSanitizer.ToolsFixed` | src/Concerns/SanitizesToolSchemas.php:20-31 | tools that are each already sanitised come back unchanged |
| `RequestBody.Instructions` | src/Handlers/CodexText.php:35-50 | the instructions are never falsy: the prompts joined by a blank line when that is truthy, else the default |
| `RequestBody.NoSystemPrompt` | src/Handlers/CodexText.php:50 | with no system prompt the default instructions are sent |
| `RequestBody.OneSystemPrompt` | src/Handlers/CodexText.php:35-37 | a single truthy prompt is sent as it is |
| `RequestBody.OptionalFields` | src/Handlers/CodexText.php:54-61 | six distinct optional keys, none of them a fixed key |
| `RequestBody.Body` | src/Handlers/CodexText.php:48-61 | a body exists iff the tools sanitise; it is the `array_merge` of the fixed fields and the non-null settings, and carries `stream: true`, `store: false`, the model, the input and the instructions |
| `RequestBody.FixedFieldsFound` | src/Handlers/CodexText.php:48-61 | merging settings that carry no fixed key leaves every fixed field with its own value |
| `RequestBody.OptionalKeysDisjoint` | src/Handlers/CodexText.php:48-61 | no optional setting carries a fixed key, so none can override a fixed field |
| `RequestBody.OptionalFieldPresence` | src/Handlers/CodexText.php:54-61 | an optional setting is in the body iff it is not null, and then with its own value |
| `RequestBody.ToolsAlwaysSent` | src/Handlers/CodexText.php:58 | the sanitised tools are always sent as a list, even when empty |
| `PhpArray.ArrayMergeLookup` | src/Handlers/CodexText.php:48-61 | a string key of `array_merge(a, b)` holds the last value `b` gives it, else the last value `a` gives it |
| `CodexText.Payload` | src/Handlers/CodexText.php:78-84 | a payload exactly for lines starting with `data:` once trimmed, and then the trimmed rest |
| `CodexText.ScanLine` | src/Handlers/CodexText.php:80-99 | a line contributes iff it has a non-empty, non-`[DONE]`, truthy `response.completed` payload, and then its `response` or the event itself |
| `CodexText.Collected` | src/Handlers/CodexText.php:102-111 | a 200 JSON response with the encoded last completed data when that data is truthy; the original response otherwise |
| `CodexText.CollectStreamResponse` | src/Handlers/CodexText.php:72-112 | the line loop answers as `Collected` does: the encoded last completed data as 200 JSON when truthy, else the original response |
| `CodexText.CompletedNotNull` | src/Handlers/CodexText.php:98 | the completed data is never null |
| `CodexText.LastCompletedWins` | src/Handlers/CodexText.php:96-99 | of several completed events, the last one decides |
| `CodexText.IgnoredLine` | src/Handlers/CodexText.php:80-94 | a line that contributes nothing can be removed without changing the result |
| `CodexText.NoCompletedPassesThrough` | src/Handlers/CodexText.php:110-111 | with no completed event, the original response is returned |
| `CodexText.CompletedEventAnswered` | src/Handlers/CodexText.php:72-112 | a `data:` line with a truthy `response.completed` event, followed by no other, yields 200 JSON of its `response` (or the event) when that is truthy |
| `CodexText.SendRequest` | src/Handlers/CodexText.php:33-65 | the body is sent without the transport stream option, with a 300 s timeout, and the collected response is returned |
| `CodexStream.SendRequest` | src/Handlers/CodexStream.php:27-58 | the same body, sent with the stream option, and the upstream response returned untouched |
| `CodexStream.SameBodyAsText` | src/Handlers/CodexStream.php:36-55 | both handlers send the same request except for the transport option |
| `CodexStream.StreamRequestedTwice` | src/Handlers/CodexStream.php:38-46 | streaming is requested by the transport and in the body, and storage is refused |
| `Provider.ClientFor` | src/Codex.php:39-59 | no truthy token raises; bearer and base URL; at most one account header, present iff the constructor's id (else the stored one) is truthy |
| `Provider.ConstructorAccountWins` | src/Codex.php:49-51 | the constructor's account id wins over the stored one |
| `Provider.StoredAccountUsed` | src/Codex.php:49-51 | without a constructor account id, the stored one is sent |
| `Provider.EmptyConstructorAccountHidesStored` | src/Codex.php:49-51 | an empty constructor account id suppresses the header altogether |
| `Provider.CodexProvider.Client` | src/Codex.php:39-59 | gets a token through `AccessToken`, then configures the client as `ClientFor` says |
| `Provider.DataGet` | src/Codex.php:100-102 | an empty path is the value itself; one step is `$v[k] ?? null` |
| `Provider.Limit` | src/Codex.php:111 | a string that fits is kept; a longer one becomes its right-trimmed first n characters plus `...` |
| `Provider.FirstNonNull` | src/Codex.php:100-103 | `??` chain: the first non-null candidate, else the fallback |
| `Provider.FirstNonNullPicks` | src/Codex.php:100-103 | the chain gives the first non-null operand |
| `Provider.Encoded` | src/Codex.php:105-107 | an array message is JSON-encoded, any other kept |
| `Provider.HandleResponseErrors` | src/Codex.php:94-121 | the status is kept; the logged body is `Str::limit(body, 2000)`; the message is never null or an array; without JSON the type is null and the message is the raw body; `error.type` wins for the type |
| `Provider.MessageLevel` | src/Codex.php:100-107 | the message is the first set one of `error.message`, `detail` and `message`, encoded when it is an array |
| `Provider.RawBodyLast` | src/Codex.php:97-103 | with no message anywhere (or no JSON), the raw body is the message |
| `Provider.ErrorTypeFallback` | src/Codex.php:117 | the error type falls back from `error.type` to `error_code` |
| `LoginCommand.PollInterval` | src/Console/CodexLoginCommand.php:101 | interval + 3 for integers, 3 for null; strings and arrays raise |
| `LoginCommand.MaxAttempts` | src/Console/CodexLoginCommand.php:102 | a positive interval gives the ceiling of 300 / interval; zero divides by zero; a negative one gives no attempts |
| `LoginCommand.MaxAttemptsIsCeiling` | src/Console/CodexLoginCommand.php:102 | the bound is the least number of intervals covering 300 s |
| `LoginCommand.DeviceAttempt` | src/Console/CodexLoginCommand.php:107-137 | one attempt sends at most a poll and an exchange; SUCCESS only with a stored row; anything else is FAILURE or pending and keeps the row |
| `LoginCommand.DevicePoll` | src/Console/CodexLoginCommand.php:110-113 | a poll happens iff the session's device auth id and user code are strings |
| `LoginCommand.DeviceLoop` | src/Console/CodexLoginCommand.php:106-143 | the device flow's loop never raises; it keeps the row unless it succeeds |
| `LoginCommand.DeviceFlow` | src/Console/CodexLoginCommand.php:82-144 | the user-code request comes first; a failed initiation fails; a session error or a zero interval raises; otherwise the poll loop from attempt 0 decides; the row changes only on success |
| `LoginCommand.SessionPollInterval` | src/Console/CodexLoginCommand.php:95-101 | a missing `user_code`, an array one, or a missing `interval` raises; otherwise the interval plus the margin |
| `LoginCommand.AttemptPollsOnce` | src/Console/CodexLoginCommand.php:110-113 | an attempt sends at most one poll |
| `LoginCommand.LoopPollsBounded` | src/Console/CodexLoginCommand.php:106-138 | over any attempts that each poll at most once, the loop sends no more polls than attempts remain |
| `LoginCommand.DevicePollsBounded` | src/Console/CodexLoginCommand.php:101-138 | the whole flow polls at most `maxAttempts` times |
| `LoginCommand.AllPendingTimesOut` | src/Console/CodexLoginCommand.php:106-143 | over any attempts that are all pending and poll once each, the loop fails, keeps the row, and sends one poll per remaining attempt |
| `LoginCommand.FirstTokensWin` | src/Console/CodexLoginCommand.php:115-131 | the first attempt yielding stored tokens ends the command with SUCCESS and that row |
| `LoginCommand.LoopStep` | src/Console/CodexLoginCommand.php:106-138 | over any attempts, a finished attempt ends the loop with its outcome and requests; a pending one adds its requests to the rest of the loop's |
| `LoginCommand.LoopIsFirstFinished` | src/Console/CodexLoginCommand.php:106-143 | over any attempts, every attempt before the first finished one is pending, the loop ends with that attempt's outcome and row, and fails keeping the row when none finishes |
| `LoginCommand.Loop` | src/Console/CodexLoginCommand.php:106-143 | with no attempts left, the loop fails with no request and the row untouched |
| `LoginCommand.LoopKeepsRow` | src/Console/CodexLoginCommand.php:106-143 | when every attempt keeps the row unless it stores one, so does the loop, and it never raises |
| `LoginCommand.AttemptFollowsPoll` | src/Console/CodexLoginCommand.php:109-137 | no poll gives FAILURE with no request; otherwise the poll's requests, pending iff the poll is pending, SUCCESS with the stored row when the payload stores and FAILURE when it does not; a pending attempt sent exactly one poll |
| `LoginCommand.DeviceAllPendingTimesOut` | src/Console/CodexLoginCommand.php:106-143 | if every device attempt is pending, the command fails after one poll per attempt and stores nothing |
| `LoginCommand.PollSendsOnePoll` | src/Console/CodexLoginCommand.php:110-113 | the requests of one `pollDeviceAuth` call (the poll, perhaps an exchange) hold exactly one poll |
| `LoginCommand.Command.PollAttempt` | src/Console/CodexLoginCommand.php:109-137 | one turn of the loop returns the attempt `DeviceAttempt` describes; a finished one leaves the table holding its row, a pending one leaves it unchanged |
| `LoginCommand.Command.PollLoop` | src/Console/CodexLoginCommand.php:106-143 | the counted loop with early returns ends, stores and logs as `DeviceLoop` says |
| `LoginCommand.Command.DeviceFlowLoop` | src/Console/CodexLoginCommand.php:82-144 | the counted loop with early returns ends as `DeviceFlow` says |
| `LoginCommand.MatchAt` | src/Console/CodexLoginCommand.php:180 | a match of `GET\s+([^\s]+)` yields a non-empty group without whitespace |
| `LoginCommand.FirstMatch` | src/Console/CodexLoginCommand.php:180 | the leftmost match, or none when no position matches |
| `LoginCommand.RequestPath` | src/Console/CodexLoginCommand.php:180-181 | the path has no whitespace, and is empty when nothing matches |
| `LoginCommand.QueryOf` | src/Console/CodexLoginCommand.php:183 | no '?' gives no query; the query never holds the fragment |
| `LoginCommand.Decide` | src/Console/CodexLoginCommand.php:185-203 | a code iff the state matches and the code is a truthy string; a denial iff the state matches and the code is falsy, reporting `error ?? 'unknown_error'`, set apart when that error is an array |
| `LoginCommand.CallbackDecision` | src/Console/CodexLoginCommand.php:170-203 | nothing read (or a falsy read) iff no request |
| `LoginCommand.WrongStateNoCode` | src/Console/CodexLoginCommand.php:188-194 | a missing or different state is refused as a state mismatch, never yielding a code |
| `LoginCommand.DeniedDefaultsToUnknown` | src/Console/CodexLoginCommand.php:196-197 | right state, no code and no error give `unknown_error` |
| `LoginCommand.BrowserFlow` | src/Console/CodexLoginCommand.php:25-80 | no request, a plain denial or a state mismatch: FAILURE with no exchange; a non-string code, or a denial whose error is an array, raises; a code is exchanged exactly once with the verifier and local redirect URI, then FAILURE if the exchange or store fails, else SUCCESS with the stored row |
| `CallbackController.ExchangeAndStore` | src/Http/Controllers/CodexCallbackController.php:38-50 | one exchange iff code, verifier and redirect URI are strings; the row is stored iff the exchange and the store succeed, and kept otherwise; a redirect to `return_url ?? '/'` iff the tokens are stored and that target is not an array; an array target after the store, and every other failure, answers 500 `token_exchange_failed` |
| `CallbackController.Handle` | src/Http/Controllers/CodexCallbackController.php:14-51 | `error` first, then missing parameters, both with the cache untouched; an array state raises; otherwise the state's entry is removed, a missing or falsy entry is an invalid state, and a present one goes to the exchange and store; the row changes only after an exchange, on a redirect or on the 500 an array return URL causes |
| `CallbackController.StateIsSingleUse` | src/Http/Controllers/CodexCallbackController.php:32-36 | a second callback with the same state is refused |
| `CallbackController.StateEntry` | src/Http/Controllers/CodexCallbackController.php:63-67 | the cached entry yields the verifier, the callback URI and the return URL |
| `CallbackController.StartLogin` | src/Http/Controllers/CodexCallbackController.php:56-72 | the cache gains the state's entry for 300 s and the browser is sent to the authorization URL |
| `CallbackController.RedirectThenCallback` | src/Http/Controllers/CodexCallbackController.php:14-72 | a login started by `redirect` and completed by its callback makes exactly one exchange with the cached verifier and consumes the state; the tokens are stored iff the exchange and store succeed; it returns to the original page iff they are stored and that page is not an array, answers 500 after storing for an array one, and otherwise answers the exchange failure with the row kept |
| `CallbackController.ExchangeOnEntry` | src/Http/Controllers/CodexCallbackController.php:38-50 | on an entry `redirect` cached, the callback exchanges the code once with that verifier and route; the row is stored iff exchange and store succeed; it returns to `return_url` (or `/`) iff the row is stored and that target is not an array, answers 500 after storing for an array target, else answers the exchange failure with the row kept |
| `CallbackController.Controller.HandleCallback` | src/Http/Controllers/CodexCallbackController.php:14-51 | reply, cache, row and requests are those of `Handle` |
| `CallbackController.Controller.RedirectToLogin` | src/Http/Controllers/CodexCallbackController.php:56-72 | cache and URL are those of `StartLogin` |

## Left out

- **Network, sockets and timing.**
  - HTTP transport, retries and client options are not modelled. Responses are parameters, and requests are logged as values.
  - Connection errors are not modelled: only statuses are.
  - The TCP callback server is reduced to the text it reads, or none. `stream_socket_server`, the accept timeout, `fwrite` of the HTML replies and `fclose` are left out.
  - `sleep` between polls and the browser launch (`exec`) are left out.
- **Console and logging.**
  - Console output (info lines, the printed user code and URL) is left out.
  - The e-mail and account lines printed after login are left out.
  - `Log::warning` is reduced to the limited body it would log.
- **Collaborators that are not part of this model.**
  - Prism's `MessageMap`, `ToolChoiceMap`, `buildTools` and the parent `Text`/`Stream` handlers. Their outputs are opaque values.
  - Laravel's encryption casts and Eloquent's `latest()` ordering. The table holds at most one row.
  - The session flash message of the redirect.
  - `route()`, which is given as a string.
  - Cache TTL expiry: an entry only records its 300-second TTL.
- **Foreign functions.** Base64, JSON encoding and decoding, SHA-256, `urlencode`, `parse_str`, `Str::random` and `random_bytes` are parameters, so their own behaviour is not modelled. `parse_url` is reduced to cutting the fragment and taking what follows the first '?'. Its failure cases and other URL forms are not modelled.
- **Numbers and strings.**
  - Floats are not modelled: `expires_in`, `interval` and JSON numbers are integers.
  - Numeric strings in arithmetic are not modelled: `interval` given as a string raises here, while PHP would convert a numeric string.
  - `Str::limit` counts characters of `seq<char>`, not multibyte display width.
- **Logins that run concurrently** against the same cache or table are not modelled.
- `Jwt.AccountIdFromClaims`: a truthy claim that is not a string makes the source raise a `TypeError` (the declared `?string` return). Here it gives no account id and the next source is tried.
- `Jwt.ExtractEmail`: an `email` claim that is not a string makes the source raise a `TypeError` (the declared `?string` return). Here it gives no e-mail.
- `OAuthService.RefreshGrant`: a `refresh_token` in the grant response that is present but not a string is refused here as a type error. The source passes it on to the table unchecked (src/CodexOAuthService.php:151), and the table's text column is not modelled.
- `OAuthService.ParseTokenPayload`: every optional field is type-checked up front. The source touches `id_token` and `account_id` lazily, through `??`, and stores `account_id` without checking its type. A payload with an ill-typed field that the source would never read is refused here.
- `OAuthService.StorePayload`: a missing refresh token is a database error here, because the column is required. Encryption and the other database constraints are not modelled.
- `SchemaSanitizer.SanitizeProperty`: the source assigns the default items to a bare array schema and then sanitises them. The model stops after the assignment, and `BareArrayAsWritten` proves the two agree.
- `LoginCommand.MaxAttemptsIsCeiling`: stated only for positive intervals. A negative server interval gives no attempts at all, and an interval of -3 makes the source divide by zero.
