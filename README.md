# mgt-webproxy on-behalf-of broker, modelled in Dafny

The broker is an ASP.NET Core middleware that sits in front of a Graph
relay. A caller presents its own bearer token. The broker reads the token's
tenant (`tid`), resolves its own client credentials for that tenant, and
exchanges the caller's token at the tenant's token endpoint for a derived
token (the OAuth 2.0 on-behalf-of flow). It stores the derived token under
`obo-token` in the request's `Items` and calls the next middleware. When a
cache is configured, the token must first pass the "multi-auth"
authentication scheme. Derived tokens are then cached per `tenant:oid` and
reused until their `exp`.

The model has one module per source file:

- `Wrappers`: `Option`, `Result` and `Failure`. `HttpError(status, message)` is an `HttpException`; `Exception(message)` is any other exception.
- `Text`: .NET `string.Replace` with ordinal and ignore-case comparison, and `int.TryParse`.
- `Claims` (Ext.cs): `TryGetString` and `TryGetInt` over a decoded payload. A claim whose element is null makes `element.ToString()` throw a `NullReferenceException` (Ext.cs:14, Ext.cs:33), and the lookups return that exception.
- `CacheEntries` (cache/CatchEntry.cs) and `TokenCache` (cache/InMemoryCache.cs). `TokenCache` covers the size limit and the class `InMemoryCache`, whose `entries` map follows `MemoryCache`'s rules for lookup, expiry and creation.
- `Credentials`, `LocalCredentials`, `EnvironmentCredentials` and `KeyVault` (obo/*Credentials.cs). `KeyVault` holds the class `KeyVaultCredentials` and its per-tenant memo.
- `TokenValidator` (auth/AzureAdTokenValidator.cs): the `tid` checks, the issuers, the discovery address, the validation parameters, and the class `AzureAdTokenValidator` with its per-tenant registry of configuration managers.
- `Authentication` (auth/AuthHandler.cs): the three-way outcome NoResult, Fail or Success.
- `Http`: the Authorization header values, `Replace("Bearer ", "")`, upstream responses, and the class `HttpContext` (items, status, body, whether `next` ran).
- `OboExchange` (`GetOboTokenFromAzure`): the form posted to the token endpoint and the checks on the response.
- `Obo` (obo/OboMiddleware.cs): `Pipeline` and `FromCache` say what one request amounts to, and `Respond` maps that to the response. The class `OboMiddleware` runs a request step by step against the shared cache and validator. Its `InvokeAsync` is proved equal to `Respond(Pipeline(...))`, and the cache and registry it leaves behind are stated.
- `LegacyObo` (OboMiddleware.cs): the older revision.
- `Subscriptions` (Controllers/SubscriptionsController.cs): `GetOboToken`, the negotiate URL rewrite, and how `Create` and `Patch` answer.

Foreign calls are function-typed parameters:

- token decoding (`ReadJwtToken`, `None` when it throws)
- OpenID discovery
- the library's `ValidateToken`
- the credential resolver
- `HttpClient.SendAsync` (`None` when it throws)
- the secret store
- the Graph client

The clock is a parameter `now` in Unix seconds, and the GUID of `Negotiate` is a parameter `guid`.

In four places the code's own comments and messages announce one thing and its statements do another. The model follows the statements:

- Line 107 of obo/OboMiddleware.cs puts the token endpoint's status into the message of a plain exception. Only an `HttpException` keeps its status (lines 153-158), so a refused exchange (for instance a 400 for a malformed assertion) reaches the generic catch and is answered 500 "Internal server error." (`OboExchange.RejectedExchangeIsPlainError`, `Obo.FailedExchangeIs500`).
- The message at obo/OboMiddleware.cs:117 speaks of an access token that "was empty", but the `??` before it only catches null. An `access_token` that is the empty string is accepted.
- The comment "ensure there is an aud" and the message "...contains the aud element." (obo/OboMiddleware.cs:46-49) announce the `aud` claim, but line 47 reads `oid`. The audience recorded in a cache entry and compared on a hit is therefore the `oid`. The model keeps this: `Pipeline` uses `AudClaimAsWritten = "oid"`, and `FromCache` takes the claim name as a parameter. `Obo.AsWrittenIgnoresAudience` proves that two requests of the same user, each with its own header and token, share one cached token whatever their `aud` claims. `Obo.AudienceClaimIsolates` proves that reading `aud` would refuse the second request with 403.
- Only the cache branch authenticates the caller (the comment "authenticate the user", obo/OboMiddleware.cs:33-38). The direct branch (no cache) runs no signature validation of its own; the token is only checked by the token endpoint when it is exchanged.

## Model

| member | source | states |
|---|---|---|
| Text.ReplaceAllWithoutMatch | obo/OboMiddleware.cs:129 | a string holding no occurrence of the pattern comes back unchanged, under either comparison |
| Text.ReplaceAllOfPrefixed | obo/OboMiddleware.cs:129 | a match at the front (in any letter case under ignore-case) is replaced, and scanning resumes right after it |
| Text.ReplaceAllLength | Controllers/SubscriptionsController.cs:69-73 | the result's length is the input's plus, for each occurrence counted by the independent `Occurrences`, the replacement's length minus the pattern's |
| Text.ParseInt32 | Ext.cs:33 | a parsed value is always within the range of a C# int |
| Text.ParseShowRoundTrip | Ext.cs:33 | `int.TryParse` reads back the decimal form of every C# int and rejects the decimal form of every integer outside that range |
| Text.ParseRejectsNonNumeric | Ext.cs:33-36 | non-empty text with no digit and no white space does not parse |
| Claims.TryGetString | Ext.cs:5-22 | an exception (`NullReferenceException`) exactly when the element is null; nothing exactly when the key is absent or the string form is empty; otherwise the string form itself, which is then non-empty |
| Claims.TryGetInt | Ext.cs:24-40 | absent key gives nothing; an exception exactly when the element is null; otherwise exactly what `int.TryParse` makes of the element's string form, always within int range |
| Claims.TryGetIntReadsDecimal | Ext.cs:33-39 | a claim holding the decimal form of an int is read as that int |
| Claims.TryGetIntRejectsWide | Ext.cs:33-36 | a claim holding a decimal outside int range (a 64-bit `exp` after January 2038) is not read, and the out value is 0 |
| Claims.TryGetIntDefaultsToZero | Ext.cs:26-36 | a claim with no digit and no white space leaves the out value at 0 |
| CacheEntries.CacheEntry.Length | cache/CatchEntry.cs:9 | the weight is at least each component's length, zero exactly when both are empty, and minus the token's length is the audience's length |
| TokenCache.Wrap32 | cache/InMemoryCache.cs:11 | unchecked int arithmetic: the result is within int range, congruent to the input modulo 2^32, and equal to the input when that is already in range |
| TokenCache.SizeLimitAsWritten | cache/InMemoryCache.cs:11 | as written, the limit is the configured megabytes in bytes reduced modulo 2^32 into int range |
| TokenCache.SizeLimitAsWrittenOverflows | cache/InMemoryCache.cs:11 | as written, 2048 MB gives a negative limit and 4096 MB a limit of 0 |
| TokenCache.SizeLimit | cache/InMemoryCache.cs:11 | the intended limit is positive and is exactly the configured number of MiB |
| TokenCache.SizeLimitAsWrittenBelow2048 | cache/InMemoryCache.cs:11 | below 2048 MB the written and the intended limits agree |
| TokenCache.AfterMiss | cache/InMemoryCache.cs:22-29 | after a miss the key holds the created value exactly when the factory succeeded with a value not yet expired; every other key keeps its slot |
| TokenCache.LookupIn | cache/InMemoryCache.cs:22 | an entry is found exactly when its key is present and the clock is before its absolute expiration, and it is the stored value |
| TokenCache.AfterMissWellFormed | cache/InMemoryCache.cs:26-27 | after a miss every slot still carries its own value's expiry and length |
| TokenCache.LookupAfterMiss | cache/InMemoryCache.cs:22-29 | a value just created is read back identically at every time before its expiry and is gone from its expiry on |
| TokenCache.AfterMissKeepsOtherKeys | cache/InMemoryCache.cs:22-29 | a miss on one key changes what no other key reads |
| TokenCache.LookupIsUnexpired | cache/InMemoryCache.cs:26 | a found entry's own expiry is still ahead of the clock |
| TokenCache.InMemoryCache.constructor | cache/InMemoryCache.cs:9-13 | a new cache is empty and its limit is the configured size in bytes (the corrected computation) |
| TokenCache.InMemoryCache.GetOrSet | cache/InMemoryCache.cs:15-38 | `created` holds exactly on a miss; a miss calls `onSet` once, returns its result and stores it under the key with its expiry and length (nothing if it threw or is already expired); a hit changes nothing and returns the cached value, or the exception `onGet` throws for it |
| Credentials.RequirePair | obo/EnvironmentVariableCredentials.cs:8-13 | an error exactly when either value is null or empty, then 403 "You are not authorized to use this application."; otherwise both values, non-empty |
| LocalCredentials.GetForTenant | obo/LocalCredentials.cs:5-8 | the configured pair, never an error |
| LocalCredentials.SamePairForEveryTenant | obo/LocalCredentials.cs:5-8 | any two tenants get the same pair |
| EnvironmentCredentials.GetForTenant | obo/EnvironmentVariableCredentials.cs:3-14 | reads `<tenant>_CLIENT_ID` and `<tenant>_CLIENT_SECRET`; 403 exactly when either is missing or empty; otherwise exactly those two values |
| EnvironmentCredentials.OnlyTenantKeysMatter | obo/EnvironmentVariableCredentials.cs:5-13 | two environments that agree on the tenant's two names give the same result |
| KeyVault.FetchFromStore | obo/KeyVaultCredentials.cs:25-39 | fetches `<tenant>-CLIENT-ID` and `<tenant>-CLIENT-SECRET`; a store failure propagates (the client id's first); both fetched but one empty is 403; success exactly when both fetch non-empty, with those values |
| KeyVault.KeyVaultCredentials.constructor | obo/KeyVaultCredentials.cs:17 | the memo starts empty |
| KeyVault.KeyVaultCredentials.GetForTenant | obo/KeyVaultCredentials.cs:19-41 | a memoised tenant is answered from the memo with no fetch; otherwise both secrets are fetched, and a success (only) is memoised for that tenant alone; a memo consistent with the store stays so and the answer is what the store gives |
| TokenValidator.ExtractTenant | auth/AzureAdTokenValidator.cs:21-30 | an unreadable token, a missing `tid` ("tid could not be extracted from the token."), a null one (the `NullReferenceException` of `tid.ToString()`) and an empty one ("tid did not contain a valid tenant ID.") are errors; success exactly for a non-empty `tid`, which is the tenant |
| TokenValidator.ExtractTenantAgreesWithTryGetString | auth/AzureAdTokenValidator.cs:22-30 | the validator and the middleware agree on which tokens carry a tenant, on the tenant, and on the exception a null `tid` throws |
| TokenValidator.ValidIssuers | auth/AzureAdTokenValidator.cs:33-36 | exactly the two issuers `https://login.microsoftonline.com/<tid>/v2.0` and `https://sts.windows.net/<tid>/` |
| TokenValidator.NewManager | auth/AzureAdTokenValidator.cs:45-48 | the manager reads `https://login.microsoftonline.com/<tid>/v2.0/.well-known/openid-configuration` and requires HTTPS |
| TokenValidator.GetOrAdd | auth/AzureAdTokenValidator.cs:39-49 | a registered tenant's manager is reused and the registry is unchanged; otherwise a new manager is built and added |
| TokenValidator.GetOrAddOnlyAddsMissing | auth/AzureAdTokenValidator.cs:39-49 | the registry gains only the tenant asked for, and no existing manager is replaced |
| TokenValidator.Parameters | auth/AzureAdTokenValidator.cs:55-64 | expiry and signature required, issuer and lifetime checked against the tenant's issuers and keys, audience not checked |
| TokenValidator.Validate | auth/AzureAdTokenValidator.cs:16-72 | a `tid` error is returned before discovery and validation; a success is a JWT from a token with a tenant whose discovery succeeded |
| TokenValidator.ValidatedTokenIsTrusted | auth/AzureAdTokenValidator.cs:52-71 | with a library that honours its parameters, a success at time `now` is a JWT issued by one of the token's own tenant's issuers, with an expiry after `now` and no not-before later than `now`, signed by a key from that tenant's discovery |
| TokenValidator.NoTenantNoValidation | auth/AzureAdTokenValidator.cs:21-30 | a token without a usable `tid` fails with that error whatever discovery and the library would do |
| TokenValidator.AzureAdTokenValidator.constructor | auth/AzureAdTokenValidator.cs:12 | the registry starts empty |
| TokenValidator.AzureAdTokenValidator.ValidateToken | auth/AzureAdTokenValidator.cs:16-72 | the result is `Validate` and is a JWT when it succeeds; the registry gains the tenant once `tid` is known, even if validation then fails, and holds only managers built for their tenants |
| Authentication.Authenticate | auth/AuthHandler.cs:24-61 | a success needs a header value whose token the validator accepts at that time |
| Authentication.AuthenticateOutcomes | auth/AuthHandler.cs:24-61 | NoResult exactly when there is no header value; Fail exactly when the validator fails on the header with every "Bearer " removed, with its error; Success is a ticket with no claims under the scheme name |
| Authentication.HandleAuthenticate | auth/AuthHandler.cs:24-61 | the outcome is `Authenticate`, and the validator is not touched when there is no header value |
| Http.FirstHeader | obo/OboMiddleware.cs:128-129 | `FirstOrDefault()` is null exactly for no values, else the first value |
| Http.HeaderString | OboMiddleware.cs:72 | the `string?` conversion is null exactly for no values, and a single value is itself |
| Http.StripBearer | obo/OboMiddleware.cs:129 | the result is the header minus seven characters for each occurrence of "Bearer " in any letter case, counted independently by `Occurrences` |
| Http.StripBearerOfBearerHeader | obo/OboMiddleware.cs:129 | `<Bearer in any case> <token>` gives the token when the token has no further occurrence |
| Http.StripBearerWithoutPrefix | auth/AuthHandler.cs:32 | a header without "Bearer " in any case is passed on unchanged |
| Http.HttpContext.Finish | obo/OboMiddleware.cs:151-169 | forwarding adds `obo-token` and runs `next` and nothing else; rejecting sets the status and appends the message and nothing else |
| OboExchange.ExchangeForm | obo/OboMiddleware.cs:89-97 | the six fields in order: jwt-bearer grant, client id, client secret, the caller's token as assertion, the scope, `on_behalf_of` |
| OboExchange.ReadAccessToken | obo/OboMiddleware.cs:102-117 | success exactly for a 2xx JSON object whose `access_token` is a string, and then that string; every failure is a plain exception |
| OboExchange.ExchangeToken | obo/OboMiddleware.cs:82-121 | a resolver error is returned as is, with no request sent; otherwise one POST to `https://login.microsoftonline.com/<tid>/oauth2/v2.0/token` with the exchange form, and the result is read from its response |
| OboExchange.RejectedExchangeIsPlainError | obo/OboMiddleware.cs:105-108 | a non-success answer is a plain exception, not a typed error with the upstream status |
| Obo.CacheKey | obo/OboMiddleware.cs:53 | the key is the tenant, a colon and the oid, each recoverable by position |
| Obo.CacheKeyInjective | obo/OboMiddleware.cs:53 | for tenants without a colon, different (tenant, oid) pairs never share a key |
| Obo.ExpiryOf | obo/OboMiddleware.cs:72-75 | the derived token's `exp` when it parses as an int, 0 when it is absent or does not parse; an exception exactly when the derived token cannot be decoded or its `exp` element is null |
| Obo.MakeEntry | obo/OboMiddleware.cs:68-77 | an exchange error or an expiry error propagates; an entry exactly when both succeed, holding the derived token, the audience value and `ExpiryOf` |
| Obo.AudCheck | obo/OboMiddleware.cs:57-67 | passes exactly when the recorded audience equals the request's, otherwise 403 "The aud in the Bearer Token does not appear to be valid." |
| Obo.FromCache | obo/OboMiddleware.cs:27-80 | authentication always runs for the tenant; a success needs it to succeed; an exchange happens only on a miss of the key, and always for this tenant and the caller's own token |
| Obo.Pipeline | obo/OboMiddleware.cs:125-151 | only a request with an Authorization value succeeds; authentication and a miss happen only when a cache is configured, and a miss always comes with an exchange |
| Obo.Respond | obo/OboMiddleware.cs:151-166 | forwards exactly a success when `obo-token` is not yet in `Items`; an `HttpException` gives its status and message; anything else, a duplicate `obo-token` included, 500 "Internal server error." |
| Obo.NoHeaderIs401 | obo/OboMiddleware.cs:128-133 | no Authorization value: 401 "You must provide a Bearer Token in the Authorization header.", and no exchange, cache access or authentication |
| Obo.MissingTidIs403 | obo/OboMiddleware.cs:140-143 | a missing or empty `tid`: 403, before any credential lookup, exchange, authentication or cache access |
| Obo.NullTidIs500 | obo/OboMiddleware.cs:140-165 | a null `tid` element throws in `TryGetString` (Ext.cs:14) and is answered 500, before any credential lookup, exchange, authentication or cache access |
| Obo.BranchFollowsCache | obo/OboMiddleware.cs:146-148 | with a tenant, authentication runs (for that tenant) exactly when a cache is configured, and otherwise the direct exchange is the result |
| Obo.UnauthenticatedIs401 | obo/OboMiddleware.cs:34-38 | on the cache branch, a token the scheme does not accept is 401, before the oid check and before any cache access |
| Obo.MissingOidIs403 | obo/OboMiddleware.cs:41-44 | an authenticated token whose `oid` is absent or empty is 403, with no exchange and no cache change |
| Obo.NullOidIs500 | obo/OboMiddleware.cs:41-44 | an authenticated token whose `oid` element is null is 500, with no exchange and no cache change |
| Obo.MissRecordsOidAsAudience | obo/OboMiddleware.cs:47-77 | a miss is handled under `tenant:oid` with one exchange; an entry is made exactly when the exchange succeeds and the derived token's expiry can be read; it records the `oid` as its audience and `exp` (0 when absent or unparsable) as its expiry, and the request gets the exchanged token; otherwise the request fails with the factory's error |
| Obo.FailedMissLeavesKeyEmpty | obo/OboMiddleware.cs:68-77 | a failed exchange on a miss fails the request with that error and leaves the key empty |
| Obo.NullExpiryIs500 | obo/OboMiddleware.cs:68-77 | a derived token whose `exp` element is null makes `onSet` throw: 500 although the exchange succeeded, and nothing is kept |
| Obo.WideExpiryIsNotKept | obo/OboMiddleware.cs:74-76 | a derived token whose `exp` is outside int range gets expiry 0: it is still served but never kept |
| Obo.HitChecksAudience | obo/OboMiddleware.cs:57-67 | a hit with a different recorded audience is 403 and a matching one gives the cached token; neither exchanges nor changes the cache |
| Obo.FailedExchangeIs500 | obo/OboMiddleware.cs:105-117 | on the direct branch, a non-success response, a missing or null `access_token` is answered with 500 "Internal server error." |
| Obo.CredentialErrorKeepsStatus | obo/OboMiddleware.cs:153-158 | a typed resolver error (the 403 for an unprovisioned tenant) keeps its status and message, and no request is sent |
| Obo.AsWrittenIgnoresAudience | obo/OboMiddleware.cs:47-63 | as written, of two whole requests of the same user, each with its own header and token, the second is served the first's cached token within the entry's life, with no exchange, whatever its `aud` claim |
| Obo.AudienceClaimIsolates | obo/OboMiddleware.cs:46-63 | reading the audience from `aud`, a second request of the same user, with its own header and a token whose `aud` differs, is refused with 403 and nothing is exchanged |
| Obo.OboMiddleware.constructor | Program.cs:23-30 | the cache and the authentication scheme exist exactly when the configured size is positive, and start empty |
| Obo.OboMiddleware.GetOboTokenFromCache | obo/OboMiddleware.cs:27-80 | the result is `FromCache` with the audience read from `oid`; the cache is left as the miss (if any) leaves it and the validator registry as authentication leaves it |
| Obo.OboMiddleware.InvokeAsync | obo/OboMiddleware.cs:123-170 | the response is `Respond(Pipeline(...))` against the cache as it was; `obo-token` is added and `next` runs only on forwarding; a rejection writes its status and message; the cache and registry after are stated |
| LegacyObo.GetTenantId | OboMiddleware.cs:21-32 | null when `tid` is absent, otherwise its string form; an exception when the token cannot be decoded |
| LegacyObo.LegacyPipeline | OboMiddleware.cs:71-96 | no header exactly when there is no Authorization value; an exchange only for a non-empty tenant, with the fixed scope and the token the header gives |
| LegacyObo.LegacyRespond | OboMiddleware.cs:73-104 | 401 for no header, 403 "The Bearer Token must contain a tid (Tenant ID)." for no tenant; forwards exactly a successful exchange when `obo-token` is not yet set; everything else 500 |
| LegacyObo.NullHeaderIs401 | OboMiddleware.cs:72-78 | no Authorization value gives 401 and no exchange |
| LegacyObo.MissingTenantIs403 | OboMiddleware.cs:82-88 | a `tid` that is absent, null or empty gives 403 and no exchange |
| LegacyObo.ExchangeUsesFixedScope | OboMiddleware.cs:39-47 | the form always asks for `https://graph.microsoft.com/chat.read` with `requested_token_use=on_behalf_of` |
| LegacyObo.FailedExchangeIs500 | OboMiddleware.cs:53-64 | every failed exchange is 500, the resolver's 403 included |
| LegacyObo.SingleHeaderLikeNewer | OboMiddleware.cs:72-82 | with one Authorization value, the tenant and the assertion are those the newer revision derives |
| LegacyObo.LegacyOboMiddleware.constructor | OboMiddleware.cs:10-19 | the middleware keeps its collaborators |
| LegacyObo.LegacyOboMiddleware.InvokeAsync | OboMiddleware.cs:67-108 | the response is `LegacyRespond(LegacyPipeline(...))`; `obo-token` is set and `next` runs only after a successful exchange; a rejection writes its status and message |
| Subscriptions.GetOboToken | Controllers/SubscriptionsController.cs:21-29 | the stored value exactly when `obo-token` is present and a string, null otherwise |
| Subscriptions.GetOboTokenReadsStored | Controllers/SubscriptionsController.cs:21-29 | what the middleware stores is what the controller reads |
| Subscriptions.NegotiateUrl | Controllers/SubscriptionsController.cs:69-74 | the negotiate URL always ends with `&negotiateVersion=1` |
| Subscriptions.NegotiateUrlWithoutPatterns | Controllers/SubscriptionsController.cs:69-74 | a URL with none of the four patterns is returned unchanged apart from the suffix |
| Subscriptions.Relay | Controllers/SubscriptionsController.cs:39-46 | success exactly for a 2xx response with parsable JSON, and then that JSON; every failure is a plain exception |
| Subscriptions.Patch | Controllers/SubscriptionsController.cs:90-118 | the renewal is sent with the stored token; a failure is 500 "Internal server error.", and success returns the subscription |
| Subscriptions.Create | Controllers/SubscriptionsController.cs:120-153 | 200 exactly when creation, the notification URL and negotiation all succeed; otherwise 500 "Internal server error." |
| Subscriptions.RejectedCreateIs500 | Controllers/SubscriptionsController.cs:41-44 | a non-success answer to the creation request is 500 |

## Findings

| source | as written | input that shows it | evidently intended | confidence | as-written member | corrected member |
|---|---|---|---|---|---|---|
| cache/InMemoryCache.cs:11 | `Config.CACHE_SIZE_IN_MB * 1024 * 1024` is computed in 32-bit `int` before it is widened to the `long` limit | `CACHE_SIZE_IN_MB = 2048` gives -2147483648 (the options setter rejects a negative limit); `4096` gives 0 (no entry fits) | the configured megabytes in bytes, computed in `long` | not executed | TokenCache.SizeLimitAsWritten (counterexample: TokenCache.SizeLimitAsWrittenOverflows) | TokenCache.SizeLimit (used by TokenCache.InMemoryCache.constructor) |

## Left out

- HTTP transport, form encoding and JSON parsing: these are foreign. Responses are the `Sender` and `GraphSender` oracles, and a body is seen through its parse (`Json`).
- Token decoding, signature and lifetime checking, clock skew, and OpenID discovery and refresh: these are library calls. They are the `ValidatorEnv` oracles. `TokenValidator.Honours` states what the model assumes of the library.
- Azure Key Vault, `DefaultAzureCredential` and `NetBricks.Config`: these are foreign lookups. They are the `SecretStore` oracle and the `Environment` map.
- Concurrency: request coalescing in `GetOrCreateAsync` and `ConcurrentDictionary.GetOrAdd` belongs to the library, and the model is single-threaded.
- TokenCache.InMemoryCache.GetOrSet: does not model admission and compaction against the size limit. A slot's size is recorded, but which entries `MemoryCache` drops under the budget is library behaviour.
- TokenCache.InMemoryCache.GetOrSet: the `?? throw` of cache/InMemoryCache.cs:30 is not modelled. The one `onSet` in the broker never returns null, so a null value cannot arise in the model.
- TokenCache.LookupIn: the clock is in whole Unix seconds. `DateTimeOffset`'s sub-second ticks are not modelled.
- CacheEntries.CacheEntry.Length: counts Unicode scalar values, where C# `.Length` counts UTF-16 code units, so a character outside the Basic Multilingual Plane weighs 1 here and 2 there. It is also unbounded, so the `int` overflow of a sum above 2^31 - 1 is not modelled.
- Text.ReplaceAll: `InvariantCultureIgnoreCase` is modelled as ASCII case folding. Non-ASCII case mappings and culture-specific matching are not modelled.
- Text.ParseInt32: does not model the current culture's sign symbols, or .NET's acceptance of trailing NUL characters.
- Claims.TryGetString: an element that is not null but whose `ToString()` returns null cannot be represented. Such an element makes the source return `false`, not throw. The values a decoded payload holds (strings, numbers, booleans, JSON elements) all have a non-null string form.
- TokenValidator.ValidatedTokenIsTrusted: the library's clock-skew allowance (five minutes by default) is not modelled, so "unexpired" is stated against the exact clock.
- The texts of plain exceptions (for instance the status name in `{StatusCode}: {content}`, and the legacy revision's own messages) are never shown to a caller. `OboExchange.ReadAccessToken` and `Subscriptions.Relay` give them approximately. The legacy revision reuses `OboExchange.ExchangeToken`: its `EnsureSuccessStatusCode` and its own messages end in the same 500.
- Subscriptions.Create: a `notificationUrl` that is not a JSON string is modelled as an error. The source's dynamic conversion of other JSON kinds is not modelled.
- The request bodies of `Create` and `Patch` are parameters, and the serialized response payloads are represented by the parsed JSON they contain.
- Program.cs wiring (DI, Kestrel, Swagger, middleware order), Config.cs, config/Config.cs and config/IConfig.cs: these only configure. The `CACHE_SIZE_IN_MB > 0` switch is the `cacheSizeInMegabytes` argument of `Obo.OboMiddleware.constructor`.
- obo/ICredentials.cs, cache/ICache.cs, auth/ITokenValidator.cs: interfaces with no logic. HttpException.cs is the `HttpError` failure.
- Logging: has no behaviour. `Guid.NewGuid()` is the `guid` parameter.
- wwwroot/authConfig.js, wwwroot/authPopup.js: the browser client, which is not part of the broker.
