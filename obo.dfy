/** The request pipeline of the broker (obo/OboMiddleware.cs).

    `Pipeline` is what one request amounts to: the result (the derived token
    or the error thrown), the exchange attempted, the cache miss handled and
    the tenant the authentication step ran for. `Respond` maps the result to
    the response the catch blocks write. The class `OboMiddleware` runs the
    request step by step against the shared cache and validator and is
    proved to agree with both. */
module Obo {
  import opened Wrappers
  import opened Text
  import opened Claims
  import opened CacheEntries
  import opened TokenCache
  import opened TokenValidator
  import opened Authentication
  import opened Http
  import opened OboExchange

  const NoBearerMessage: string := "You must provide a Bearer Token in the Authorization header."
  const NoTidMessage: string := "You must provide a Bearer Token that contains the tid element."
  const NotValidatedMessage: string := "The provided Bearer Token could not be validated."
  const NoOidMessage: string := "You must provide a Bearer Token that contains the oid element."
  const NoAudMessage: string := "You must provide a Bearer Token that contains the aud element."
  const AudMismatchMessage: string := "The aud in the Bearer Token does not appear to be valid."
  const UnreadableOboTokenMessage: string := "the OBO token could not be read as a JWT."

  /** The scheme `AuthenticateAsync` is asked for. */
  const AuthScheme: string := "multi-auth"

  /** The claim line 47 reads for the audience: `oid`, not `aud`. */
  const AudClaimAsWritten: string := "oid"

  /** The middleware's collaborators: the token decoder and validator
      oracles, the configured credential resolver, the HTTP client and
      `config.SCOPE`. */
  datatype Deps = Deps(env: ValidatorEnv, resolve: Resolver, send: Sender, scope: string)

  /** The cache as one request sees it: its map and the clock, in Unix seconds. */
  datatype CacheView = CacheView(entries: map<string, Slot>, now: int)

  /** One request: its result, the exchange it attempted, the miss it
      handled (key and factory result) and the tenant it authenticated. */
  datatype Trace = Trace(
    result: Result<string>,
    attempt: Option<Attempt>,
    miss: Option<(string, Result<CacheEntry>)>,
    authenticated: Option<string>)

  /** Line 53. */
  function CacheKey(tenantId: string, oid: string): (key: string)
    ensures |key| == |tenantId| + 1 + |oid|
    ensures key[..|tenantId|] == tenantId && key[|tenantId|] == ':' && key[|tenantId| + 1..] == oid
  {
    tenantId + ":" + oid
  }

  /** Tenant ids hold no colon (they are GUIDs), so two different
      (tenant, oid) pairs never share a key. */
  lemma CacheKeyInjective(t1: string, o1: string, t2: string, o2: string)
    requires ':' !in t1 && ':' !in t2
    requires CacheKey(t1, o1) == CacheKey(t2, o2)
    ensures t1 == t2 && o1 == o2
  {
  }

  /** Lines 72-75: the expiry of a derived token, its `exp`, or 0 when that
      does not parse. The decoder throwing, or a null `exp` element, is an
      exception. */
  function ExpiryOf(oboToken: string, read: string -> Option<Payload>): (r: Result<int>)
    ensures r.Err? <==> read(oboToken).None? || TryGetInt(read(oboToken).value, "exp").Err?
    ensures read(oboToken).Some? && TryGetInt(read(oboToken).value, "exp").Err? ==> r == Err(Exception(NullReferenceMessage))
    ensures r.Ok? ==> IsInt32(r.value)
    ensures r.Ok? && TryGetInt(read(oboToken).value, "exp") == Ok(None) ==> r.value == 0
    ensures r.Ok? && TryGetInt(read(oboToken).value, "exp").value.Some? ==> r.value == TryGetInt(read(oboToken).value, "exp").value.value
  {
    match read(oboToken)
    case None => Err(Exception(UnreadableOboTokenMessage))
    case Some(p) =>
      match TryGetInt(p, "exp")
      case Err(f) => Err(f)
      case Ok(exp) => Ok(exp.GetOr(0))
  }

  /** The `onSet` factory of lines 68-77, given what the exchange returned. */
  function MakeEntry(exchange: Result<string>, aud: string, read: string -> Option<Payload>): (r: Result<CacheEntry>)
    ensures exchange.Err? ==> r == Err(exchange.failure)
    ensures exchange.Ok? && ExpiryOf(exchange.value, read).Err? ==> r == Err(ExpiryOf(exchange.value, read).failure)
    ensures r.Ok? <==> exchange.Ok? && ExpiryOf(exchange.value, read).Ok?
    ensures r.Ok? ==> (r.value.oboToken == exchange.value && r.value.origAud == aud
      && Ok(r.value.expiry) == ExpiryOf(exchange.value, read))
  {
    match exchange
    case Err(f) => Err(f)
    case Ok(token) =>
      match ExpiryOf(token, read)
      case Err(f) => Err(f)
      case Ok(expiry) => Ok(CacheEntry(token, aud, expiry))
  }

  /** The `onGet` callback of lines 57-67. */
  function AudCheck(aud: string, entry: CacheEntry): (o: Outcome)
    ensures o.Pass? <==> entry.origAud == aud
    ensures o.Raise? ==> o.failure == HttpError(403, AudMismatchMessage)
  {
    if entry.origAud != aud then Raise(HttpError(403, AudMismatchMessage)) else Pass
  }

  /** `GetOboTokenFromCache` (lines 27-80), with the claim the audience is
      read from as a parameter. Authentication always runs, for the tenant;
      an exchange happens only on a miss, and always for this tenant and
      the caller's own token. */
  function FromCache(authorization: seq<string>, tenantId: string, origToken: string, payload: Payload,
                     d: Deps, view: CacheView, audClaim: string): (t: Trace)
    ensures t.authenticated == Some(tenantId)
    ensures t.result.Ok? ==> Authenticate(authorization, d.env, AuthScheme, view.now).Success?
    ensures t.miss.Some? <==> t.attempt.Some?
    ensures t.attempt.Some? ==>
      t.attempt.value == ExchangeToken(tenantId, origToken, d.scope, d.resolve, d.send)
      && LookupIn(view.entries, t.miss.value.0, view.now).None?
  {
    if !Authenticate(authorization, d.env, AuthScheme, view.now).Success? then
      Trace(Err(HttpError(401, NotValidatedMessage)), None, None, Some(tenantId))
    else
      match TryGetString(payload, "oid")
      case Err(f) => Trace(Err(f), None, None, Some(tenantId))
      case Ok(None) => Trace(Err(HttpError(403, NoOidMessage)), None, None, Some(tenantId))
      case Ok(Some(oid)) =>
        match TryGetString(payload, audClaim)
        case Err(f) => Trace(Err(f), None, None, Some(tenantId))
        case Ok(None) => Trace(Err(HttpError(403, NoAudMessage)), None, None, Some(tenantId))
        case Ok(Some(aud)) =>
          var key := CacheKey(tenantId, oid);
          match LookupIn(view.entries, key, view.now)
          case Some(entry) =>
            var r := if AudCheck(aud, entry).Raise? then Err(AudCheck(aud, entry).failure) else Ok(entry.oboToken);
            Trace(r, None, None, Some(tenantId))
          case None =>
            var a := ExchangeToken(tenantId, origToken, d.scope, d.resolve, d.send);
            var made := MakeEntry(a.result, aud, d.env.read);
            var r := match made case Ok(e) => Ok(e.oboToken) case Err(f) => Err(f);
            Trace(r, Some(a), Some((key, made)), Some(tenantId))
  }

  /** The `try` block of `InvokeAsync` (lines 127-151) up to `Items.Add`;
      `cache` is `None` when no cache is configured. Only a request with an
      Authorization value succeeds, and authentication and the cache are
      touched only when a cache is configured. */
  function Pipeline(authorization: seq<string>, d: Deps, cache: Option<CacheView>): (t: Trace)
    ensures t.result.Ok? ==> authorization != []
    ensures t.authenticated.Some? ==> cache.Some?
    ensures t.miss.Some? ==> cache.Some? && t.attempt.Some?
  {
    match FirstHeader(authorization)
    case None => Trace(Err(HttpError(401, NoBearerMessage)), None, None, None)
    case Some(header) =>
      var origToken := StripBearer(header);
      match d.env.read(origToken)
      case None => Trace(Err(Exception(UnreadableTokenMessage)), None, None, None)
      case Some(payload) =>
        match TryGetString(payload, "tid")
        case Err(f) => Trace(Err(f), None, None, None)
        case Ok(None) => Trace(Err(HttpError(403, NoTidMessage)), None, None, None)
        case Ok(Some(tenantId)) =>
          match cache
          case None =>
            var a := ExchangeToken(tenantId, origToken, d.scope, d.resolve, d.send);
            Trace(a.result, Some(a), None, None)
          case Some(view) => FromCache(authorization, tenantId, origToken, payload, d, view, AudClaimAsWritten)
  }

  /** Lines 151-166: `Items.Add` (which throws on a key already present),
      then the two catch blocks. */
  function Respond(r: Result<string>, items: map<string, Item>): (response: Response)
    ensures response.Forward? <==> r.Ok? && OboTokenKey !in items
    ensures response.Forward? ==> response.token == r.value
    ensures r.Err? && r.failure.HttpError? ==> response == Reject(r.failure.status, r.failure.message)
    ensures r.Err? && r.failure.Exception? ==> response == Reject(500, InternalErrorMessage)
    ensures r.Ok? && OboTokenKey in items ==> response == Reject(500, InternalErrorMessage)
  {
    match r
    case Err(HttpError(status, message)) => Reject(status, message)
    case Err(Exception(_)) => Reject(500, InternalErrorMessage)
    case Ok(token) => if OboTokenKey in items then Reject(500, InternalErrorMessage) else Forward(token)
  }

  /** The cache map after a request. */
  function CacheAfter(m: map<string, Slot>, now: int, miss: Option<(string, Result<CacheEntry>)>): map<string, Slot> {
    match miss
    case None => m
    case Some((key, made)) => AfterMiss(m, key, now, made)
  }

  /** The validator's registry after a request. */
  function RegistryAfter(managers: map<string, ConfigManager>, authenticated: Option<string>): map<string, ConfigManager> {
    match authenticated
    case None => managers
    case Some(tenantId) => GetOrAdd(managers, tenantId).1
  }

  // ----- properties of one request -----

  /** No Authorization value: 401, and no exchange, cache access or authentication. */
  lemma NoHeaderIs401(authorization: seq<string>, d: Deps, cache: Option<CacheView>, items: map<string, Item>)
    requires authorization == []
    ensures var t := Pipeline(authorization, d, cache);
      t.result == Err(HttpError(401, NoBearerMessage)) && t.attempt == None && t.miss == None && t.authenticated == None
      && Respond(t.result, items) == Reject(401, NoBearerMessage)
  {
  }

  /** A token whose `tid` is absent or empty: 403, before any credential
      lookup, exchange, authentication or cache access. */
  lemma MissingTidIs403(authorization: seq<string>, d: Deps, cache: Option<CacheView>, items: map<string, Item>)
    requires authorization != []
    requires var p := d.env.read(StripBearer(authorization[0]));
      p.Some? && ("tid" !in p.value || p.value["tid"] == Some(""))
    ensures var t := Pipeline(authorization, d, cache);
      t.result == Err(HttpError(403, NoTidMessage)) && t.attempt == None && t.miss == None && t.authenticated == None
      && Respond(t.result, items) == Reject(403, NoTidMessage)
  {
  }

  /** A null `tid` element makes `ToString()` throw: the generic catch
      answers 500, before any credential lookup, exchange, authentication
      or cache access. */
  lemma NullTidIs500(authorization: seq<string>, d: Deps, cache: Option<CacheView>, items: map<string, Item>)
    requires authorization != []
    requires var p := d.env.read(StripBearer(authorization[0]));
      p.Some? && "tid" in p.value && p.value["tid"] == None
    ensures var t := Pipeline(authorization, d, cache);
      t.result == Err(Exception(NullReferenceMessage)) && t.attempt == None && t.miss == None && t.authenticated == None
      && Respond(t.result, items) == Reject(500, InternalErrorMessage)
  {
  }

  /** With a tenant, the cache branch runs exactly when a cache is configured:
      authentication runs for the tenant on that branch, and the direct
      exchange runs otherwise. */
  lemma BranchFollowsCache(authorization: seq<string>, d: Deps, cache: Option<CacheView>, payload: Payload, tenantId: string)
    requires authorization != []
    requires d.env.read(StripBearer(authorization[0])) == Some(payload) && TryGetString(payload, "tid") == Ok(Some(tenantId))
    ensures var t := Pipeline(authorization, d, cache);
      && (t.authenticated.Some? <==> cache.Some?)
      && (cache.Some? ==> t.authenticated == Some(tenantId))
      && (cache.None? ==> t.attempt == Some(ExchangeToken(tenantId, StripBearer(authorization[0]), d.scope, d.resolve, d.send))
                          && t.result == t.attempt.value.result && t.miss == None)
  {
  }

  /** On the cache branch a token the scheme does not accept is a 401,
      before the `oid` check and before the cache is consulted. */
  lemma UnauthenticatedIs401(authorization: seq<string>, tenantId: string, origToken: string, payload: Payload,
                             d: Deps, view: CacheView, audClaim: string)
    requires !Authenticate(authorization, d.env, AuthScheme, view.now).Success?
    ensures var t := FromCache(authorization, tenantId, origToken, payload, d, view, audClaim);
      t.result == Err(HttpError(401, NotValidatedMessage)) && t.attempt == None && t.miss == None
  {
  }

  /** An authenticated token whose `oid` is absent or empty: 403, and
      nothing else happens. */
  lemma MissingOidIs403(authorization: seq<string>, tenantId: string, origToken: string, payload: Payload,
                        d: Deps, view: CacheView, audClaim: string)
    requires Authenticate(authorization, d.env, AuthScheme, view.now).Success?
    requires TryGetString(payload, "oid") == Ok(None)
    ensures var t := FromCache(authorization, tenantId, origToken, payload, d, view, audClaim);
      t.result == Err(HttpError(403, NoOidMessage)) && t.attempt == None && t.miss == None
  {
  }

  /** An authenticated token whose `oid` element is null: `ToString()`
      throws, the generic catch answers 500, and nothing else happens. */
  lemma NullOidIs500(authorization: seq<string>, tenantId: string, origToken: string, payload: Payload,
                     d: Deps, view: CacheView, audClaim: string, items: map<string, Item>)
    requires Authenticate(authorization, d.env, AuthScheme, view.now).Success?
    requires "oid" in payload && payload["oid"] == None
    ensures var t := FromCache(authorization, tenantId, origToken, payload, d, view, audClaim);
      t.result == Err(Exception(NullReferenceMessage)) && t.attempt == None && t.miss == None
      && Respond(t.result, items) == Reject(500, InternalErrorMessage)
  {
  }

  /** A miss is handled under the key `tenant:oid` with one exchange. The
      entry is made exactly when the exchange succeeds and the derived
      token's expiry can be read; it records the claim read at line 47,
      which is the `oid` itself, and the derived token's `exp`, or 0 when
      that does not parse. */
  lemma MissRecordsOidAsAudience(authorization: seq<string>, tenantId: string, origToken: string, payload: Payload,
                                 d: Deps, view: CacheView, oid: string)
    requires Authenticate(authorization, d.env, AuthScheme, view.now).Success?
    requires TryGetString(payload, "oid") == Ok(Some(oid))
    requires LookupIn(view.entries, CacheKey(tenantId, oid), view.now).None?
    ensures var t := FromCache(authorization, tenantId, origToken, payload, d, view, AudClaimAsWritten);
      && t.miss.Some? && t.miss.value.0 == tenantId + ":" + oid
      && t.attempt == Some(ExchangeToken(tenantId, origToken, d.scope, d.resolve, d.send))
      && (t.miss.value.1.Ok? <==>
            t.attempt.value.result.Ok? && ExpiryOf(t.attempt.value.result.value, d.env.read).Ok?)
      && (t.miss.value.1.Ok? ==>
            && t.miss.value.1.value.origAud == oid
            && t.result == Ok(t.miss.value.1.value.oboToken)
            && t.result == t.attempt.value.result
            && t.miss.value.1.value.expiry == TryGetInt(d.env.read(t.result.value).value, "exp").value.GetOr(0))
      && (t.miss.value.1.Err? ==> t.result == Err(t.miss.value.1.failure))
  {
  }

  /** A failed exchange on a miss fails the request with the exchange's
      own error and leaves the key empty, even if an expired entry was there. */
  lemma FailedMissLeavesKeyEmpty(authorization: seq<string>, tenantId: string, origToken: string, payload: Payload,
                                 d: Deps, view: CacheView, audClaim: string, oid: string, aud: string)
    requires Authenticate(authorization, d.env, AuthScheme, view.now).Success?
    requires TryGetString(payload, "oid") == Ok(Some(oid)) && TryGetString(payload, audClaim) == Ok(Some(aud))
    requires LookupIn(view.entries, CacheKey(tenantId, oid), view.now).None?
    requires ExchangeToken(tenantId, origToken, d.scope, d.resolve, d.send).result.Err?
    ensures var t := FromCache(authorization, tenantId, origToken, payload, d, view, audClaim);
      && t.result == ExchangeToken(tenantId, origToken, d.scope, d.resolve, d.send).result
      && CacheKey(tenantId, oid) !in CacheAfter(view.entries, view.now, t.miss)
  {
  }

  /** A derived token whose `exp` element is null makes `onSet` throw:
      the request is answered 500 although the exchange succeeded, and
      nothing is kept. */
  lemma NullExpiryIs500(authorization: seq<string>, tenantId: string, origToken: string, payload: Payload,
                        d: Deps, view: CacheView, audClaim: string, oid: string, aud: string, items: map<string, Item>)
    requires Authenticate(authorization, d.env, AuthScheme, view.now).Success?
    requires TryGetString(payload, "oid") == Ok(Some(oid)) && TryGetString(payload, audClaim) == Ok(Some(aud))
    requires LookupIn(view.entries, CacheKey(tenantId, oid), view.now).None?
    requires var a := ExchangeToken(tenantId, origToken, d.scope, d.resolve, d.send);
      a.result.Ok? && d.env.read(a.result.value).Some?
      && "exp" in d.env.read(a.result.value).value && d.env.read(a.result.value).value["exp"] == None
    ensures var t := FromCache(authorization, tenantId, origToken, payload, d, view, audClaim);
      && t.result == Err(Exception(NullReferenceMessage))
      && CacheKey(tenantId, oid) !in CacheAfter(view.entries, view.now, t.miss)
      && Respond(t.result, items) == Reject(500, InternalErrorMessage)
  {
  }

  /** A derived token whose `exp` is beyond the range of a C# int gets
      expiry 0: the request is still served, but nothing is kept, so every
      later request for the user exchanges again. */
  lemma WideExpiryIsNotKept(authorization: seq<string>, tenantId: string, origToken: string, payload: Payload,
                            d: Deps, view: CacheView, audClaim: string, oid: string, aud: string, n: int)
    requires Authenticate(authorization, d.env, AuthScheme, view.now).Success?
    requires TryGetString(payload, "oid") == Ok(Some(oid)) && TryGetString(payload, audClaim) == Ok(Some(aud))
    requires LookupIn(view.entries, CacheKey(tenantId, oid), view.now).None?
    requires 0 <= view.now && !IsInt32(n)
    requires var a := ExchangeToken(tenantId, origToken, d.scope, d.resolve, d.send);
      a.result.Ok? && d.env.read(a.result.value).Some?
      && "exp" in d.env.read(a.result.value).value && d.env.read(a.result.value).value["exp"] == Some(ShowInt(n))
    ensures var t := FromCache(authorization, tenantId, origToken, payload, d, view, audClaim);
      && t.result == ExchangeToken(tenantId, origToken, d.scope, d.resolve, d.send).result
      && t.miss.value.1.value.expiry == 0
      && CacheKey(tenantId, oid) !in CacheAfter(view.entries, view.now, t.miss)
  {
    var a := ExchangeToken(tenantId, origToken, d.scope, d.resolve, d.send);
    TryGetIntRejectsWide(d.env.read(a.result.value).value, "exp", n);
  }

  /** A hit whose recorded audience differs from the request's: 403, and
      neither an exchange nor a cache change. A hit that matches gives the
      cached token. */
  lemma HitChecksAudience(authorization: seq<string>, tenantId: string, origToken: string, payload: Payload,
                          d: Deps, view: CacheView, audClaim: string, oid: string, aud: string)
    requires Authenticate(authorization, d.env, AuthScheme, view.now).Success?
    requires TryGetString(payload, "oid") == Ok(Some(oid)) && TryGetString(payload, audClaim) == Ok(Some(aud))
    requires LookupIn(view.entries, CacheKey(tenantId, oid), view.now).Some?
    ensures var entry := LookupIn(view.entries, CacheKey(tenantId, oid), view.now).value;
      var t := FromCache(authorization, tenantId, origToken, payload, d, view, audClaim);
      && t.attempt == None && t.miss == None
      && (entry.origAud != aud ==> t.result == Err(HttpError(403, AudMismatchMessage)))
      && (entry.origAud == aud ==> t.result == Ok(entry.oboToken))
  {
  }

  /** A failed exchange on the direct branch (a non-success response, no
      `access_token`, a null one) is an exception, answered with 500. */
  lemma FailedExchangeIs500(authorization: seq<string>, d: Deps, items: map<string, Item>, payload: Payload, tenantId: string)
    requires authorization != []
    requires d.env.read(StripBearer(authorization[0])) == Some(payload) && TryGetString(payload, "tid") == Ok(Some(tenantId))
    requires d.resolve(tenantId).Ok?
    requires ReadAccessToken(d.send(TokenRequest(TokenUrl(tenantId),
      ExchangeForm(d.resolve(tenantId).value, StripBearer(authorization[0]), d.scope)))).Err?
    ensures Respond(Pipeline(authorization, d, None).result, items) == Reject(500, InternalErrorMessage)
  {
  }

  /** A typed error from the credential resolver keeps its status and message. */
  lemma CredentialErrorKeepsStatus(authorization: seq<string>, d: Deps, items: map<string, Item>, payload: Payload, tenantId: string)
    requires authorization != []
    requires d.env.read(StripBearer(authorization[0])) == Some(payload) && TryGetString(payload, "tid") == Ok(Some(tenantId))
    requires d.resolve(tenantId).Err? && d.resolve(tenantId).failure.HttpError?
    ensures var f := d.resolve(tenantId).failure;
      Pipeline(authorization, d, None).attempt.value.sent == None
      && Respond(Pipeline(authorization, d, None).result, items) == Reject(f.status, f.message)
  {
  }

  // ----- the audience read from `oid` -----

  /** As written, two requests of the same user in the same tenant, each
      with its own Authorization header and token, share the cached token
      whatever their `aud` claims are: the second is served the first's
      derived token within its life, with no exchange. */
  lemma AsWrittenIgnoresAudience(
    a1: seq<string>, a2: seq<string>, d: Deps, p1: Payload, p2: Payload, tenantId: string, oid: string,
    now: int, later: int, m: map<string, Slot>)
    requires a1 != [] && a2 != []
    requires d.env.read(StripBearer(a1[0])) == Some(p1) && d.env.read(StripBearer(a2[0])) == Some(p2)
    requires TryGetString(p1, "tid") == Ok(Some(tenantId)) && TryGetString(p2, "tid") == Ok(Some(tenantId))
    requires TryGetString(p1, "oid") == Ok(Some(oid)) && TryGetString(p2, "oid") == Ok(Some(oid))
    requires Authenticate(a1, d.env, AuthScheme, now).Success? && Authenticate(a2, d.env, AuthScheme, later).Success?
    requires LookupIn(m, CacheKey(tenantId, oid), now).None?
    ensures var t1 := Pipeline(a1, d, Some(CacheView(m, now)));
      var t2 := Pipeline(a2, d, Some(CacheView(CacheAfter(m, now, t1.miss), later)));
      t1.result.Ok? && now <= later < t1.miss.value.1.value.expiry ==> t2.result == t1.result && t2.attempt == None
  {
    var t1 := Pipeline(a1, d, Some(CacheView(m, now)));
    if t1.result.Ok? && now <= later < t1.miss.value.1.value.expiry {
      LookupAfterMiss(m, CacheKey(tenantId, oid), now, t1.miss.value.1.value, later);
    }
  }

  /** Reading the audience from `aud` instead, a second request of the
      same user whose token's `aud` differs from the recorded one is
      refused with 403. */
  lemma AudienceClaimIsolates(
    a1: seq<string>, a2: seq<string>, d: Deps, p1: Payload, p2: Payload, tenantId: string, oid: string,
    aud1: string, aud2: string, now: int, later: int, m: map<string, Slot>)
    requires a1 != [] && a2 != []
    requires d.env.read(StripBearer(a1[0])) == Some(p1) && d.env.read(StripBearer(a2[0])) == Some(p2)
    requires TryGetString(p1, "tid") == Ok(Some(tenantId)) && TryGetString(p2, "tid") == Ok(Some(tenantId))
    requires TryGetString(p1, "oid") == Ok(Some(oid)) && TryGetString(p2, "oid") == Ok(Some(oid))
    requires TryGetString(p1, "aud") == Ok(Some(aud1)) && TryGetString(p2, "aud") == Ok(Some(aud2)) && aud1 != aud2
    requires Authenticate(a1, d.env, AuthScheme, now).Success? && Authenticate(a2, d.env, AuthScheme, later).Success?
    requires LookupIn(m, CacheKey(tenantId, oid), now).None?
    ensures var t1 := FromCache(a1, tenantId, StripBearer(a1[0]), p1, d, CacheView(m, now), "aud");
      var t2 := FromCache(a2, tenantId, StripBearer(a2[0]), p2, d, CacheView(CacheAfter(m, now, t1.miss), later), "aud");
      t1.result.Ok? && now <= later < t1.miss.value.1.value.expiry ==>
        t2.result == Err(HttpError(403, AudMismatchMessage)) && t2.attempt == None
  {
    var t1 := FromCache(a1, tenantId, StripBearer(a1[0]), p1, d, CacheView(m, now), "aud");
    if t1.result.Ok? && now <= later < t1.miss.value.1.value.expiry {
      LookupAfterMiss(m, CacheKey(tenantId, oid), now, t1.miss.value.1.value, later);
    }
  }

  class OboMiddleware {
    const deps: Deps
    /** The `ICache`, present when a cache size is configured. */
    const cache: InMemoryCache?
    /** The validator behind the "multi-auth" scheme, registered with the cache. */
    const authentication: AzureAdTokenValidator?

    ghost predicate Valid()
      reads this, cache, authentication
    {
      (cache == null <==> authentication == null)
      && (cache != null ==> cache.Valid() && authentication.Valid())
    }

    /** The middleware as Program.cs:23-30 wires it: the cache and the
        authentication scheme exist exactly when the configured size is positive. */
    constructor (deps: Deps, cacheSizeInMegabytes: int)
      ensures Valid() && this.deps == deps
      ensures cache != null <==> 0 < cacheSizeInMegabytes
      ensures cache != null ==> (fresh(cache) && fresh(authentication)
        && cache.entries == map[] && authentication.configManagers == map[])
    {
      this.deps := deps;
      if 0 < cacheSizeInMegabytes {
        cache := new InMemoryCache(cacheSizeInMegabytes);
        authentication := new AzureAdTokenValidator();
      } else {
        cache := null;
        authentication := null;
      }
    }

    /** The cache as a request at time `now` sees it. */
    function View(now: int): Option<CacheView>
      reads this, cache
    {
      if cache == null then None else Some(CacheView(cache.entries, now))
    }

    /** `GetOboTokenFromCache(context, tenantId, origToken, unvalJwt)`. */
    method GetOboTokenFromCache(context: HttpContext, tenantId: string, origToken: string, payload: Payload, now: int)
      returns (r: Result<string>)
      requires Valid() && cache != null
      requires context.authorization != [] && StripBearer(context.authorization[0]) == origToken
      requires deps.env.read(origToken) == Some(payload) && TryGetString(payload, "tid") == Ok(Some(tenantId))
      modifies cache, authentication
      ensures Valid()
      ensures var t := FromCache(context.authorization, tenantId, origToken, payload, deps, CacheView(old(cache.entries), now), AudClaimAsWritten);
        && r == t.result
        && cache.entries == CacheAfter(old(cache.entries), now, t.miss)
        && authentication.configManagers == RegistryAfter(old(authentication.configManagers), t.authenticated)
    {
      var d := deps;
      ExtractTenantAgreesWithTryGetString(origToken, d.env.read);
      var authResult := HandleAuthenticate(context.authorization, AuthScheme, authentication, d.env, now);
      if !authResult.Success? {
        return Err(HttpError(401, NotValidatedMessage));
      }
      var oid := TryGetString(payload, "oid");
      if oid.Err? {
        return Err(oid.failure);
      }
      if oid.value.None? {
        return Err(HttpError(403, NoOidMessage));
      }
      var aud := TryGetString(payload, AudClaimAsWritten);
      if !aud.Ok? || aud.value.None? {
        return Err(HttpError(403, NoAudMessage));
      }
      var key := CacheKey(tenantId, oid.value.value);
      var audValue := aud.value.value;
      var onGet := Some((entry: CacheEntry) => AudCheck(audValue, entry));
      var onSet := () => MakeEntry(ExchangeToken(tenantId, origToken, d.scope, d.resolve, d.send).result, audValue, d.env.read);
      var cacheEntry, created := cache.GetOrSet(key, onGet, onSet, now);
      if cacheEntry.Err? {
        return Err(cacheEntry.failure);
      }
      r := Ok(cacheEntry.value.oboToken);
    }

    /** `InvokeAsync(context)` at time `now`. */
    method InvokeAsync(context: HttpContext, now: int) returns (response: Response)
      requires Valid()
      modifies context, cache, authentication
      ensures Valid()
      ensures var t := Pipeline(context.authorization, deps, old(View(now)));
        && response == Respond(t.result, old(context.items))
        && (cache != null ==> cache.entries == CacheAfter(old(cache.entries), now, t.miss))
        && (authentication != null ==>
             authentication.configManagers == RegistryAfter(old(authentication.configManagers), t.authenticated))
      ensures response.Forward? ==>
        context.items == old(context.items)[OboTokenKey := StringItem(response.token)] && context.nextInvoked
        && context.statusCode == old(context.statusCode) && context.body == old(context.body)
      ensures response.Reject? ==>
        context.items == old(context.items) && context.nextInvoked == old(context.nextInvoked)
        && context.statusCode == response.status && context.body == old(context.body) + response.message
    {
      var d := deps;
      var result: Result<string>;
      var header := FirstHeader(context.authorization);
      if header.None? {
        result := Err(HttpError(401, NoBearerMessage));
      } else {
        var origToken := StripBearer(header.value);
        var unvalJwt := d.env.read(origToken);
        if unvalJwt.None? {
          result := Err(Exception(UnreadableTokenMessage));
        } else {
          var tenantId := TryGetString(unvalJwt.value, "tid");
          if tenantId.Err? {
            result := Err(tenantId.failure);
          } else if tenantId.value.None? {
            result := Err(HttpError(403, NoTidMessage));
          } else if cache != null {
            result := GetOboTokenFromCache(context, tenantId.value.value, origToken, unvalJwt.value, now);
          } else {
            result := ExchangeToken(tenantId.value.value, origToken, d.scope, d.resolve, d.send).result;
          }
        }
      }
      response := Respond(result, context.items);
      context.Finish(response);
    }
  }
}
