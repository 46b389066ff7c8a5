/** The older revision of the middleware (OboMiddleware.cs): no cache and
    no authentication step, the tenant read with `TryGetValue`, a fixed
    scope, and every exception, a typed one included, answered with 500. */
module LegacyObo {
  import opened Wrappers
  import opened Claims
  import opened Http
  import opened OboExchange
  import opened TokenValidator

  const LegacyScope: string := "https://graph.microsoft.com/chat.read"
  const NoBearerMessage: string := "You must provide a Bearer Token in the Authorization header."
  const NoTenantMessage: string := "The Bearer Token must contain a tid (Tenant ID)."

  /** The decoder, the credential resolver and the HTTP client. */
  datatype LegacyDeps = LegacyDeps(read: string -> Option<Payload>, resolve: Resolver, send: Sender)

  /** `GetTenantId(token)` (lines 21-32): the string form of `tid`, null when
      the claim is absent; the decoder throwing is an exception. */
  function GetTenantId(token: string, read: string -> Option<Payload>): (r: Result<Option<string>>)
    ensures r.Err? <==> read(token).None?
    ensures r.Ok? && "tid" !in read(token).value ==> r.value == None
    ensures r.Ok? && "tid" in read(token).value ==> r.value == read(token).value["tid"]
  {
    match read(token)
    case None => Err(Exception(UnreadableTokenMessage))
    case Some(p) => Ok(if "tid" in p then p["tid"] else None)
  }

  /** How one request ends before the response is written. */
  datatype LegacyTrace =
    | NoHeader
    | NoTenant
    | Crashed(failure: Failure)
    | Exchanged(attempt: Attempt)

  /** The `try` block of `InvokeAsync` (lines 71-96) up to `Items.Add`.
      `GetOnBehalfOfToken` (lines 34-65) is the shared exchange with the
      fixed scope. */
  function LegacyPipeline(authorization: seq<string>, d: LegacyDeps): (t: LegacyTrace)
    ensures t.NoHeader? <==> authorization == []
    ensures t.Exchanged? ==> (authorization != [] &&
      var origToken := StripBearer(HeaderString(authorization).value);
      var tenantId := GetTenantId(origToken, d.read);
      && tenantId.Ok? && tenantId.value.Some? && tenantId.value.value != ""
      && t.attempt == ExchangeToken(tenantId.value.value, origToken, LegacyScope, d.resolve, d.send))
  {
    match HeaderString(authorization)
    case None => NoHeader
    case Some(authHeader) =>
      var origToken := StripBearer(authHeader);
      match GetTenantId(origToken, d.read)
      case Err(f) => Crashed(f)
      case Ok(tenantId) =>
        if tenantId == None || tenantId == Some("") then NoTenant
        else Exchanged(ExchangeToken(tenantId.value, origToken, LegacyScope, d.resolve, d.send))
  }

  /** Lines 73-104: the two direct replies, `Items.Add`, and the single catch block. */
  function LegacyRespond(t: LegacyTrace, items: map<string, Item>): (response: Response)
    ensures t.NoHeader? ==> response == Reject(401, NoBearerMessage)
    ensures t.NoTenant? ==> response == Reject(403, NoTenantMessage)
    ensures response.Forward? <==> t.Exchanged? && t.attempt.result.Ok? && OboTokenKey !in items
    ensures response.Forward? ==> response.token == t.attempt.result.value
    ensures t.Crashed? || (t.Exchanged? && !response.Forward?) ==> response == Reject(500, InternalErrorMessage)
  {
    match t
    case NoHeader => Reject(401, NoBearerMessage)
    case NoTenant => Reject(403, NoTenantMessage)
    case Crashed(_) => Reject(500, InternalErrorMessage)
    case Exchanged(a) =>
      if a.result.Ok? && OboTokenKey !in items then Forward(a.result.value) else Reject(500, InternalErrorMessage)
  }

  /** A request without an Authorization value: 401, with no exchange. */
  lemma NullHeaderIs401(authorization: seq<string>, d: LegacyDeps, items: map<string, Item>)
    requires authorization == []
    ensures LegacyPipeline(authorization, d) == NoHeader
    ensures LegacyRespond(LegacyPipeline(authorization, d), items) == Reject(401, NoBearerMessage)
  {
  }

  /** A `tid` that is absent, null or empty: 403, with no exchange. */
  lemma MissingTenantIs403(authorization: seq<string>, d: LegacyDeps, items: map<string, Item>)
    requires authorization != []
    requires var p := d.read(StripBearer(HeaderString(authorization).value));
      p.Some? && ("tid" !in p.value || p.value["tid"] == None || p.value["tid"] == Some(""))
    ensures LegacyPipeline(authorization, d) == NoTenant
    ensures LegacyRespond(LegacyPipeline(authorization, d), items) == Reject(403, NoTenantMessage)
  {
  }

  /** An exchange, when it is sent, asks for the fixed scope on behalf of the user. */
  lemma ExchangeUsesFixedScope(authorization: seq<string>, d: LegacyDeps)
    requires LegacyPipeline(authorization, d).Exchanged? && LegacyPipeline(authorization, d).attempt.sent.Some?
    ensures var form := LegacyPipeline(authorization, d).attempt.sent.value.form;
      |form| == 6 && form[4] == ("scope", LegacyScope) && form[5] == ("requested_token_use", "on_behalf_of")
  {
  }

  /** Every failed exchange is a 500, including the resolver's 403, which
      the newer revision passes through. */
  lemma FailedExchangeIs500(authorization: seq<string>, d: LegacyDeps, items: map<string, Item>)
    requires LegacyPipeline(authorization, d).Exchanged? && LegacyPipeline(authorization, d).attempt.result.Err?
    ensures LegacyRespond(LegacyPipeline(authorization, d), items) == Reject(500, InternalErrorMessage)
  {
  }

  /** With a single Authorization value, the tenant and the assertion are
      the ones the newer revision derives from it. */
  lemma SingleHeaderLikeNewer(value: string, d: LegacyDeps, payload: Payload, tenantId: string)
    requires d.read(StripBearer(value)) == Some(payload) && TryGetString(payload, "tid") == Ok(Some(tenantId))
    ensures LegacyPipeline([value], d) == Exchanged(ExchangeToken(tenantId, StripBearer(value), LegacyScope, d.resolve, d.send))
  {
  }

  class LegacyOboMiddleware {
    const deps: LegacyDeps

    constructor (deps: LegacyDeps)
      ensures this.deps == deps
    {
      this.deps := deps;
    }

    /** `InvokeAsync(context)`: `next` runs and `obo-token` is set only after
        a successful exchange. */
    method InvokeAsync(context: HttpContext) returns (response: Response)
      modifies context
      ensures response == LegacyRespond(LegacyPipeline(context.authorization, deps), old(context.items))
      ensures response.Forward? ==>
        context.items == old(context.items)[OboTokenKey := StringItem(response.token)] && context.nextInvoked
        && context.statusCode == old(context.statusCode) && context.body == old(context.body)
      ensures response.Reject? ==>
        context.items == old(context.items) && context.nextInvoked == old(context.nextInvoked)
        && context.statusCode == response.status && context.body == old(context.body) + response.message
    {
      var d := deps;
      var authHeader := HeaderString(context.authorization);
      if authHeader.None? {
        response := Reject(401, NoBearerMessage);
        context.Finish(response);
        return;
      }
      var origToken := StripBearer(authHeader.value);
      var tenantId := GetTenantId(origToken, d.read);
      if tenantId.Err? {
        response := Reject(500, InternalErrorMessage);
      } else if tenantId.value == None || tenantId.value == Some("") {
        response := Reject(403, NoTenantMessage);
      } else {
        var oboToken := ExchangeToken(tenantId.value.value, origToken, LegacyScope, d.resolve, d.send).result;
        if oboToken.Err? || OboTokenKey in context.items {
          response := Reject(500, InternalErrorMessage);
        } else {
          response := Forward(oboToken.value);
        }
      }
      context.Finish(response);
    }
  }
}
