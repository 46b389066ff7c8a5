/** The on-behalf-of exchange against the tenant's token endpoint
    (`GetOboTokenFromAzure` in obo/OboMiddleware.cs, `GetOnBehalfOfToken`
    in OboMiddleware.cs). The HTTP call is the oracle `send`. */
module OboExchange {
  import opened Wrappers
  import opened Text
  import opened Http
  import opened Credentials

  /** A form-encoded POST to the token endpoint. */
  datatype TokenRequest = TokenRequest(url: string, form: seq<(string, string)>)

  /** `HttpClient.SendAsync`: the response, or `None` when the call throws. */
  type Sender = TokenRequest -> Option<HttpResponse>

  /** `ICredentials.GetForTenant`, whichever resolver is configured. */
  type Resolver = string -> Result<CredentialPair>

  const JwtBearerGrant: string := "urn:ietf:params:oauth:grant-type:jwt-bearer"

  function TokenUrl(tenantId: string): string {
    "https://login.microsoftonline.com/" + tenantId + "/oauth2/v2.0/token"
  }

  /** The six form fields, in order. */
  function ExchangeForm(pair: CredentialPair, assertion: string, scope: string): (form: seq<(string, string)>)
    ensures |form| == 6
    ensures form[0] == ("grant_type", JwtBearerGrant)
    ensures form[1] == ("client_id", pair.clientId) && form[2] == ("client_secret", pair.clientSecret)
    ensures form[3] == ("assertion", assertion) && form[4] == ("scope", scope)
    ensures form[5] == ("requested_token_use", "on_behalf_of")
  {
    [ ("grant_type", JwtBearerGrant),
      ("client_id", pair.clientId),
      ("client_secret", pair.clientSecret),
      ("assertion", assertion),
      ("scope", scope),
      ("requested_token_use", "on_behalf_of") ]
  }

  const NoAccessTokenMessage: string := "no access_token was not found in the OBO token response."
  const EmptyAccessTokenMessage: string := "the access token found in OBO token was empty."
  const SendFailedMessage: string := "the request to the token endpoint failed."
  const NotJsonMessage: string := "the OBO token response is not valid JSON."
  const NotObjectMessage: string := "the OBO token response is not a JSON object."
  const NotStringMessage: string := "the access_token in the OBO token response is not a string."

  /** Lines 102-117 of obo/OboMiddleware.cs: the access token from the
      response, or the plain exception the code throws. */
  function ReadAccessToken(response: Option<HttpResponse>): (r: Result<string>)
    ensures r.Err? ==> r.failure.Exception?
    ensures r.Ok? <==> (response.Some? && IsSuccessStatusCode(response.value.status)
      && response.value.json.JsonObject? && "access_token" in response.value.json.fields
      && response.value.json.fields["access_token"].JString?)
    ensures r.Ok? ==> r.value == response.value.json.fields["access_token"].text
  {
    match response
    case None => Err(Exception(SendFailedMessage))
    case Some(resp) =>
      if !IsSuccessStatusCode(resp.status) then Err(Exception(ShowInt(resp.status) + ": " + resp.content))
      else
        match resp.json
        case Malformed => Err(Exception(NotJsonMessage))
        case JsonNonObject => Err(Exception(NotObjectMessage))
        case JsonObject(fields) =>
          if "access_token" !in fields then Err(Exception(NoAccessTokenMessage))
          else
            match fields["access_token"]
            case JNull => Err(Exception(EmptyAccessTokenMessage))
            case JOther => Err(Exception(NotStringMessage))
            case JString(token) => Ok(token)
  }

  /** One exchange: the tenant whose credentials were resolved, the
      request sent (none when resolution failed) and the result. */
  datatype Attempt = Attempt(tenantId: string, sent: Option<TokenRequest>, result: Result<string>)

  /** `GetOboTokenFromAzure(tenantId, origToken)` with the configured scope. */
  function ExchangeToken(tenantId: string, assertion: string, scope: string, resolve: Resolver, send: Sender): (a: Attempt)
    ensures a.tenantId == tenantId
    ensures resolve(tenantId).Err? ==> a.sent == None && a.result == Err(resolve(tenantId).failure)
    ensures resolve(tenantId).Ok? ==>
      a.sent == Some(TokenRequest(TokenUrl(tenantId), ExchangeForm(resolve(tenantId).value, assertion, scope)))
      && a.result == ReadAccessToken(send(a.sent.value))
  {
    match resolve(tenantId)
    case Err(f) => Attempt(tenantId, None, Err(f))
    case Ok(pair) =>
      var request := TokenRequest(TokenUrl(tenantId), ExchangeForm(pair, assertion, scope));
      Attempt(tenantId, Some(request), ReadAccessToken(send(request)))
  }

  /** A rejected exchange (for instance a 400 for a malformed assertion) is
      a plain exception, not a typed error with the upstream status. */
  lemma RejectedExchangeIsPlainError(tenantId: string, assertion: string, scope: string, resolve: Resolver, send: Sender)
    requires resolve(tenantId).Ok?
    requires var a := ExchangeToken(tenantId, assertion, scope, resolve, send);
      send(a.sent.value).Some? && !IsSuccessStatusCode(send(a.sent.value).value.status)
    ensures ExchangeToken(tenantId, assertion, scope, resolve, send).result.Err?
    ensures ExchangeToken(tenantId, assertion, scope, resolve, send).result.failure.Exception?
  {
  }
}
