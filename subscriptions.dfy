/** The downstream controller (Controllers/SubscriptionsController.cs): how
    it reads the derived token, how it rewrites a subscription's
    notification URL into the endpoint's negotiate URL, and how its two
    actions answer. The Graph calls are the oracle `send`; the GUID is a
    parameter. */
module Subscriptions {
  import opened Wrappers
  import opened Text
  import opened Http

  /** `GetOboToken()`: the stored value when it is a string, null otherwise. */
  function GetOboToken(items: map<string, Item>): (r: Option<string>)
    ensures r.Some? <==> OboTokenKey in items && items[OboTokenKey].StringItem?
    ensures r.Some? ==> items[OboTokenKey] == StringItem(r.value)
  {
    if OboTokenKey in items && items[OboTokenKey].StringItem? then Some(items[OboTokenKey].text) else None
  }

  /** What the middleware stores is what the controller reads. */
  lemma GetOboTokenReadsStored(items: map<string, Item>, token: string)
    ensures GetOboToken(items[OboTokenKey := StringItem(token)]) == Some(token)
  {
  }

  const NegotiateVersionSuffix: string := "&negotiateVersion=1"

  /** The rewrite of lines 69-74, each step an ordinal replace-all; the
      result always ends with the version parameter. */
  function NegotiateUrl(notificationUrl: string, guid: string): (u: string)
    ensures |u| >= |NegotiateVersionSuffix| && u[|u| - |NegotiateVersionSuffix|..] == NegotiateVersionSuffix
  {
    var noScheme := ReplaceAll(notificationUrl, "websockets:", "", Ordinal);
    var beta := ReplaceAll(noScheme, "/1.0/", "/beta/", Ordinal);
    var negotiate := ReplaceAll(beta, "?groupid=", "/negotiate?groupid=", Ordinal);
    var session := ReplaceAll(negotiate, "sessionid=default", "sessionid=" + guid, Ordinal);
    session + NegotiateVersionSuffix
  }

  /** A URL holding none of the four patterns only gains the suffix. */
  lemma NegotiateUrlWithoutPatterns(notificationUrl: string, guid: string)
    requires !Contains(notificationUrl, "websockets:", Ordinal)
    requires !Contains(notificationUrl, "/1.0/", Ordinal)
    requires !Contains(notificationUrl, "?groupid=", Ordinal)
    requires !Contains(notificationUrl, "sessionid=default", Ordinal)
    ensures NegotiateUrl(notificationUrl, guid) == notificationUrl + NegotiateVersionSuffix
  {
    ReplaceAllWithoutMatch(notificationUrl, "websockets:", "", Ordinal);
    ReplaceAllWithoutMatch(notificationUrl, "/1.0/", "/beta/", Ordinal);
    ReplaceAllWithoutMatch(notificationUrl, "?groupid=", "/negotiate?groupid=", Ordinal);
    ReplaceAllWithoutMatch(notificationUrl, "sessionid=default", "sessionid=" + guid, Ordinal);
  }

  // ----- the two actions -----

  /** An outgoing Graph request with its Authorization value. */
  datatype GraphRequest = GraphRequest(verb: string, url: string, authorization: string, body: string)

  type GraphSender = GraphRequest -> Option<HttpResponse>

  const SubscriptionsUrl: string := "https://graph.microsoft.com/v1.0/subscriptions"
  const RelayFailedMessage: string := "the request to Graph failed."
  const BadJsonMessage: string := "the response is not valid JSON."
  const NoNotificationUrlMessage: string := "the subscription has no notificationUrl string."

  /** `$"Bearer {accessToken}"`, where a null token formats as nothing. */
  function BearerValue(token: Option<string>): string {
    "Bearer " + token.GetOr("")
  }

  /** The shared tail of `CreateSubscription`, `RenewSubscription` and
      `Negotiate`: a non-success status or unparsable body is an exception. */
  function Relay(send: GraphSender, request: GraphRequest): (r: Result<Json>)
    ensures r.Ok? <==> (send(request).Some? && IsSuccessStatusCode(send(request).value.status)
      && !send(request).value.json.Malformed?)
    ensures r.Ok? ==> r.value == send(request).value.json
    ensures r.Err? ==> r.failure.Exception?
  {
    match send(request)
    case None => Err(Exception(RelayFailedMessage))
    case Some(resp) =>
      if !IsSuccessStatusCode(resp.status) then Err(Exception(ShowInt(resp.status) + ": " + resp.content))
      else if resp.json.Malformed? then Err(Exception(BadJsonMessage))
      else Ok(resp.json)
  }

  /** `(string)subscription.notificationUrl`. */
  function NotificationUrl(subscription: Json): Result<string> {
    if subscription.JsonObject? && "notificationUrl" in subscription.fields
      && subscription.fields["notificationUrl"].JString?
    then Ok(subscription.fields["notificationUrl"].text)
    else Err(Exception(NoNotificationUrlMessage))
  }

  /** What an action returns: the 200 JSON payload or a status with a message. */
  datatype ActionResult =
    | JsonContent(subscription: Json, negotiate: Option<Json>)
    | StatusMessage(status: int, message: string)

  /** `Patch(subscriptionId)` with the request body `payload`. */
  function Patch(items: map<string, Item>, subscriptionId: string, payload: string, send: GraphSender): (a: ActionResult)
    ensures a.StatusMessage? ==> a == StatusMessage(500, InternalErrorMessage)
    ensures var request := GraphRequest("PATCH", SubscriptionsUrl + "/" + subscriptionId, BearerValue(GetOboToken(items)), payload);
      (a.JsonContent? <==> Relay(send, request).Ok?)
      && (a.JsonContent? ==> a == JsonContent(Relay(send, request).value, None))
  {
    var request := GraphRequest("PATCH", SubscriptionsUrl + "/" + subscriptionId, BearerValue(GetOboToken(items)), payload);
    match Relay(send, request)
    case Err(_) => StatusMessage(500, InternalErrorMessage)
    case Ok(subscription) => JsonContent(subscription, None)
  }

  /** `Create()` with the request body `payload` and `guid` for `Guid.NewGuid()`. */
  function Create(items: map<string, Item>, payload: string, guid: string, send: GraphSender): (a: ActionResult)
    ensures a.StatusMessage? ==> a == StatusMessage(500, InternalErrorMessage)
    ensures var bearer := BearerValue(GetOboToken(items));
      var created := Relay(send, GraphRequest("POST", SubscriptionsUrl, bearer, payload));
      a.JsonContent? <==> (created.Ok? && NotificationUrl(created.value).Ok?
        && Relay(send, GraphRequest("POST", NegotiateUrl(NotificationUrl(created.value).value, guid), bearer, "")).Ok?)
  {
    var bearer := BearerValue(GetOboToken(items));
    match Relay(send, GraphRequest("POST", SubscriptionsUrl, bearer, payload))
    case Err(_) => StatusMessage(500, InternalErrorMessage)
    case Ok(subscription) =>
      match NotificationUrl(subscription)
      case Err(_) => StatusMessage(500, InternalErrorMessage)
      case Ok(url) =>
        match Relay(send, GraphRequest("POST", NegotiateUrl(url, guid), bearer, ""))
        case Err(_) => StatusMessage(500, InternalErrorMessage)
        case Ok(negotiate) => JsonContent(subscription, Some(negotiate))
  }

  /** A non-success answer from Graph to the creation request is a 500,
      and negotiation is not attempted. */
  lemma RejectedCreateIs500(items: map<string, Item>, payload: string, guid: string, send: GraphSender)
    requires var created := send(GraphRequest("POST", SubscriptionsUrl, BearerValue(GetOboToken(items)), payload));
      created.Some? && !IsSuccessStatusCode(created.value.status)
    ensures Create(items, payload, guid, send) == StatusMessage(500, InternalErrorMessage)
  {
  }
}
