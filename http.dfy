/** The parts of ASP.NET Core the broker touches: the Authorization header
    values of a request, the request-scoped `Items`, the response status and
    body, and the upstream HTTP responses it reads. */
module Http {
  import opened Wrappers
  import opened Text

  // ----- the Authorization header -----

  /** `Headers.Authorization.FirstOrDefault()`. */
  function FirstHeader(values: seq<string>): (r: Option<string>)
    ensures r.None? <==> values == []
    ensures r.Some? ==> r.value == values[0]
  {
    if values == [] then None else Some(values[0])
  }

  function Join(values: seq<string>, sep: string): string
    decreases |values|
  {
    if values == [] then ""
    else if |values| == 1 then values[0]
    else values[0] + sep + Join(values[1..], sep)
  }

  /** The conversion of `Headers["Authorization"]` to `string?`: null for no
      value, the value itself for one, the values joined by commas otherwise. */
  function HeaderString(values: seq<string>): (r: Option<string>)
    ensures r.None? <==> values == []
    ensures |values| == 1 ==> r == Some(values[0])
  {
    if values == [] then None else Some(Join(values, ","))
  }

  const BearerPrefix: string := "Bearer "

  /** `header.Replace("Bearer ", "", StringComparison.InvariantCultureIgnoreCase)`:
      every occurrence, in any letter case, is removed. */
  function StripBearer(header: string): (token: string)
    ensures |token| == |header| - |BearerPrefix| * Occurrences(header, BearerPrefix, IgnoreCase)
  {
    ReplaceAllLength(header, BearerPrefix, "", IgnoreCase);
    ReplaceAll(header, BearerPrefix, "", IgnoreCase)
  }

  /** A header of the form `<scheme word> <token>`, the scheme word
      `Bearer` in any letter case, yields the token when the token holds no
      further occurrence. */
  lemma StripBearerOfBearerHeader(prefix: string, token: string)
    requires |prefix| == |BearerPrefix| && StartsWith(prefix, BearerPrefix, IgnoreCase)
    requires !Contains(token, BearerPrefix, IgnoreCase)
    ensures StripBearer(prefix + token) == token
  {
    ReplaceAllOfPrefixed(prefix, token, BearerPrefix, "", IgnoreCase);
    ReplaceAllWithoutMatch(token, BearerPrefix, "", IgnoreCase);
  }

  /** A header without the prefix reaches the token handler unchanged. */
  lemma StripBearerWithoutPrefix(header: string)
    requires !Contains(header, BearerPrefix, IgnoreCase)
    ensures StripBearer(header) == header
  {
    ReplaceAllWithoutMatch(header, BearerPrefix, "", IgnoreCase);
  }

  // ----- upstream responses -----

  /** The kinds of JSON value the broker distinguishes for a property. */
  datatype JsonValue = JNull | JString(text: string) | JOther

  /** What the JSON parser makes of a response body: nothing (a parse
      error), an object with its top-level properties, or another value. */
  datatype Json = Malformed | JsonObject(fields: map<string, JsonValue>) | JsonNonObject

  /** A received response: status, body text and its parse. */
  datatype HttpResponse = HttpResponse(status: int, content: string, json: Json)

  /** `HttpResponseMessage.IsSuccessStatusCode`. */
  predicate IsSuccessStatusCode(status: int) {
    200 <= status <= 299
  }

  // ----- the request context -----

  /** An entry of `HttpContext.Items`: a string or any other object. */
  datatype Item = StringItem(text: string) | OtherItem

  /** The key downstream handlers read the derived token from. */
  const OboTokenKey: string := "obo-token"

  const InternalErrorMessage: string := "Internal server error."

  /** How a middleware run ends: the derived token is attached and `next`
      runs, or a status and message are written and the pipeline stops. */
  datatype Response = Forward(token: string) | Reject(status: int, message: string)

  /** One request's `HttpContext`, as far as the broker reads and writes it. */
  class HttpContext {
    /** The values of the request's Authorization header. */
    const authorization: seq<string>
    var items: map<string, Item>
    var statusCode: int
    var body: string
    /** Whether the next middleware has been invoked. */
    var nextInvoked: bool

    constructor (authorization: seq<string>, items: map<string, Item>)
      ensures this.authorization == authorization && this.items == items
      ensures statusCode == 200 && body == "" && !nextInvoked
    {
      this.authorization := authorization;
      this.items := items;
      statusCode := 200;
      body := "";
      nextInvoked := false;
    }

    /** Carry out a middleware's ending: `Items.Add("obo-token", token)` then
        `next(context)`, or set the status and write the message. */
    method Finish(response: Response)
      requires response.Forward? ==> OboTokenKey !in items
      modifies this
      ensures response.Forward? ==>
        items == old(items)[OboTokenKey := StringItem(response.token)] && nextInvoked
        && statusCode == old(statusCode) && body == old(body)
      ensures response.Reject? ==>
        items == old(items) && nextInvoked == old(nextInvoked)
        && statusCode == response.status && body == old(body) + response.message
    {
      match response
      case Forward(token) =>
        items := items[OboTokenKey := StringItem(token)];
        nextInvoked := true;
      case Reject(status, message) =>
        statusCode := status;
        body := body + message;
    }
  }
}
