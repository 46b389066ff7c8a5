/** The "multi-auth" authentication handler (auth/AuthHandler.cs): no
    bearer header is no result, a validator error is a failure, a validated
    token is a ticket with no claims under the scheme's name. */
module Authentication {
  import opened Wrappers
  import opened Http
  import opened TokenValidator

  datatype Identity = Identity(claims: seq<string>, authenticationType: string)
  datatype Ticket = Ticket(principal: Identity, scheme: string)
  datatype AuthenticateResult = NoResult | Fail(failure: Failure) | Success(ticket: Ticket)

  /** What `HandleAuthenticateAsync` returns at time `now` for the
      request's Authorization values. */
  function Authenticate(authorization: seq<string>, env: ValidatorEnv, scheme: string, now: int): (r: AuthenticateResult)
    ensures r.Success? ==> authorization != [] && Validate(StripBearer(authorization[0]), env, now).Ok?
  {
    match FirstHeader(authorization)
    case None => NoResult
    case Some(header) =>
      match Validate(StripBearer(header), env, now)
      case Err(f) => Fail(f)
      case Ok(_) => Success(Ticket(Identity([], scheme), scheme))
  }

  /** The three outcomes, each with its exact condition. */
  lemma AuthenticateOutcomes(authorization: seq<string>, env: ValidatorEnv, scheme: string, now: int)
    ensures Authenticate(authorization, env, scheme, now).NoResult? <==> authorization == []
    ensures Authenticate(authorization, env, scheme, now).Fail? <==>
      authorization != [] && Validate(StripBearer(authorization[0]), env, now).Err?
    ensures Authenticate(authorization, env, scheme, now).Fail? ==>
      Authenticate(authorization, env, scheme, now).failure == Validate(StripBearer(authorization[0]), env, now).failure
    ensures Authenticate(authorization, env, scheme, now).Success? ==>
      Authenticate(authorization, env, scheme, now).ticket == Ticket(Identity([], scheme), scheme)
  {
  }

  /** `HandleAuthenticateAsync()`: the validator runs only when there is a header value. */
  method HandleAuthenticate(authorization: seq<string>, scheme: string, validator: AzureAdTokenValidator, env: ValidatorEnv, now: int)
    returns (r: AuthenticateResult)
    requires validator.Valid()
    modifies validator
    ensures validator.Valid()
    ensures r == Authenticate(authorization, env, scheme, now)
    ensures authorization == [] ==> validator.configManagers == old(validator.configManagers)
    ensures authorization != [] ==> (validator.configManagers ==
      match ExtractTenant(StripBearer(authorization[0]), env.read)
      case Ok(t) => GetOrAdd(old(validator.configManagers), t).1
      case Err(_) => old(validator.configManagers))
  {
    var header := FirstHeader(authorization);
    if header.None? {
      return NoResult;
    }
    var token := StripBearer(header.value);
    var jwt := validator.ValidateToken(token, env, now);
    if jwt.Err? {
      return Fail(jwt.failure);
    }
    var claims: seq<string> := [];
    var identity := Identity(claims, scheme);
    r := Success(Ticket(identity, scheme));
  }
}
