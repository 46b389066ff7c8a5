/** Per-tenant validation of the inbound token (auth/AzureAdTokenValidator.cs).

    Decoding the token, fetching the tenant's OpenID configuration and the
    library's check of signature, issuer and lifetime are foreign calls; they
    are the oracles of `ValidatorEnv`. What the broker decides itself is
    modelled: the `tid` checks, the two accepted issuers, the discovery
    address, the validation parameters and the per-tenant manager registry.
    The clock the library checks the lifetime against is the parameter `now`,
    in Unix seconds. */
module TokenValidator {
  import opened Wrappers
  import opened Claims

  /** A `ConfigurationManager` as constructed here: its metadata address and
      whether its document retriever insists on HTTPS. */
  datatype ConfigManager = ConfigManager(metadataAddress: string, requireHttps: bool)

  /** The part of the OpenID configuration used for validation. */
  datatype OidcConfiguration = OidcConfiguration(signingKeys: set<string>)

  /** `TokenValidationParameters` as set at lines 55-64. */
  datatype ValidationParameters = ValidationParameters(
    requireExpirationTime: bool,
    requireSignedTokens: bool,
    validateIssuer: bool,
    validIssuers: seq<string>,
    validateAudience: bool,
    validateLifetime: bool,
    issuerSigningKeys: set<string>)

  /** What `handler.ValidateToken` hands back: a JWT with the facts it was
      validated on (its `nbf` as `validFrom` and its `exp` as `validTo`), or
      some other kind of security token. */
  datatype SecurityToken =
    | JwtSecurityToken(payload: Payload, issuer: string, validFrom: Option<int>, validTo: Option<int>,
                       signingKey: Option<string>)
    | OtherSecurityToken

  /** The foreign calls: `ReadJwtToken` (`None` when it throws), the
      configuration manager's `GetConfigurationAsync` for a metadata address,
      and the library's `ValidateToken` at a given time. */
  datatype ValidatorEnv = ValidatorEnv(
    read: string -> Option<Payload>,
    discover: string -> Result<OidcConfiguration>,
    check: (string, ValidationParameters, int) -> Result<SecurityToken>)

  const TidMissingMessage: string := "tid could not be extracted from the token."
  const TidInvalidMessage: string := "tid did not contain a valid tenant ID."
  const NotJwtMessage: string := "the bearer token was not a JWT security token."
  const UnreadableTokenMessage: string := "the bearer token could not be read as a JWT."

  /** Lines 21-30: the tenant from the unvalidated payload. A null `tid`
      element makes `tid.ToString()` throw. */
  function ExtractTenant(token: string, read: string -> Option<Payload>): (r: Result<string>)
    ensures read(token).None? ==> r == Err(Exception(UnreadableTokenMessage))
    ensures read(token).Some? && "tid" !in read(token).value ==> r == Err(Exception(TidMissingMessage))
    ensures read(token).Some? && "tid" in read(token).value && read(token).value["tid"] == None
      ==> r == Err(Exception(NullReferenceMessage))
    ensures read(token).Some? && "tid" in read(token).value && read(token).value["tid"] == Some("")
      ==> r == Err(Exception(TidInvalidMessage))
    ensures r.Ok? <==> (read(token).Some? && "tid" in read(token).value
      && read(token).value["tid"].Some? && read(token).value["tid"].value != "")
    ensures r.Ok? ==> r.value != "" && read(token).value["tid"] == Some(r.value)
  {
    match read(token)
    case None => Err(Exception(UnreadableTokenMessage))
    case Some(payload) =>
      if "tid" !in payload then Err(Exception(TidMissingMessage))
      else
        match payload["tid"]
        case None => Err(Exception(NullReferenceMessage))
        case Some(tid) => if tid == "" then Err(Exception(TidInvalidMessage)) else Ok(tid)
  }

  /** The validator and the middleware's `TryGetString` agree on which
      tokens carry a tenant, on the tenant, and on the exception a null
      `tid` throws. */
  lemma ExtractTenantAgreesWithTryGetString(token: string, read: string -> Option<Payload>)
    requires read(token).Some?
    ensures ExtractTenant(token, read).Ok? <==> TryGetString(read(token).value, "tid").Ok? && TryGetString(read(token).value, "tid").value.Some?
    ensures ExtractTenant(token, read).Ok? ==> TryGetString(read(token).value, "tid") == Ok(Some(ExtractTenant(token, read).value))
    ensures TryGetString(read(token).value, "tid").Err? ==> ExtractTenant(token, read) == Err(TryGetString(read(token).value, "tid").failure)
  {
  }

  /** Lines 33-36: the provider's v2 issuer and its legacy issuer for the tenant. */
  function ValidIssuers(tenantId: string): (issuers: seq<string>)
    ensures |issuers| == 2
    ensures issuers[0] == "https://login.microsoftonline.com/" + tenantId + "/v2.0"
    ensures issuers[1] == "https://sts.windows.net/" + tenantId + "/"
  {
    ["https://login.microsoftonline.com/" + tenantId + "/v2.0", "https://sts.windows.net/" + tenantId + "/"]
  }

  /** Lines 46: the tenant's discovery document. */
  function DiscoveryUrl(tenantId: string): string {
    "https://login.microsoftonline.com/" + tenantId + "/v2.0/.well-known/openid-configuration"
  }

  /** Lines 45-48: the manager built for a tenant the registry lacks. */
  function NewManager(tenantId: string): (m: ConfigManager)
    ensures m.requireHttps
    ensures m.metadataAddress == "https://login.microsoftonline.com/" + tenantId + "/v2.0/.well-known/openid-configuration"
  {
    ConfigManager(DiscoveryUrl(tenantId), true)
  }

  /** `configManagers.GetOrAdd(tenantId, factory)`: the manager used and the registry after. */
  function GetOrAdd(managers: map<string, ConfigManager>, tenantId: string): (r: (ConfigManager, map<string, ConfigManager>))
    ensures tenantId in managers ==> r.0 == managers[tenantId] && r.1 == managers
    ensures tenantId !in managers ==> r.0 == NewManager(tenantId) && r.1 == managers[tenantId := r.0]
  {
    if tenantId in managers then (managers[tenantId], managers)
    else (NewManager(tenantId), managers[tenantId := NewManager(tenantId)])
  }

  /** The registry only grows, by the tenant asked for, and no manager is replaced. */
  lemma GetOrAddOnlyAddsMissing(managers: map<string, ConfigManager>, tenantId: string)
    ensures GetOrAdd(managers, tenantId).1.Keys == managers.Keys + {tenantId}
    ensures forall t :: t in managers ==> GetOrAdd(managers, tenantId).1[t] == managers[t]
    ensures GetOrAdd(managers, tenantId).1[tenantId] == GetOrAdd(managers, tenantId).0
  {
  }

  /** Lines 55-64: require expiry and signature, check the issuer against
      the tenant's two issuers and the lifetime, do not check the audience. */
  function Parameters(tenantId: string, config: OidcConfiguration): (p: ValidationParameters)
    ensures p.requireExpirationTime && p.requireSignedTokens && p.validateIssuer && p.validateLifetime
    ensures !p.validateAudience
    ensures p.validIssuers == ValidIssuers(tenantId)
    ensures p.issuerSigningKeys == config.signingKeys
  {
    ValidationParameters(true, true, true, ValidIssuers(tenantId), false, true, config.signingKeys)
  }

  /** What `ValidateToken(token)` returns at time `now`, given that the
      tenant's manager is the one `NewManager` builds. */
  function Validate(token: string, env: ValidatorEnv, now: int): (r: Result<SecurityToken>)
    ensures ExtractTenant(token, env.read).Err? ==> r == Err(ExtractTenant(token, env.read).failure)
    ensures r.Ok? ==> (r.value.JwtSecurityToken? && ExtractTenant(token, env.read).Ok?
      && env.discover(DiscoveryUrl(ExtractTenant(token, env.read).value)).Ok?)
  {
    match ExtractTenant(token, env.read)
    case Err(f) => Err(f)
    case Ok(tenantId) =>
      match env.discover(NewManager(tenantId).metadataAddress)
      case Err(f) => Err(f)
      case Ok(config) =>
        match env.check(token, Parameters(tenantId, config), now)
        case Err(f) => Err(f)
        case Ok(t) => if t.JwtSecurityToken? then Ok(t) else Err(Exception(NotJwtMessage))
  }

  /** A token validated at time `now` satisfies the parameters it was
      checked against. Clock skew is not modelled. */
  predicate Meets(t: SecurityToken, p: ValidationParameters, now: int) {
    t.JwtSecurityToken? &&
    (p.validateIssuer ==> t.issuer in p.validIssuers) &&
    (p.requireExpirationTime ==> t.validTo.Some?) &&
    (p.validateLifetime && t.validTo.Some? ==> now < t.validTo.value) &&
    (p.validateLifetime && t.validFrom.Some? ==> t.validFrom.value <= now) &&
    (p.requireSignedTokens ==> t.signingKey.Some? && t.signingKey.value in p.issuerSigningKeys)
  }

  /** The library honours whatever parameters it is given. */
  ghost predicate Honours(check: (string, ValidationParameters, int) -> Result<SecurityToken>) {
    forall token, p, now :: check(token, p, now).Ok? && check(token, p, now).value.JwtSecurityToken? ==>
      Meets(check(token, p, now).value, p, now)
  }

  /** With a library that honours its parameters, success at time `now`
      means: a JWT whose issuer is one of the token's own tenant's two
      issuers, with an expiry still ahead of `now` and no not-before after
      it, signed by one of the keys the tenant's discovery returned. */
  lemma ValidatedTokenIsTrusted(token: string, env: ValidatorEnv, now: int)
    requires Honours(env.check)
    requires Validate(token, env, now).Ok?
    ensures ExtractTenant(token, env.read).Ok?
    ensures var tenantId := ExtractTenant(token, env.read).value;
      var t := Validate(token, env, now).value;
      && t.JwtSecurityToken?
      && (t.issuer == "https://login.microsoftonline.com/" + tenantId + "/v2.0" || t.issuer == "https://sts.windows.net/" + tenantId + "/")
      && t.validTo.Some? && now < t.validTo.value
      && (t.validFrom.Some? ==> t.validFrom.value <= now)
      && env.discover(DiscoveryUrl(tenantId)).Ok?
      && t.signingKey.Some? && t.signingKey.value in env.discover(DiscoveryUrl(tenantId)).value.signingKeys
  {
    var tenantId := ExtractTenant(token, env.read).value;
    var config := env.discover(NewManager(tenantId).metadataAddress).value;
    var p := Parameters(tenantId, config);
    assert env.check(token, p, now).Ok?;
    assert Meets(env.check(token, p, now).value, p, now);
  }

  /** A token without a usable `tid` fails before any discovery or library check. */
  lemma NoTenantNoValidation(token: string, env: ValidatorEnv, env': ValidatorEnv, now: int, now': int)
    requires env.read == env'.read && ExtractTenant(token, env.read).Err?
    ensures Validate(token, env, now) == Validate(token, env', now') == Err(ExtractTenant(token, env.read).failure)
  {
  }

  class AzureAdTokenValidator {
    /** The per-tenant registry of configuration managers. */
    var configManagers: map<string, ConfigManager>

    /** Each registered manager is the one built for its tenant. */
    ghost predicate Valid()
      reads this
    {
      forall t :: t in configManagers ==> configManagers[t] == NewManager(t)
    }

    constructor ()
      ensures Valid() && configManagers == map[]
    {
      configManagers := map[];
    }

    /** `ValidateToken(token)`. The registry gains the token's tenant once its
        `tid` is known, even if discovery or validation then fails. */
    method ValidateToken(token: string, env: ValidatorEnv, now: int) returns (r: Result<SecurityToken>)
      requires Valid()
      modifies this
      ensures Valid()
      ensures r == Validate(token, env, now)
      ensures r.Ok? ==> r.value.JwtSecurityToken?
      ensures configManagers == match ExtractTenant(token, env.read)
                                case Ok(t) => GetOrAdd(old(configManagers), t).1
                                case Err(_) => old(configManagers)
    {
      var tenant := ExtractTenant(token, env.read);
      if tenant.Err? {
        return Err(tenant.failure);
      }
      var tenantId := tenant.value;
      var issuers := ValidIssuers(tenantId);
      var added := GetOrAdd(configManagers, tenantId);
      configManagers := added.1;
      var configManager := added.0;
      var config := env.discover(configManager.metadataAddress);
      if config.Err? {
        return Err(config.failure);
      }
      var parameters := ValidationParameters(true, true, true, issuers, false, true, config.value.signingKeys);
      var validated := env.check(token, parameters, now);
      if validated.Err? {
        return Err(validated.failure);
      }
      if !validated.value.JwtSecurityToken? {
        return Err(Exception(NotJwtMessage));
      }
      r := validated;
    }
  }
}
