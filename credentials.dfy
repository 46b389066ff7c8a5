/** The broker's own client credentials for a tenant (obo/ICredentials.cs),
    and the check the per-tenant resolvers share: a missing or empty value
    is a 403, not a server error. */
module Credentials {
  import opened Wrappers

  datatype CredentialPair = CredentialPair(clientId: string, clientSecret: string)

  const NotAuthorizedMessage: string := "You are not authorized to use this application."

  /** A looked-up value that is null or empty; `None` stands for null. */
  predicate NullOrEmpty(v: Option<string>) {
    v == None || v == Some("")
  }

  /** Both looked-up values present and non-empty, or 403. */
  function RequirePair(clientId: Option<string>, clientSecret: Option<string>): (r: Result<CredentialPair>)
    ensures r.Err? <==> NullOrEmpty(clientId) || NullOrEmpty(clientSecret)
    ensures r.Err? ==> r.failure == HttpError(403, NotAuthorizedMessage)
    ensures r.Ok? ==> Some(r.value.clientId) == clientId && Some(r.value.clientSecret) == clientSecret
    ensures r.Ok? ==> r.value.clientId != "" && r.value.clientSecret != ""
  {
    if NullOrEmpty(clientId) || NullOrEmpty(clientSecret) then Err(HttpError(403, NotAuthorizedMessage))
    else Ok(CredentialPair(clientId.value, clientSecret.value))
  }
}

/** Single-tenant deployments (obo/LocalCredentials.cs). */
module LocalCredentials {
  import opened Wrappers
  import opened Credentials

  /** The two configured values `IConfig` exposes. */
  datatype LocalConfig = LocalConfig(clientId: string, clientSecret: string)

  /** `GetForTenant(tenantId)`: the configured pair, whatever the tenant. */
  function GetForTenant(config: LocalConfig, tenantId: string): (r: Result<CredentialPair>)
    ensures r == Ok(CredentialPair(config.clientId, config.clientSecret))
  {
    Ok(CredentialPair(config.clientId, config.clientSecret))
  }

  /** Any two tenants get the same pair, and the lookup never fails. */
  lemma SamePairForEveryTenant(config: LocalConfig, a: string, b: string)
    ensures GetForTenant(config, a) == GetForTenant(config, b)
    ensures GetForTenant(config, a).Ok?
  {
  }
}

/** Per-tenant values from the environment (obo/EnvironmentVariableCredentials.cs). */
module EnvironmentCredentials {
  import opened Wrappers
  import opened Credentials

  /** What `NetBricks.Config.GetOnce` sees: a missing name reads as null. */
  type Environment = map<string, string>

  function ClientIdKey(tenantId: string): string { tenantId + "_CLIENT_ID" }
  function ClientSecretKey(tenantId: string): string { tenantId + "_CLIENT_SECRET" }

  function Get(env: Environment, name: string): Option<string> {
    if name in env then Some(env[name]) else None
  }

  /** `GetForTenant(tenantId)`. */
  function GetForTenant(env: Environment, tenantId: string): (r: Result<CredentialPair>)
    ensures r.Err? <==> NullOrEmpty(Get(env, tenantId + "_CLIENT_ID")) || NullOrEmpty(Get(env, tenantId + "_CLIENT_SECRET"))
    ensures r.Err? ==> r.failure == HttpError(403, NotAuthorizedMessage)
    ensures r.Ok? ==> r.value == CredentialPair(env[tenantId + "_CLIENT_ID"], env[tenantId + "_CLIENT_SECRET"])
    ensures r.Ok? ==> r.value.clientId != "" && r.value.clientSecret != ""
  {
    RequirePair(Get(env, ClientIdKey(tenantId)), Get(env, ClientSecretKey(tenantId)))
  }

  /** The result depends on the environment only through the tenant's two names. */
  lemma OnlyTenantKeysMatter(env: Environment, env': Environment, tenantId: string)
    requires Get(env, ClientIdKey(tenantId)) == Get(env', ClientIdKey(tenantId))
    requires Get(env, ClientSecretKey(tenantId)) == Get(env', ClientSecretKey(tenantId))
    ensures GetForTenant(env, tenantId) == GetForTenant(env', tenantId)
  {
  }
}

/** Per-tenant secrets from a remote secret store, memoised per tenant
    (obo/KeyVaultCredentials.cs). */
module KeyVault {
  import opened Wrappers
  import opened Credentials

  /** `SecretClient.GetSecretAsync(name)`: the secret's value, or the
      exception the client throws (for instance, for a secret that does not
      exist). A null value is represented by `""`; both are rejected alike. */
  type SecretStore = string -> Result<string>

  function ClientIdSecretName(tenantId: string): string { tenantId + "-CLIENT-ID" }
  function ClientSecretSecretName(tenantId: string): string { tenantId + "-CLIENT-SECRET" }

  /** The names one fetch asks for, in the order the tasks are started. */
  function SecretNames(tenantId: string): seq<string> {
    [ClientIdSecretName(tenantId), ClientSecretSecretName(tenantId)]
  }

  /** The factory run on a miss: both fetches, then the 403 check. When a
      fetch throws, awaiting both rethrows the first task's exception. */
  function FetchFromStore(store: SecretStore, tenantId: string): (r: Result<CredentialPair>)
    ensures store(tenantId + "-CLIENT-ID").Err? ==> r == Err(store(tenantId + "-CLIENT-ID").failure)
    ensures r.Ok? <==> (store(tenantId + "-CLIENT-ID").Ok? && store(tenantId + "-CLIENT-SECRET").Ok?
      && store(tenantId + "-CLIENT-ID").value != "" && store(tenantId + "-CLIENT-SECRET").value != "")
    ensures r.Ok? ==> r.value == CredentialPair(store(tenantId + "-CLIENT-ID").value, store(tenantId + "-CLIENT-SECRET").value)
    ensures store(tenantId + "-CLIENT-ID").Ok? && store(tenantId + "-CLIENT-SECRET").Ok? && r.Err? ==>
      r.failure == HttpError(403, NotAuthorizedMessage)
  {
    var id := store(ClientIdSecretName(tenantId));
    var secret := store(ClientSecretSecretName(tenantId));
    if id.Err? then Err(id.failure)
    else if secret.Err? then Err(secret.failure)
    else RequirePair(Some(id.value), Some(secret.value))
  }

  class KeyVaultCredentials {
    /** The per-tenant `MemoryCache`: filled on first success, never expired. */
    var cache: map<string, CredentialPair>
    /** Every secret name fetched so far, in order. */
    ghost var fetched: seq<string>

    /** Every cached pair is what the store gives for its tenant. */
    ghost predicate ConsistentWith(store: SecretStore)
      reads this
    {
      forall t :: t in cache ==> FetchFromStore(store, t) == Ok(cache[t])
    }

    constructor ()
      ensures cache == map[] && fetched == []
    {
      cache := map[];
      fetched := [];
    }

    /** `GetForTenant(tenantId)` against the store as it is now. */
    method GetForTenant(tenantId: string, store: SecretStore) returns (r: Result<CredentialPair>)
      modifies this
      ensures tenantId in old(cache) ==>
        r == Ok(old(cache)[tenantId]) && cache == old(cache) && fetched == old(fetched)
      ensures tenantId !in old(cache) ==>
        r == FetchFromStore(store, tenantId) && fetched == old(fetched) + SecretNames(tenantId)
        && cache == (if r.Ok? then old(cache)[tenantId := r.value] else old(cache))
      ensures old(ConsistentWith(store)) ==> ConsistentWith(store) && r == FetchFromStore(store, tenantId)
    {
      if tenantId in cache {
        r := Ok(cache[tenantId]);
        return;
      }
      fetched := fetched + SecretNames(tenantId);
      r := FetchFromStore(store, tenantId);
      if r.Ok? {
        cache := cache[tenantId := r.value];
      }
    }
  }
}
