/** The backend configuration record of src/lib/config.ts: a base URL
    resolved once from an environment override, two endpoint paths, and
    the helper that glues a base URL and an endpoint together. Reading the
    environment is outside the model: the override is a parameter. */
module Config {
  import opened Wrappers

  /** Base URL used when the override is missing or empty. */
  const DefaultBaseUrl: string := "http://127.0.0.1:8000"

  /** `ENDPOINTS.CHAT` and `ENDPOINTS.SOURCES`. */
  const ChatEndpoint: string := "/api/chat"
  const SourcesEndpoint: string := "/api/sources"

  /** `BASE_URL`: JavaScript's `||` keeps the override only when it is
      truthy, so both an absent override and `""` fall back to the default. */
  function ResolveBaseUrl(env: Option<string>): (base: string)
    ensures base != ""
    ensures base == DefaultBaseUrl || env == Some(base)
    ensures env.Some? && env.value != "" ==> base == env.value
  {
    if env.Some? && env.value != "" then env.value else DefaultBaseUrl
  }

  /** `buildApiUrl`: the base URL immediately followed by the endpoint;
      prefix, suffix and length together leave no room for a separator or
      for any rewriting of slashes. */
  function BuildApiUrl(env: Option<string>, endpoint: string): (url: string)
    ensures |url| == |ResolveBaseUrl(env)| + |endpoint|
    ensures url[..|ResolveBaseUrl(env)|] == ResolveBaseUrl(env)
    ensures url[|ResolveBaseUrl(env)|..] == endpoint
  {
    ResolveBaseUrl(env) + endpoint
  }

  /** Resolving an already resolved base URL changes nothing. */
  lemma ResolveBaseUrlIdempotent(env: Option<string>)
    ensures ResolveBaseUrl(Some(ResolveBaseUrl(env))) == ResolveBaseUrl(env)
  {
  }

  /** The empty override is not used: it falls back like a missing one. */
  lemma EmptyOverrideFallsBack()
    ensures ResolveBaseUrl(Some("")) == ResolveBaseUrl(None) == DefaultBaseUrl
  {
  }

  /** Distinct endpoints give distinct URLs under the same configuration. */
  lemma BuildApiUrlInjective(env: Option<string>, e1: string, e2: string)
    requires BuildApiUrl(env, e1) == BuildApiUrl(env, e2)
    ensures e1 == e2
  {
  }

  /** The two named endpoints, spelled out. */
  lemma EndpointUrls(env: Option<string>)
    ensures BuildApiUrl(env, ChatEndpoint) == ResolveBaseUrl(env) + "/api/chat"
    ensures BuildApiUrl(env, SourcesEndpoint) == ResolveBaseUrl(env) + "/api/sources"
  {
  }
}
