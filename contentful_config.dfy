/** The Contentful settings read from the environment: the GraphQL API domain
    and environment (with defaults), the space id and access token (required),
    and the content endpoint built from them. `scripts/generate.cjs` and
    `integrations/contentful/client.ts` carry identical copies of this code;
    both are modelled here once. */
module ContentfulConfig {
  import opened Wrappers
  import opened Js
  import opened Text

  const DomainVar: string := "CONTENTFUL_GRAPHQL_API_DOMAIN"
  const EnvironmentVar: string := "CONTENTFUL_ENVIRONMENT"
  const SpaceIdVar: string := "CONTENTFUL_SPACE_ID"
  const AccessTokenVar: string := "CONTENTFUL_ACCESS_TOKEN"

  const DefaultDomain: string := "graphql.contentful.com"
  const DefaultEnvironment: string := "master"

  /** `process.env.CONTENTFUL_GRAPHQL_API_DOMAIN ?? 'graphql.contentful.com'`. */
  function GraphqlApiDomain(env: Env): (r: string)
    ensures DomainVar !in env ==> r == DefaultDomain
    ensures DomainVar in env ==> r == env[DomainVar]
  {
    Nullish(EnvGet(env, DomainVar), DefaultDomain)
  }

  /** `process.env.CONTENTFUL_ENVIRONMENT ?? 'master'`. */
  function Environment(env: Env): (r: string)
    ensures EnvironmentVar !in env ==> r == DefaultEnvironment
    ensures EnvironmentVar in env ==> r == env[EnvironmentVar]
  {
    Nullish(EnvGet(env, EnvironmentVar), DefaultEnvironment)
  }

  /** `if (!value) throw new Error(message); return value;` */
  function Required(setting: Option<string>, message: string): (r: Result<string, JsError>)
    ensures r.Success? <==> setting.Some? && setting.value != ""
    ensures r.Success? ==> r.value == setting.value
    ensures r.Failure? ==> r.error == Error(message)
  {
    if !TruthyString(setting) then Failure(Error(message)) else Success(setting.value)
  }

  /** `getContentfulSpaceId()`. */
  function SpaceId(env: Env): (r: Result<string, JsError>)
    ensures r.Success? <==> SpaceIdVar in env && env[SpaceIdVar] != ""
    ensures r.Success? ==> r.value == env[SpaceIdVar]
    ensures r.Failure? ==> r.error == Error("Missing Contentful space ID")
  {
    Required(EnvGet(env, SpaceIdVar), "Missing Contentful space ID")
  }

  /** `getContentfulAccessToken()`. */
  function AccessToken(env: Env): (r: Result<string, JsError>)
    ensures r.Success? <==> AccessTokenVar in env && env[AccessTokenVar] != ""
    ensures r.Success? ==> r.value == env[AccessTokenVar]
    ensures r.Failure? ==> r.error == Error("Missing Contentful access token")
  {
    Required(EnvGet(env, AccessTokenVar), "Missing Contentful access token")
  }

  /** The three parts a Contentful content endpoint is made of. */
  datatype Location = Location(domain: string, spaceId: string, environment: string)

  /** The template `https://{domain}/content/v1/spaces/{spaceId}/environments/{environment}`. */
  function EndpointUrl(loc: Location): string {
    "https://" + loc.domain + "/content/v1/spaces/" + loc.spaceId + "/environments/" + loc.environment
  }

  /** `getContentfulEndpoint()`: fails exactly when the space id is missing
      or empty; otherwise the template filled with the configured domain,
      space and environment. */
  function Endpoint(env: Env): (r: Result<string, JsError>)
    ensures r.Failure? <==> SpaceId(env).Failure?
    ensures r.Failure? ==> r.error == Error("Missing Contentful space ID")
    ensures r.Success? ==> r.value == EndpointUrl(Location(GraphqlApiDomain(env), SpaceId(env).value, Environment(env)))
  {
    var spaceId :- SpaceId(env);
    Success(EndpointUrl(Location(GraphqlApiDomain(env), spaceId, Environment(env))))
  }

  /** Reads a content endpoint URL back into its parts. */
  function ParseEndpointUrl(url: string): Option<Location> {
    var afterScheme :- StripPrefix("https://", url);
    var hostAndPath :- SplitAt(afterScheme, '/');
    var afterSpaces :- StripPrefix("content/v1/spaces/", hostAndPath.1);
    var spaceAndRest :- SplitAt(afterSpaces, '/');
    var environment :- StripPrefix("environments/", spaceAndRest.1);
    Some(Location(hostAndPath.0, spaceAndRest.0, environment))
  }

  /** The endpoint URL determines the domain, space and environment it was
      built from, as long as the domain and the space id hold no `/`. */
  lemma EndpointRoundTrip(loc: Location)
    requires '/' !in loc.domain && '/' !in loc.spaceId
    ensures ParseEndpointUrl(EndpointUrl(loc)) == Some(loc)
  {
    var tail := "environments/" + loc.environment;
    var afterSpaces := loc.spaceId + "/" + tail;
    var path := "content/v1/spaces/" + afterSpaces;
    var afterScheme := loc.domain + "/" + path;
    assert "/content/v1/spaces/" == "/" + "content/v1/spaces/";
    assert "/environments/" == "/" + "environments/";
    calc {
      EndpointUrl(loc);
      "https://" + loc.domain + "/content/v1/spaces/" + loc.spaceId + "/environments/" + loc.environment;
      "https://" + (loc.domain + "/" + ("content/v1/spaces/" + (loc.spaceId + "/" + ("environments/" + loc.environment))));
      "https://" + afterScheme;
    }
    StripPrefixConcat("https://", afterScheme);
    SplitAtConcat(loc.domain, '/', path);
    StripPrefixConcat("content/v1/spaces/", afterSpaces);
    SplitAtConcat(loc.spaceId, '/', tail);
    StripPrefixConcat("environments/", loc.environment);
  }

  /** The endpoint in use names the configured space and environment on the
      configured domain (defaults applied only to unset variables), as long as
      the domain and the space id hold no `/`. */
  lemma EndpointNamesConfiguredSpace(env: Env)
    requires SpaceId(env).Success?
    requires '/' !in GraphqlApiDomain(env) && '/' !in env[SpaceIdVar]
    ensures Endpoint(env).Success?
    ensures ParseEndpointUrl(Endpoint(env).value)
         == Some(Location(GraphqlApiDomain(env), env[SpaceIdVar], Environment(env)))
  {
    EndpointRoundTrip(Location(GraphqlApiDomain(env), env[SpaceIdVar], Environment(env)));
  }

  /** With nothing but the space id configured, the defaults give the
      public Contentful API on the `master` environment. */
  lemma DefaultEndpoint(spaceId: string)
    requires spaceId != ""
    ensures Endpoint(map[SpaceIdVar := spaceId])
         == Success(EndpointUrl(Location("graphql.contentful.com", spaceId, "master")))
  {
  }

  /** An empty domain or environment is kept as it is, not replaced by the
      default: `??` only replaces an unset value. */
  lemma EmptySettingsKept(env: Env)
    requires DomainVar in env && env[DomainVar] == ""
    requires EnvironmentVar in env && env[EnvironmentVar] == ""
    requires SpaceId(env).Success?
    ensures Endpoint(env) == Success(EndpointUrl(Location("", env[SpaceIdVar], "")))
  {
  }
}
