/** The environment getters and the BigCommerce endpoint of the schema
    generation script. The Contentful getters of the same script are the
    ones in `ContentfulConfig`. */
module GenerateScript {
  import opened Wrappers
  import opened Js
  import opened Text
  import ContentfulConfig

  const GraphqlApiDomainVar: string := "BIGCOMMERCE_GRAPHQL_API_DOMAIN"
  const StoreHashVar: string := "BIGCOMMERCE_STORE_HASH"
  const ChannelIdVar: string := "BIGCOMMERCE_CHANNEL_ID"
  const TokenVar: string := "BIGCOMMERCE_CUSTOMER_IMPERSONATION_TOKEN"

  const DefaultGraphqlApiDomain: string := "mybigcommerce.com"

  /** `process.env.BIGCOMMERCE_GRAPHQL_API_DOMAIN ?? 'mybigcommerce.com'`. */
  function GraphqlApiDomain(env: Env): (r: string)
    ensures GraphqlApiDomainVar !in env ==> r == DefaultGraphqlApiDomain
    ensures GraphqlApiDomainVar in env ==> r == env[GraphqlApiDomainVar]
  {
    Nullish(EnvGet(env, GraphqlApiDomainVar), DefaultGraphqlApiDomain)
  }

  /** `getStoreHash()`. */
  function StoreHash(env: Env): (r: Result<string, JsError>)
    ensures r.Success? <==> StoreHashVar in env && env[StoreHashVar] != ""
    ensures r.Success? ==> r.value == env[StoreHashVar]
    ensures r.Failure? ==> r.error == Error("Missing store hash")
  {
    ContentfulConfig.Required(EnvGet(env, StoreHashVar), "Missing store hash")
  }

  /** `getChannelId()`: the raw setting, possibly unset or empty. */
  function ChannelId(env: Env): (r: Option<string>)
    ensures r.Some? <==> ChannelIdVar in env
    ensures r.Some? ==> r.value == env[ChannelIdVar]
  {
    EnvGet(env, ChannelIdVar)
  }

  /** `getToken()`. */
  function Token(env: Env): (r: Result<string, JsError>)
    ensures r.Success? <==> TokenVar in env && env[TokenVar] != ""
    ensures r.Success? ==> r.value == env[TokenVar]
    ensures r.Failure? ==> r.error == Error("Missing customer impersonation token")
  {
    ContentfulConfig.Required(EnvGet(env, TokenVar), "Missing customer impersonation token")
  }

  /** Whether a channel id selects a channel-specific host: it must be set,
      non-empty and other than the default channel `'1'`. */
  predicate ChannelSpecific(channelId: Option<string>)
    ensures ChannelSpecific(channelId) <==> channelId.Some? && channelId.value != "" && channelId.value != "1"
  {
    !(!TruthyString(channelId) || StrictEquals(OrUndefined(channelId), Str("1")))
  }

  /** The parts a store GraphQL endpoint is made of. */
  datatype StoreLocation = StoreLocation(storeHash: string, channelId: Option<string>, domain: string)

  /** `https://store-{hash}.{domain}/graphql` or, with a channel,
      `https://store-{hash}-{channel}.{domain}/graphql`. */
  function StoreUrl(loc: StoreLocation): string {
    if loc.channelId.None? then "https://store-" + loc.storeHash + "." + loc.domain + "/graphql"
    else "https://store-" + loc.storeHash + "-" + loc.channelId.value + "." + loc.domain + "/graphql"
  }

  /** `getEndpoint()`: fails exactly when the store hash is missing or empty;
      otherwise the store's endpoint, naming the channel only when the
      channel id is channel-specific. */
  function Endpoint(env: Env): (r: Result<string, JsError>)
    ensures r.Failure? <==> StoreHash(env).Failure?
    ensures r.Failure? ==> r.error == Error("Missing store hash")
    ensures r.Success? ==>
              r.value == StoreUrl(StoreLocation(StoreHash(env).value,
                                                if ChannelSpecific(ChannelId(env)) then ChannelId(env) else None,
                                                GraphqlApiDomain(env)))
  {
    var storeHash :- StoreHash(env);
    var channelId := ChannelId(env);
    if !TruthyString(channelId) || StrictEquals(OrUndefined(channelId), Str("1")) then
      Success(StoreUrl(StoreLocation(storeHash, None, GraphqlApiDomain(env))))
    else
      Success(StoreUrl(StoreLocation(storeHash, channelId, GraphqlApiDomain(env))))
  }

  /** Reads a store endpoint back: the host label after `store-` is the hash,
      followed by `-{channel}` when there is one. */
  function ParseStoreUrl(url: string): Option<StoreLocation> {
    var afterScheme :- StripPrefix("https://store-", url);
    var host :- StripSuffix(afterScheme, "/graphql");
    var labelAndDomain :- SplitAt(host, '.');
    match SplitAt(labelAndDomain.0, '-')
    case None => Some(StoreLocation(labelAndDomain.0, None, labelAndDomain.1))
    case Some((storeHash, channelId)) => Some(StoreLocation(storeHash, Some(channelId), labelAndDomain.1))
  }

  /** A store URL determines the store hash, channel and domain it was built
      from, when the hash holds no `-` or `.` and the channel no `.`. */
  lemma StoreUrlRoundTrip(loc: StoreLocation)
    requires '-' !in loc.storeHash && '.' !in loc.storeHash
    requires loc.channelId.Some? ==> '.' !in loc.channelId.value
    ensures ParseStoreUrl(StoreUrl(loc)) == Some(loc)
  {
    var hostLabel := if loc.channelId.None? then loc.storeHash else loc.storeHash + "-" + loc.channelId.value;
    var host := hostLabel + "." + loc.domain;
    assert StoreUrl(loc) == "https://store-" + (host + "/graphql");
    StripPrefixConcat("https://store-", host + "/graphql");
    StripSuffixConcat(host, "/graphql");
    assert '.' !in hostLabel;
    SplitAtConcat(hostLabel, '.', loc.domain);
    if loc.channelId.Some? {
      SplitAtConcat(loc.storeHash, '-', loc.channelId.value);
    } else {
      assert SplitAt(hostLabel, '-').None?;
    }
  }

  /** The endpoint names a channel exactly when the channel id is set,
      non-empty and not `'1'`: an unset, empty or `'1'` channel id all give
      the same channel-less endpoint. */
  lemma EndpointNamesChannel(env: Env)
    requires StoreHash(env).Success?
    requires '-' !in env[StoreHashVar] && '.' !in env[StoreHashVar]
    requires ChannelIdVar in env ==> '.' !in env[ChannelIdVar]
    ensures Endpoint(env).Success?
    ensures ParseStoreUrl(Endpoint(env).value).Some?
    ensures ParseStoreUrl(Endpoint(env).value).value.storeHash == env[StoreHashVar]
    ensures ParseStoreUrl(Endpoint(env).value).value.domain == GraphqlApiDomain(env)
    ensures ParseStoreUrl(Endpoint(env).value).value.channelId.Some?
        <==> ChannelIdVar in env && env[ChannelIdVar] != "" && env[ChannelIdVar] != "1"
    ensures ParseStoreUrl(Endpoint(env).value).value.channelId.Some? ==>
              ParseStoreUrl(Endpoint(env).value).value.channelId.value == env[ChannelIdVar]
  {
    var channel := if ChannelSpecific(ChannelId(env)) then ChannelId(env) else None;
    StoreUrlRoundTrip(StoreLocation(env[StoreHashVar], channel, GraphqlApiDomain(env)));
  }

  /** Channel `'1'`, an empty channel id and an unset one give one endpoint. */
  lemma DefaultChannelAliases(env: Env)
    ensures Endpoint(env[ChannelIdVar := "1"]) == Endpoint(env[ChannelIdVar := ""])
         == Endpoint(env - {ChannelIdVar})
  {
    var e1, e2, e3 := env[ChannelIdVar := "1"], env[ChannelIdVar := ""], env - {ChannelIdVar};
    assert StoreHash(e1) == StoreHash(e2) == StoreHash(e3);
    assert GraphqlApiDomain(e1) == GraphqlApiDomain(e2) == GraphqlApiDomain(e3);
  }
}
