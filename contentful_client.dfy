/** The Contentful GraphQL client: query normalisation, the first-operation
    lookup used for logging, the logging switch, and how `contentfulFetch`
    builds its request and checks the response. The GraphQL parser and
    printer are foreign: a parsed document is given as its list of
    definitions, and a printable document object carries its printed text. */
module ContentfulClient {
  import opened Wrappers
  import opened Js
  import opened OrderedMap
  import ContentfulConfig

  // ---------------------------------------------------------------------
  // Operations of a parsed document

  datatype OperationType = Query | Mutation | Subscription

  /** A top-level definition of a parsed GraphQL document. */
  datatype Definition =
    | OperationDefinition(name: Option<string>, operation: OperationType)
    | FragmentDefinition(fragmentName: string)
    | OtherDefinition(kind: string)

  datatype OperationInfo = OperationInfo(name: Option<string>, operationType: OperationType)

  /** `isOperationDefinitionNode`. */
  predicate IsOperationDefinition(d: Definition) {
    d.OperationDefinition?
  }

  ghost predicate FirstOperationAt(defs: seq<Definition>, i: int) {
    && 0 <= i < |defs|
    && IsOperationDefinition(defs[i])
    && forall j :: 0 <= j < i ==> !IsOperationDefinition(defs[j])
  }

  /** `definitions.filter(isOperationDefinitionNode)`. */
  function OperationDefinitions(defs: seq<Definition>): (ops: seq<Definition>)
    ensures forall k :: 0 <= k < |ops| ==> IsOperationDefinition(ops[k])
    ensures ops == [] <==> forall i :: 0 <= i < |defs| ==> !IsOperationDefinition(defs[i])
    ensures ops != [] ==> exists i :: FirstOperationAt(defs, i) && ops[0] == defs[i]
    ensures |ops| <= |defs|
  {
    if defs == [] then []
    else
      var rest := OperationDefinitions(defs[1..]);
      assert forall i :: 1 <= i < |defs| ==> defs[i] == defs[1..][i - 1];
      if IsOperationDefinition(defs[0]) then
        assert FirstOperationAt(defs, 0);
        [defs[0]] + rest
      else
        assert rest != [] ==> exists i :: FirstOperationAt(defs, i) && rest[0] == defs[i] by {
          if rest != [] {
            var i :| FirstOperationAt(defs[1..], i) && rest[0] == defs[1..][i];
            assert FirstOperationAt(defs, i + 1);
          }
        }
        rest
  }

  function InfoOf(d: Definition): OperationInfo
    requires IsOperationDefinition(d)
  {
    OperationInfo(d.name, d.operation)
  }

  /** `getOperationInfo`: name and type of the first operation definition,
      skipping fragments and other definitions; `undefined` when there is none. */
  function GetOperationInfo(defs: seq<Definition>): (r: Option<OperationInfo>)
    ensures r.None? <==> forall i :: 0 <= i < |defs| ==> !IsOperationDefinition(defs[i])
    ensures r.Some? ==> exists i :: FirstOperationAt(defs, i) && r.value == InfoOf(defs[i])
  {
    var ops := OperationDefinitions(defs);
    var infos := seq(|ops|, k requires 0 <= k < |ops| => InfoOf(ops[k]));
    if |infos| == 0 then None else Some(infos[0])
  }

  // ---------------------------------------------------------------------
  // Query normalisation

  /** What `document` can be: a string, a `String` object, or another object
      that either has a `kind` field (a GraphQL document node, which `print`
      turns into `printed`) or has none. */
  datatype QueryDocument =
    | StringPrimitive(text: string)
    | StringObject(text: string)
    | DocumentObject(hasKind: bool, printed: string)

  /** `normalizeQuery`. */
  function NormalizeQuery(document: QueryDocument): (r: Result<string, JsError>)
    ensures document.StringPrimitive? ==> r == Success(document.text)
    ensures document.StringObject? ==> r == Success(document.text)
    ensures document.DocumentObject? && document.hasKind ==> r == Success(document.printed)
    ensures r.Failure? <==> document.DocumentObject? && !document.hasKind
    ensures r.Failure? ==> r.error == Error("Invalid query type")
  {
    match document
    case StringPrimitive(text) => Success(text)
    case StringObject(text) => Success(text)
    case DocumentObject(hasKind, printed) =>
      if hasKind then Success(printed) else Failure(Error("Invalid query type"))
  }

  /** Normalising is idempotent: a normalised query normalises to itself. */
  lemma NormalizeQueryIdempotent(document: QueryDocument)
    requires NormalizeQuery(document).Success?
    ensures NormalizeQuery(StringPrimitive(NormalizeQuery(document).value)) == NormalizeQuery(document)
  {
  }

  // ---------------------------------------------------------------------
  // Request logging

  const NodeEnvVar: string := "NODE_ENV"
  const ClientLoggerVar: string := "CLIENT_LOGGER"

  /** The condition under which `requestLogger` logs. */
  predicate LoggingEnabled(env: Env)
    ensures LoggingEnabled(env) <==>
              || (EnvGet(env, NodeEnvVar) != Some("production") && EnvGet(env, ClientLoggerVar) != Some("false"))
              || EnvGet(env, ClientLoggerVar) == Some("true")
  {
    var nodeEnv := OrUndefined(EnvGet(env, NodeEnvVar));
    var clientLogger := OrUndefined(EnvGet(env, ClientLoggerVar));
    || (!StrictEquals(nodeEnv, Str("production")) && !StrictEquals(clientLogger, Str("false")))
    || StrictEquals(clientLogger, Str("true"))
  }

  /** `CLIENT_LOGGER` decides when it is `'true'` or `'false'`; otherwise
      logging is on outside production and off in production. */
  lemma LoggingSwitch(env: Env)
    ensures EnvGet(env, ClientLoggerVar) == Some("true") ==> LoggingEnabled(env)
    ensures EnvGet(env, ClientLoggerVar) == Some("false") ==> !LoggingEnabled(env)
    ensures EnvGet(env, ClientLoggerVar) !in {Some("true"), Some("false")} ==>
              (LoggingEnabled(env) <==> EnvGet(env, NodeEnvVar) != Some("production"))
  {
  }

  /** The closure `requestLogger` returns: a no-op, or one that reports the
      document's first operation (timing and output are not modelled). */
  datatype Logger = Noop | Timing(operation: OperationInfo)

  /** The runtime's `TypeError` for destructuring `undefined`; its exact text
      depends on the engine, so the model uses a neutral one. */
  const DestructureMessage: string := "cannot destructure the operation info: it is undefined"

  /** `requestLogger(document)`, given what parsing the document yields.
      When logging is on, a document without an operation makes the
      destructuring of `getOperationInfo`'s result throw. */
  function RequestLogger(env: Env, parsed: Result<seq<Definition>, JsError>): (r: Result<Logger, JsError>)
    ensures !LoggingEnabled(env) ==> r == Success(Noop)
    ensures r.Success? && r.value.Timing? ==>
              LoggingEnabled(env) && parsed.Success? && GetOperationInfo(parsed.value) == Some(r.value.operation)
    ensures LoggingEnabled(env) && parsed.Success? ==>
              (r.Failure? <==> forall i :: 0 <= i < |parsed.value| ==> !IsOperationDefinition(parsed.value[i]))
    ensures LoggingEnabled(env) && r.Success? ==> r.value.Timing?
    ensures LoggingEnabled(env) && parsed.Failure? ==> r == Failure(parsed.error)
    ensures r.Failure? && parsed.Success? ==> r.error == TypeError(DestructureMessage)
  {
    if !LoggingEnabled(env) then Success(Noop)
    else
      var defs :- parsed;
      match GetOperationInfo(defs)
      case None => Failure(TypeError(DestructureMessage))
      case Some(info) => Success(Timing(info))
  }

  // ---------------------------------------------------------------------
  // Building the request

  /** The part of `fetchOptions` the client inspects: `cache`, `headers`
      (a plain record), and a `method` or `body` in the remaining fields. */
  datatype FetchOptions = FetchOptions(cache: Option<string>, headers: Option<OMap>, httpMethod: Option<string>, body: Option<string>)

  const NoOptions: FetchOptions := FetchOptions(None, None, None, None)

  /** The request body: the GraphQL JSON body `{ query, variables? }`, or a
      body the caller passed in `fetchOptions`. */
  datatype RequestBody = GraphqlBody(query: string, variables: Option<JsValue>) | CallerBody(text: string)

  datatype RequestInit = RequestInit(httpMethod: string, headers: OMap, body: RequestBody, cache: Option<string>)

  const ContentTypeHeader: string := "Content-Type"
  const AuthorizationHeader: string := "Authorization"

  /** The `headers` of the `fetch` call: the two defaults first, then the
      caller's headers spread over them. */
  function InitHeaders(token: string, callerHeaders: OMap): (r: OMap)
    requires Valid(callerHeaders)
    ensures Valid(r)
    ensures |r.names| >= 2 && r.names[..2] == [ContentTypeHeader, AuthorizationHeader]
    ensures forall n :: n in callerHeaders.values ==> Get(r, n) == Get(callerHeaders, n)
    ensures ContentTypeHeader !in callerHeaders.values ==> Get(r, ContentTypeHeader) == Some("application/json")
    ensures AuthorizationHeader !in callerHeaders.values ==> Get(r, AuthorizationHeader) == Some("Bearer " + token)
    ensures forall n :: n !in callerHeaders.values && n != ContentTypeHeader && n != AuthorizationHeader ==>
              Get(r, n).None?
  {
    var defaults := Put(Put(Empty, ContentTypeHeader, "application/json"), AuthorizationHeader, "Bearer " + token);
    assert defaults.names == [ContentTypeHeader, AuthorizationHeader];
    Spread(defaults, callerHeaders)
  }

  /** The second argument of the `fetch` call in `contentfulFetch`. */
  function BuildInit(query: string, variables: JsValue, token: string, options: FetchOptions): (r: RequestInit)
    requires options.headers.Some? ==> Valid(options.headers.value)
    ensures r.httpMethod == (if options.httpMethod.Some? then options.httpMethod.value else "POST")
    ensures r.headers == InitHeaders(token, if options.headers.Some? then options.headers.value else Empty)
    ensures options.body.None? ==> r.body.GraphqlBody? && r.body.query == query
    ensures options.body.None? ==> (r.body.variables.Some? <==> Truthy(variables))
    ensures options.body.None? && r.body.variables.Some? ==> r.body.variables.value == variables
    ensures options.body.Some? ==> r.body == CallerBody(options.body.value)
    ensures r.cache.Some? <==> options.cache.Some? && options.cache.value != ""
    ensures r.cache.Some? ==> r.cache == options.cache
  {
    var body := GraphqlBody(query, if Truthy(variables) then Some(variables) else None);
    var cache := if options.cache.Some? && TruthyString(options.cache) then options.cache else None;
    RequestInit(
      if options.httpMethod.Some? then options.httpMethod.value else "POST",
      InitHeaders(token, if options.headers.Some? then options.headers.value else Empty),
      if options.body.Some? then CallerBody(options.body.value) else body,
      cache)
  }

  // ---------------------------------------------------------------------
  // The whole call

  datatype HttpResponse = HttpResponse(status: int, statusText: string)

  /** `response.ok`. */
  predicate Ok(response: HttpResponse) {
    200 <= response.status <= 299
  }

  /** Everything `contentfulFetch` settles before it calls `fetch`. */
  datatype Prepared = Prepared(url: string, init: RequestInit, logger: Logger)

  /** The request `contentfulFetch` sends, or the error it throws first:
      the query type, then the logger, then the space id (evaluated for the
      URL argument), then the access token (evaluated in the headers). */
  function Prepare(env: Env, document: QueryDocument, parsed: Result<seq<Definition>, JsError>,
                   variables: JsValue, options: FetchOptions): (r: Result<Prepared, JsError>)
    requires options.headers.Some? ==> Valid(options.headers.value)
    ensures NormalizeQuery(document).Failure? ==> r == Failure(Error("Invalid query type"))
    ensures NormalizeQuery(document).Success? && RequestLogger(env, parsed).Failure? ==>
              r == Failure(RequestLogger(env, parsed).error)
    ensures NormalizeQuery(document).Success? && RequestLogger(env, parsed).Success?
            && ContentfulConfig.SpaceId(env).Failure? ==>
              r == Failure(Error("Missing Contentful space ID"))
    ensures NormalizeQuery(document).Success? && RequestLogger(env, parsed).Success?
            && ContentfulConfig.SpaceId(env).Success? && ContentfulConfig.AccessToken(env).Failure? ==>
              r == Failure(Error("Missing Contentful access token"))
    ensures r.Success? <==>
              && NormalizeQuery(document).Success?
              && RequestLogger(env, parsed).Success?
              && ContentfulConfig.SpaceId(env).Success?
              && ContentfulConfig.AccessToken(env).Success?
    ensures r.Success? ==>
              && r.value.url == ContentfulConfig.Endpoint(env).value
              && r.value.init == BuildInit(NormalizeQuery(document).value, variables,
                                           ContentfulConfig.AccessToken(env).value, options)
              && r.value.logger == RequestLogger(env, parsed).value
  {
    var query :- NormalizeQuery(document);
    var logger :- RequestLogger(env, parsed);
    var url :- ContentfulConfig.Endpoint(env);
    var token :- ContentfulConfig.AccessToken(env);
    Success(Prepared(url, BuildInit(query, variables, token, options), logger))
  }

  /** A completed call: the request sent, the ok response, and the operation
      the logger reported, if it was active. */
  datatype Exchange = Exchange(url: string, init: RequestInit, response: HttpResponse, logged: Option<OperationInfo>)

  /** `contentfulFetch`, given what parsing the query yields and what the
      network answers. A non-ok response throws and is not logged. */
  function ContentfulFetch(env: Env, document: QueryDocument, parsed: Result<seq<Definition>, JsError>,
                           variables: JsValue, options: FetchOptions,
                           reply: Result<HttpResponse, JsError>): (r: Result<Exchange, JsError>)
    requires options.headers.Some? ==> Valid(options.headers.value)
    ensures r.Success? <==>
              Prepare(env, document, parsed, variables, options).Success? && reply.Success? && Ok(reply.value)
    ensures Prepare(env, document, parsed, variables, options).Failure? ==>
              r == Failure(Prepare(env, document, parsed, variables, options).error)
    ensures Prepare(env, document, parsed, variables, options).Success? && reply.Failure? ==>
              r == Failure(reply.error)
    ensures Prepare(env, document, parsed, variables, options).Success? && reply.Success? && !Ok(reply.value) ==>
              r == Failure(Error("Failed to fetch data: " + reply.value.statusText))
    ensures r.Success? ==>
              var prepared := Prepare(env, document, parsed, variables, options).value;
              && reply == Success(r.value.response)
              && r.value.url == prepared.url
              && r.value.init == prepared.init
              && r.value.logged == (if prepared.logger.Timing? then Some(prepared.logger.operation) else None)
              && (r.value.logged.Some? <==> LoggingEnabled(env))
  {
    var prepared :- Prepare(env, document, parsed, variables, options);
    var response :- reply;
    if !Ok(response) then Failure(Error("Failed to fetch data: " + response.statusText))
    else
      var logged := if prepared.logger.Timing? then Some(prepared.logger.operation) else None;
      Success(Exchange(prepared.url, prepared.init, response, logged))
  }

  /** A missing space id is reported even when the access token is missing
      too, and no request is made. */
  lemma SpaceIdCheckedBeforeToken(env: Env, document: QueryDocument, parsed: Result<seq<Definition>, JsError>,
                                  variables: JsValue, options: FetchOptions, reply: Result<HttpResponse, JsError>)
    requires options.headers.Some? ==> Valid(options.headers.value)
    requires NormalizeQuery(document).Success? && RequestLogger(env, parsed).Success?
    requires ContentfulConfig.SpaceId(env).Failure?
    ensures ContentfulFetch(env, document, parsed, variables, options, reply)
         == Failure(Error("Missing Contentful space ID"))
  {
  }

  /** With the default `fetchOptions = {}`, the request is a POST carrying
      exactly the two default headers and the GraphQL JSON body. */
  lemma DefaultOptionsRequest(query: string, variables: JsValue, token: string)
    ensures var init := BuildInit(query, variables, token, NoOptions);
            && init.httpMethod == "POST"
            && init.headers.names == [ContentTypeHeader, AuthorizationHeader]
            && Get(init.headers, ContentTypeHeader) == Some("application/json")
            && Get(init.headers, AuthorizationHeader) == Some("Bearer " + token)
            && init.body.GraphqlBody? && init.body.query == query
            && init.cache.None?
  {
    var init := BuildInit(query, variables, token, NoOptions);
    assert forall n :: n in init.headers.values <==> n in init.headers.names;
    assert |init.headers.names| >= 2 && init.headers.names[..2] == [ContentTypeHeader, AuthorizationHeader];
    assert forall i :: 2 <= i < |init.headers.names| ==> init.headers.names[i] !in init.headers.values;
  }

  /** Caller-supplied headers override the defaults of the same name while
      the defaults keep their leading positions. */
  lemma CallerHeadersOverride(query: string, variables: JsValue, token: string, headers: OMap)
    requires Valid(headers) && ContentTypeHeader in headers.values
    ensures var init := BuildInit(query, variables, token, FetchOptions(None, Some(headers), None, None));
            && init.httpMethod == "POST"
            && init.headers.names[0] == ContentTypeHeader
            && Get(init.headers, ContentTypeHeader) == Some(headers.values[ContentTypeHeader])
  {
  }
}
