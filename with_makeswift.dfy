/** The `withMakeswift` middleware: when the request's `x-makeswift-draft-mode`
    query parameter equals the site API key, it calls the draft-mode route
    once, takes the `__prerender_bypass` cookie from that response, and hands
    the next middleware a copy of the request carrying that cookie and the
    draft-data cookie. In every other case the next middleware receives the
    original request. */
module WithMakeswift {
  import opened Wrappers
  import opened Js
  import opened OrderedMap
  import opened NextServer
  import DraftModeRoute

  const DraftModeParam: string := "x-makeswift-draft-mode"
  const ActivationPath: string := "/api/makeswift/draft-mode"
  const BypassCookie: string := "__prerender_bypass"
  const DraftDataCookie: string := "x-makeswift-draft-data"
  /** `JSON.stringify({ makeswift: true, siteVersion: 'Working' })`. */
  const DraftData: string := "{\"makeswift\":true,\"siteVersion\":\"Working\"}"

  /** `apiKey === process.env.MAKESWIFT_SITE_API_KEY`, where `apiKey` is the
      query parameter (`null` when absent) and the key is `undefined` when unset. */
  predicate KeyMatches(apiKey: Option<string>, siteKey: Option<string>)
    ensures KeyMatches(apiKey, siteKey) <==> apiKey.Some? && siteKey == apiKey
  {
    StrictEquals(OrNull(apiKey), OrUndefined(siteKey))
  }

  /** An outbound `fetch(url, { headers })`; the method is the default GET. */
  datatype FetchRequest = FetchRequest(url: string, headers: OMap)

  /** The activation call: the draft-mode route on the request's own origin,
      with the key in a header rather than in the URL. */
  function ActivationRequest(origin: string, apiKey: string): (r: FetchRequest)
    ensures r.url == Resolve(origin, ActivationPath)
    ensures Valid(r.headers) && r.headers.names == [DraftModeRoute.ApiKeyHeader]
    ensures Header(r.headers, DraftModeRoute.ApiKeyHeader) == Some(apiKey)
  {
    FetchRequest(Resolve(origin, ActivationPath), Put(Empty, DraftModeRoute.ApiKeyHeader, apiKey))
  }

  /** The three outcomes of the gate, plus the uncaught failure of the
      activation call. */
  datatype Decision =
    | PassThrough                  // no fetch, original request forwarded
    | FetchThenPassThrough         // fetch made, no usable token, original request forwarded
    | FetchThenAugment(token: string)  // fetch made, augmented copy forwarded
    | FetchThenThrow(error: JsError)   // fetch failed, the error propagates

  /** What the gate does, given the query parameter, the configured key and
      what the activation call yields (the parsed `Set-Cookie` list, or the
      error `fetch` throws). */
  function Decide(apiKey: Option<string>, siteKey: Option<string>, reply: Result<seq<Entry>, JsError>): (d: Decision)
    ensures d.PassThrough? <==> !(apiKey.Some? && siteKey == apiKey)
    ensures d.FetchThenThrow? <==> !d.PassThrough? && reply.Failure?
    ensures d.FetchThenThrow? ==> d.error == reply.error
    ensures d.FetchThenAugment? ==>
              && d.token != ""
              && exists i :: FirstNamedAt(reply.value, BypassCookie, i) && reply.value[i].value == d.token
    ensures d.FetchThenPassThrough? ==>
              && reply.Success?
              && forall i :: FirstNamedAt(reply.value, BypassCookie, i) ==> reply.value[i].value == ""
  {
    if !KeyMatches(apiKey, siteKey) then PassThrough
    else match reply
      case Failure(e) => FetchThenThrow(e)
      case Success(cookies) =>
        var bypass := FirstValue(cookies, BypassCookie);
        if !TruthyString(bypass) then FetchThenPassThrough else FetchThenAugment(bypass.value)
  }

  /** The cookie jar of the forwarded copy: the original jar with the bypass
      token and the draft-data cookie written into it. */
  function Augment(jar: OMap, token: string): (r: OMap)
    requires Valid(jar)
    ensures Valid(r)
    ensures Get(r, BypassCookie) == Some(token)
    ensures Get(r, DraftDataCookie) == Some(DraftData)
    ensures forall n :: n != BypassCookie && n != DraftDataCookie ==> Get(r, n) == Get(jar, n)
    ensures |jar.names| <= |r.names| <= |jar.names| + 2 && r.names[..|jar.names|] == jar.names
  {
    Put(Put(jar, BypassCookie, token), DraftDataCookie, DraftData)
  }

  /** The jar the next middleware sees. */
  function ForwardedJar(d: Decision, jar: OMap): OMap
    requires Valid(jar)
  {
    if d.FetchThenAugment? then Augment(jar, d.token) else jar
  }

  /** The network as the gate sees it: every call is recorded, and the
      activation route's reply is given. */
  class Network {
    var fetches: seq<FetchRequest>
    const activationReply: Result<seq<Entry>, JsError>

    constructor (activationReply: Result<seq<Entry>, JsError>)
      ensures fetches == [] && this.activationReply == activationReply
    {
      fetches := [];
      this.activationReply := activationReply;
    }

    method Fetch(request: FetchRequest) returns (reply: Result<seq<Entry>, JsError>)
      modifies this
      ensures fetches == old(fetches) + [request]
      ensures reply == activationReply
    {
      fetches := fetches + [request];
      reply := activationReply;
    }
  }

  datatype Call = Call(request: NextRequest, event: FetchEvent)

  /** The next middleware in the chain: it records what it receives. */
  class NextMiddleware {
    var received: seq<Call>
    const response: Response

    constructor (response: Response)
      ensures received == [] && this.response == response
    {
      received := [];
      this.response := response;
    }

    method Invoke(request: NextRequest, event: FetchEvent) returns (r: Response)
      modifies this
      ensures received == old(received) + [Call(request, event)]
      ensures r == response
    {
      received := received + [Call(request, event)];
      r := response;
    }
  }

  /** `withMakeswift(next)(request, event)`. */
  method Handle(env: Env, next: NextMiddleware, network: Network, request: NextRequest, event: FetchEvent)
    returns (result: Result<Response, JsError>)
    requires request.cookies.Valid()
    modifies next, network
    ensures request.cookies.Contents() == old(request.cookies.Contents())
    ensures
      var apiKey := SearchParam(request.url, DraftModeParam);
      var d := Decide(apiKey, EnvGet(env, DraftModeRoute.SiteApiKeyVar), network.activationReply);
      && network.fetches == old(network.fetches) +
           (if d.PassThrough? then [] else [ActivationRequest(request.url.origin, apiKey.value)])
      && (d.FetchThenThrow? ==> result == Failure(d.error) && next.received == old(next.received))
      && (d.PassThrough? || d.FetchThenPassThrough? ==>
            && result == Success(next.response)
            && next.received == old(next.received) + [Call(request, event)])
      && (d.FetchThenAugment? ==>
            && result == Success(next.response)
            && |next.received| == |old(next.received)| + 1
            && next.received[..|old(next.received)|] == old(next.received)
            && var forwarded := next.received[|old(next.received)|];
            && forwarded.event == event
            && fresh(forwarded.request) && fresh(forwarded.request.cookies)
            && forwarded.request.url == request.url
            && forwarded.request.headers == request.headers
            && forwarded.request.cookies.Valid()
            && forwarded.request.cookies.Contents() == Augment(request.cookies.Contents(), d.token))
  {
    var apiKey := SearchParam(request.url, DraftModeParam);
    if KeyMatches(apiKey, EnvGet(env, DraftModeRoute.SiteApiKeyVar)) {
      var reply := network.Fetch(ActivationRequest(request.url.origin, apiKey.value));
      if reply.Failure? {
        return Failure(reply.error);
      }
      var bypass := FirstValue(reply.value, BypassCookie);
      if !TruthyString(bypass) {
        var r := next.Invoke(request, event);
        return Success(r);
      }
      var proxied := new NextRequest.Clone(request);
      proxied.cookies.Set(BypassCookie, bypass.value);
      proxied.cookies.Set(DraftDataCookie, DraftData);
      var r := next.Invoke(proxied, event);
      return Success(r);
    }
    var r := next.Invoke(request, event);
    result := Success(r);
  }

  /** A request without the parameter never matches a site with no key configured. */
  lemma AbsentParamNeverMatchesUnsetKey(reply: Result<seq<Entry>, JsError>)
    ensures Decide(None, None, reply) == PassThrough
  {
  }

  /** Cookies with other names in the activation reply make no difference. */
  lemma OtherCookiesIgnored(apiKey: Option<string>, siteKey: Option<string>, others: seq<Entry>, cookies: seq<Entry>)
    requires forall i :: 0 <= i < |others| ==> others[i].name != BypassCookie
    ensures Decide(apiKey, siteKey, Success(others + cookies)) == Decide(apiKey, siteKey, Success(cookies))
  {
    FirstValueSkipsOthers(others, cookies, BypassCookie);
  }

  /** Only the first bypass cookie counts: anything after it is ignored. */
  lemma OnlyFirstBypassCookieUsed(apiKey: Option<string>, siteKey: Option<string>, cookies: seq<Entry>, later: seq<Entry>)
    requires exists i :: 0 <= i < |cookies| && cookies[i].name == BypassCookie
    ensures Decide(apiKey, siteKey, Success(cookies + later)) == Decide(apiKey, siteKey, Success(cookies))
  {
    FirstValueIgnoresLater(cookies, later, BypassCookie);
  }

  /** Augmenting an augmented jar adds no second copy of either cookie: the
      order of names is that of one augmentation and the latest token wins. */
  lemma AugmentTwice(jar: OMap, first: string, second: string)
    requires Valid(jar)
    ensures Augment(Augment(jar, first), second) == Augment(jar, second)
  {
    var withFirst := Put(jar, BypassCookie, first);
    var withSecond := Put(jar, BypassCookie, second);
    assert withFirst.names == withSecond.names;
    var once := Put(withFirst, DraftDataCookie, DraftData);
    var target := Put(withSecond, DraftDataCookie, DraftData);
    assert once.names == target.names;
    var again := Put(once, BypassCookie, second);
    assert again.names == once.names;
    assert again.values == withSecond.values[DraftDataCookie := DraftData];
    var result := Put(again, DraftDataCookie, DraftData);
    assert result.names == target.names;
    assert result.values == target.values;
  }

  /** Running the gate again on the request it forwarded, with the same key
      and the same activation reply, forwards the same cookie jar. */
  lemma GateIdempotent(apiKey: Option<string>, siteKey: Option<string>, reply: Result<seq<Entry>, JsError>, jar: OMap)
    requires Valid(jar)
    ensures var d := Decide(apiKey, siteKey, reply);
            ForwardedJar(d, ForwardedJar(d, jar)) == ForwardedJar(d, jar)
  {
    var d := Decide(apiKey, siteKey, reply);
    if d.FetchThenAugment? {
      AugmentTwice(jar, d.token, d.token);
    }
  }

  /** The activation call carries exactly what the draft-mode route checks,
      so whenever the gate fetches, the route switches draft mode on. */
  lemma ActivationIsAuthorised(env: Env, origin: string, apiKey: Option<string>, reply: Result<seq<Entry>, JsError>)
    requires !Decide(apiKey, EnvGet(env, DraftModeRoute.SiteApiKeyVar), reply).PassThrough?
    ensures DraftModeRoute.Authorised(ActivationRequest(origin, apiKey.value).headers, env)
  {
  }

  /** A request to `/product/shoes?x-makeswift-draft-mode=s3cr3t` carrying
      `locale=en`, with the key `s3cr3t` configured and an activation reply
      setting `__prerender_bypass=tok1`, is forwarded with the three cookies
      `locale`, `__prerender_bypass` and `x-makeswift-draft-data`, in that order. */
  lemma ActivationScenario()
    ensures
      var url := Url("https://shop.example", "/product/shoes", [Entry(DraftModeParam, "s3cr3t")]);
      var env := map[DraftModeRoute.SiteApiKeyVar := "s3cr3t"];
      var jar := Put(Empty, "locale", "en");
      var d := Decide(SearchParam(url, DraftModeParam), EnvGet(env, DraftModeRoute.SiteApiKeyVar),
                      Success([Entry(BypassCookie, "tok1")]));
      && d == FetchThenAugment("tok1")
      && ForwardedJar(d, jar)
           == OMap(["locale", BypassCookie, DraftDataCookie],
                   map["locale" := "en", BypassCookie := "tok1", DraftDataCookie := DraftData])
  {
    assert FirstValue([Entry(BypassCookie, "tok1")], BypassCookie) == Some("tok1");
  }
}
