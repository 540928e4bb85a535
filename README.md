# Draft-mode activation gate and endpoint configuration, in Dafny

This project models the core of a storefront built on BigCommerce, Makeswift
and Contentful:

- **The `withMakeswift` middleware** (`middlewares/with-makeswift.ts`). When
  the `x-makeswift-draft-mode` query parameter equals the site API key, it
  calls `GET /api/makeswift/draft-mode` once on the request's own origin,
  sending the key in the `x-makeswift-api-key` header. It takes the first
  `__prerender_bypass` cookie from the reply's `Set-Cookie` list. If that
  value is non-empty, it forwards a copy of the request whose cookie jar also
  holds `__prerender_bypass` and `x-makeswift-draft-data`. Otherwise it
  forwards the original request. A failure of the activation call propagates.
- **The draft-mode route** (`app/api/makeswift/draft-mode/route.ts`). It
  switches the host's draft mode on only when the header carries the
  configured key. It always answers status 200 with no body.
- **The endpoint configuration of `scripts/generate.cjs`**: the store-hash,
  channel and token getters and the BigCommerce GraphQL endpoint.
- **The Contentful client** (`integrations/contentful/client.ts`): query
  normalisation, first-operation lookup, the logging switch, the Contentful
  settings and endpoint, and how `contentfulFetch` builds its request and
  checks the response.

Modules, one file each:

- `Wrappers`: Option and Result.
- `Js`: the JavaScript semantics the code relies on. `process.env` values are
  `Option<string>`, and an unset value is `undefined`. A missing query
  parameter or header is `null`. Strict equality keeps `null !== undefined`.
  Truthiness rejects `""`, and `??` keeps it.
- `OrderedMap`: insertion-ordered maps with last-write-wins `Put` (a present
  name keeps its place) and object spread. It also holds first-match lookup
  in name/value lists, which is how `Array.prototype.find` and
  `URLSearchParams.get` behave.
- `NextServer`: the URL, the request class with its cookie-jar class
  (updated in place by `Set`), and the response.
- `DraftModeRoute`: the route and the host's draft-mode flag.
- `WithMakeswift`: the gate. The pure function `Decide` states the outcome:
  pass through with no fetch, fetch then pass through, fetch then augment, or
  fetch then throw. The method `Handle` runs the gate against a recording
  network and a recording next middleware. Its contract ties what they
  record to `Decide`.
- `ContentfulConfig`: the Contentful settings and endpoint. The text of
  `scripts/generate.cjs:6-8,49-73` is identical to
  `integrations/contentful/client.ts:48-76`, so both files use this one module.
- `GenerateScript`: the BigCommerce getters and endpoint.
- `ContentfulClient`: the rest of `client.ts`.
- `Text`: prefix, suffix and separator splitting. The parsers
  `ParseEndpointUrl` and `ParseStoreUrl` use it to read the built URLs back.
  This gives each URL template an inverse to be proved against.

## Behaviour worth noting

- A failure of the activation fetch is not caught. It propagates, and the
  next middleware is not called.
- The cookies the gate adds are `__prerender_bypass` and
  `x-makeswift-draft-data`. The second is set to
  `{"makeswift":true,"siteVersion":"Working"}`.
- `contentfulFetch` spreads `...rest` after `method: 'POST'`. A `method` or
  `body` in the caller's `fetchOptions` therefore replaces the default.

## Model

| member | source | states |
|---|---|---|
| `WithMakeswift.KeyMatches` | middlewares/with-makeswift.ts:13-18 | the gate opens exactly when the query parameter is present and equals the configured key; an absent parameter never matches an unset key |
| `WithMakeswift.ActivationRequest` | middlewares/with-makeswift.ts:24-28 | the activation call goes to `/api/makeswift/draft-mode` on the request's origin with the single header `x-makeswift-api-key` set to the key |
| `WithMakeswift.Decide` | middlewares/with-makeswift.ts:13-64 | no match gives pass-through with no fetch; a match with a failed fetch propagates that error; a match with a non-empty first `__prerender_bypass` value augments with that value; otherwise the first such cookie is missing or empty and the original is forwarded |
| `WithMakeswift.Augment` | middlewares/with-makeswift.ts:46-52 | the forwarded jar holds the token and the draft-data cookie, every other cookie keeps its value, the original names keep their order, and at most two names are added |
| `WithMakeswift.Handle` | middlewares/with-makeswift.ts:6-66 | the recorded fetches grow by exactly the activation call when the key matches and by nothing otherwise; the next middleware receives the very same request and event on pass-through, a fresh copy with the augmented jar and the same URL and headers on success, and is not called when the fetch throws; the original jar is never modified |
| `WithMakeswift.AbsentParamNeverMatchesUnsetKey` | middlewares/with-makeswift.ts:13-18 | a request without the parameter passes through on a site with no key configured |
| `WithMakeswift.OtherCookiesIgnored` | middlewares/with-makeswift.ts:35-36 | cookies with other names in the activation reply do not change the outcome |
| `WithMakeswift.OnlyFirstBypassCookieUsed` | middlewares/with-makeswift.ts:36 | once a `__prerender_bypass` cookie is present, any cookies after it do not change the outcome |
| `WithMakeswift.AugmentTwice` | middlewares/with-makeswift.ts:48-52 | augmenting an augmented jar equals one augmentation with the latest token: no duplicate names, last write wins |
| `WithMakeswift.GateIdempotent` | middlewares/with-makeswift.ts:46-57 | running the gate again on the jar it forwarded, with the same key and reply, forwards the same jar |
| `WithMakeswift.ActivationIsAuthorised` | middlewares/with-makeswift.ts:18-28 | whenever the gate fetches, its request passes the draft-mode route's header check under the same configuration |
| `WithMakeswift.ActivationScenario` | middlewares/with-makeswift.ts:13-57 | key `s3cr3t`, a request carrying `locale=en` and a reply setting `__prerender_bypass=tok1` forward the cookies `locale`, `__prerender_bypass`, `x-makeswift-draft-data` with their values, in that order |
| `WithMakeswift.Network.Fetch` | middlewares/with-makeswift.ts:24 | each call is recorded, and the activation route's reply is returned |
| `WithMakeswift.NextMiddleware.Invoke` | middlewares/with-makeswift.ts:43 | each call records the request object and event received |
| `NextServer.SearchParam` | middlewares/with-makeswift.ts:13 | `searchParams.get` is absent exactly when no parameter has the name, and otherwise gives the value of the first one with the name |
| `NextServer.RequestCookies.Set` | middlewares/with-makeswift.ts:48-52 | the jar afterwards is `Put` of the old jar: last write wins, a present name keeps its place, and the jar invariant is kept |
| `NextServer.NextRequest.Clone` | middlewares/with-makeswift.ts:46 | the copy has the same URL, headers and cookies, in a fresh jar of its own |
| `OrderedMap.Put` | middlewares/with-makeswift.ts:48-52 | the written name reads back the new value, every other name reads back its old value, names stay distinct, and a new name is appended |
| `OrderedMap.PutPut` | middlewares/with-makeswift.ts:48-52 | writing one name twice equals writing it once with the second value |
| `OrderedMap.PutOther` | middlewares/with-makeswift.ts:48-52 | a write to another name keeps the first write's value and position |
| `OrderedMap.PutPresentKeepsNames` | middlewares/with-makeswift.ts:48-52 | overwriting a present name never changes the order of names |
| `OrderedMap.FirstValue` | middlewares/with-makeswift.ts:36 | `find(...)?.value` is absent exactly when no entry has the name, and otherwise gives the value at the first index with the name |
| `OrderedMap.FirstValueSkipsOthers` | middlewares/with-makeswift.ts:36 | entries with other names placed in front do not change the value found |
| `OrderedMap.FirstValueIgnoresLater` | middlewares/with-makeswift.ts:36 | entries after the first match do not change the value found |
| `OrderedMap.Spread` | integrations/contentful/client.ts:137-141 | `{...target, ...source}`: names of the source read back the source's values, other names the target's; the target's names stay first and in order; names stay distinct |
| `OrderedMap.SpreadNames` | integrations/contentful/client.ts:140 | writing a list of names in order gives each listed name its value and leaves the rest alone, keeping the target's names as a prefix |
| `DraftModeRoute.Authorised` | app/api/makeswift/draft-mode/route.ts:11 | the route's check holds exactly when the header is present and equals the configured key |
| `DraftModeRoute.Get` | app/api/makeswift/draft-mode/route.ts:4-27 | draft mode is on afterwards exactly when it was on before or the header key matched, so a mismatch leaves the state as it was; the response is always status 200 with no body |
| `DraftModeRoute.HostRuntime.EnableDraftMode` | app/api/makeswift/draft-mode/route.ts:20 | draft mode is on afterwards |
| `DraftModeRoute.MissingHeaderUnsetKeyRejected` | app/api/makeswift/draft-mode/route.ts:11 | a missing header with an unset key does not pass the check |
| `Js.Nullish` | scripts/generate.cjs:5-8 | `??` takes the fallback only for an unset value, so an empty string is kept |
| `GenerateScript.GraphqlApiDomain` | scripts/generate.cjs:5 | the BigCommerce domain is `mybigcommerce.com` only when its variable is unset |
| `GenerateScript.StoreHash` | scripts/generate.cjs:10-18 | succeeds exactly when the store hash is set and non-empty, with that value; otherwise throws `Missing store hash` |
| `GenerateScript.Token` | scripts/generate.cjs:26-34 | succeeds exactly when the impersonation token is set and non-empty; otherwise throws `Missing customer impersonation token` |
| `GenerateScript.ChannelId` | scripts/generate.cjs:20-24 | the channel id is present exactly when its variable is set, with that value |
| `GenerateScript.ChannelSpecific` | scripts/generate.cjs:42 | a channel id selects a channel host exactly when it is set, non-empty and not `1` |
| `GenerateScript.Endpoint` | scripts/generate.cjs:36-47 | fails with `Missing store hash` exactly when the hash is missing or empty; otherwise gives the store URL, naming the channel only when it is channel-specific |
| `GenerateScript.StoreUrlRoundTrip` | scripts/generate.cjs:43-46 | both URL forms read back to the store hash, channel and domain they were built from |
| `GenerateScript.EndpointNamesChannel` | scripts/generate.cjs:40-46 | the endpoint in use names the configured hash and domain, and names a channel exactly when the channel id is set, non-empty and not `1` |
| `GenerateScript.DefaultChannelAliases` | scripts/generate.cjs:42-44 | channel id `1`, an empty channel id and an unset one give the same endpoint |
| `ContentfulConfig.GraphqlApiDomain` | integrations/contentful/client.ts:48-49 | the Contentful domain is `graphql.contentful.com` only when its variable is unset, and otherwise the variable's value |
| `ContentfulConfig.Environment` | integrations/contentful/client.ts:50 | the Contentful environment is `master` only when its variable is unset, and otherwise the variable's value |
| `ContentfulConfig.Required` | scripts/generate.cjs:49-67 | a required setting succeeds exactly when it is set and non-empty, with that value; otherwise it throws the given message |
| `ContentfulConfig.SpaceId` | integrations/contentful/client.ts:52-60 | succeeds exactly when `CONTENTFUL_SPACE_ID` is set and non-empty; otherwise throws `Missing Contentful space ID` |
| `ContentfulConfig.AccessToken` | integrations/contentful/client.ts:62-70 | succeeds exactly when `CONTENTFUL_ACCESS_TOKEN` is set and non-empty; otherwise throws `Missing Contentful access token` |
| `ContentfulConfig.Endpoint` | integrations/contentful/client.ts:72-76 | fails exactly when the space id does, with its message; otherwise fills the content-endpoint template with the configured domain, space and environment |
| `ContentfulConfig.EndpointRoundTrip` | scripts/generate.cjs:69-73 | the content-endpoint URL reads back to the domain, space id and environment it was built from |
| `ContentfulConfig.EndpointNamesConfiguredSpace` | integrations/contentful/client.ts:48-76 | the endpoint in use names the configured space, on the configured or default domain and environment |
| `ContentfulConfig.DefaultEndpoint` | integrations/contentful/client.ts:48-50 | with only the space id set, the endpoint is on `graphql.contentful.com` and environment `master` |
| `ContentfulConfig.EmptySettingsKept` | scripts/generate.cjs:6-8 | an empty domain or environment is used as it is, not replaced by the default |
| `ContentfulClient.OperationDefinitions` | integrations/contentful/client.ts:6-8 | the filter keeps only operation definitions; it is empty exactly when there are none, and otherwise starts with the first one |
| `ContentfulClient.GetOperationInfo` | integrations/contentful/client.ts:10-21 | absent exactly when the document has no operation; otherwise the name and type of the first operation, skipping fragments and other definitions |
| `ContentfulClient.NormalizeQuery` | integrations/contentful/client.ts:32-46 | a string primitive and a `String` object give their text; a document object with `kind` gives its printed text; it throws `Invalid query type` exactly for an object without `kind` |
| `ContentfulClient.NormalizeQueryIdempotent` | integrations/contentful/client.ts:32-46 | a normalised query normalises to itself |
| `ContentfulClient.LoggingEnabled` | integrations/contentful/client.ts:79-84 | logging is on exactly when (`NODE_ENV` is not `production` and `CLIENT_LOGGER` is not `false`) or `CLIENT_LOGGER` is `true` |
| `ContentfulClient.LoggingSwitch` | integrations/contentful/client.ts:79-84 | `CLIENT_LOGGER=true` forces logging on and `false` forces it off; otherwise logging is on exactly outside production |
| `ContentfulClient.RequestLogger` | integrations/contentful/client.ts:78-91 | a no-op when logging is off; when on, a failed parse propagates its error, a successful result always times the document's first operation, and it throws the destructuring `TypeError` exactly when the parsed document has none |
| `ContentfulClient.InitHeaders` | integrations/contentful/client.ts:137-141 | `Content-Type` and `Authorization` come first; every caller header overrides with its value; missing defaults are `application/json` and `Bearer {token}`; no other header appears |
| `ContentfulClient.BuildInit` | integrations/contentful/client.ts:131-148 | the method is POST unless the caller supplies one; the headers are the defaults overridden by the caller's; without a caller body, the JSON body has `query` and has `variables` exactly when they are truthy; a caller body replaces it; `cache` is kept exactly when it is a non-empty string |
| `ContentfulClient.Prepare` | integrations/contentful/client.ts:131-148 | the request is prepared exactly when the query type, the logger, the space id and the access token all succeed; the first of them to fail gives the error thrown; a prepared request goes to the Contentful endpoint with the init built from the token |
| `ContentfulClient.ContentfulFetch` | integrations/contentful/client.ts:122-157 | succeeds exactly when the request is prepared, the fetch succeeds and the status is 2xx; a preparation or fetch failure propagates its error; a non-ok response throws `Failed to fetch data: {statusText}`; a success returns the reply sent to the prepared URL and init, logging the logger's operation exactly when logging is on |
| `ContentfulClient.DefaultOptionsRequest` | integrations/contentful/client.ts:126-148 | with the default empty `fetchOptions`, the request is a POST with exactly `Content-Type: application/json` and `Authorization: Bearer {token}`, the GraphQL body and no cache |
| `ContentfulClient.SpaceIdCheckedBeforeToken` | integrations/contentful/client.ts:135-139 | with both the space id and the token missing, the space-id error is the one thrown |
| `ContentfulClient.CallerHeadersOverride` | integrations/contentful/client.ts:136-141 | a caller `Content-Type` replaces the default value and keeps the first position |

## Left out

- Network I/O. The activation `fetch` is a `Network` object that records each request and returns a given reply. The Contentful `fetch` is a given reply.
- Timeouts and cancellation of the activation call.
- Parsing the `Set-Cookie` header (the set-cookie-parser library). The reply is given as the already-parsed list of name/value pairs, in the sense of section 4.1 of RFC 6265. Cookie attributes are left out.
- How several `Set-Cookie` headers, joined by `headers.get('set-cookie')`, reach the parser. The model starts from the list the parser returns.
- How the host runtime mints the bypass token, and the `Set-Cookie` header it adds to the route's response. `draftMode().enable()` only sets a flag.
- Middleware composition (`compose-middlewares` is not part of this model). The next middleware is an object that records the request and event it receives and returns a fixed response.
- Header names are case-insensitive, and repeated headers are joined. Both are left out: header names are taken as already lower-case and unique.
- A `Headers` instance or an array passed as `fetchOptions.headers`. Only a plain record is modelled.
- Explicit `undefined` values in `fetchOptions`.
- Fields of `fetchOptions` other than `cache`, `headers`, `method` and `body`. They are passed through unchanged and are not modelled.
- `NaN` as a value of `variables`.
- The text of `JSON.stringify` for the request body. The body is kept as a structure holding `query` and the optional `variables`.
- The GraphQL `parse` and `print` functions. A parsed document is given as its list of definitions. A printable document object carries its printed text. A parse error is given as a failed parse result.
- `Date.now`, the log line written by `console.log`, and `response.json()`. The model keeps only which operation the logger would report.
- The `generate()` function of `scripts/generate.cjs`, which downloads schemas, runs codegen and calls `process.exit`.
- The React and provider files, and `app/api/contentful/posts/route.ts`, a thin caller of `contentfulFetch`.
- `request.cookies.set` also rewrites the copy's `cookie` header. The model keeps cookies only in the jar and leaves the `cookie` header out of the header map, so "the same headers" in `WithMakeswift.Handle` means every header other than `cookie`.
- `new URL(path, origin)` is modelled as the origin followed by the absolute path.
- GenerateScript.StoreUrlRoundTrip: holds only for store hashes without `-` or `.` and channel ids without `.`. Other values make the URL ambiguous, so no parser can recover them.
- ContentfulConfig.EndpointRoundTrip: holds only for a domain and space id without `/`. Other values make the URL ambiguous in the same way.
