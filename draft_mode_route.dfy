/** `GET /api/makeswift/draft-mode`: switches the host's draft mode on when
    the request carries the site API key in the `x-makeswift-api-key` header,
    and always answers with an empty 200 response. */
module DraftModeRoute {
  import opened Wrappers
  import opened Js
  import opened OrderedMap
  import opened NextServer

  const ApiKeyHeader: string := "x-makeswift-api-key"
  const SiteApiKeyVar: string := "MAKESWIFT_SITE_API_KEY"

  /** `request.headers.get('x-makeswift-api-key') === process.env.MAKESWIFT_SITE_API_KEY`:
      a missing header (`null`) never equals an unset key (`undefined`). */
  predicate Authorised(headers: OMap, env: Env)
    ensures Authorised(headers, env)
        <==> Header(headers, ApiKeyHeader).Some? && Header(headers, ApiKeyHeader) == EnvGet(env, SiteApiKeyVar)
  {
    StrictEquals(OrNull(Header(headers, ApiKeyHeader)), OrUndefined(EnvGet(env, SiteApiKeyVar)))
  }

  /** The host runtime's draft-mode state, which `draftMode().enable()` sets. */
  class HostRuntime {
    var draftEnabled: bool

    constructor (draftEnabled: bool)
      ensures this.draftEnabled == draftEnabled
    {
      this.draftEnabled := draftEnabled;
    }

    method EnableDraftMode()
      modifies this
      ensures draftEnabled
    {
      draftEnabled := true;
    }
  }

  /** The route handler: draft mode is on afterwards exactly when it was on
      before or the header carried the configured key; the response does not
      depend on the outcome. */
  method Get(env: Env, request: NextRequest, host: HostRuntime) returns (response: Response)
    modifies host
    ensures host.draftEnabled == (old(host.draftEnabled) || Authorised(request.headers, env))
    ensures response == EmptyOk
  {
    if Authorised(request.headers, env) {
      host.EnableDraftMode();
    }
    response := EmptyOk;
  }

  /** With no header and no configured key, the check fails. */
  lemma MissingHeaderUnsetKeyRejected(headers: OMap, env: Env)
    requires ApiKeyHeader !in headers.values && SiteApiKeyVar !in env
    ensures !Authorised(headers, env)
  {
  }
}
