/** The parts of the hosting framework's request objects the gate and the
    activation route touch: the URL with its query parameters, the header
    list, the cookie jar a request carries, and the response. */
module NextServer {
  import opened Wrappers
  import opened OrderedMap

  /** `request.nextUrl`: its origin (scheme, host and port, no trailing
      slash), its path, and its query parameters in order of appearance. */
  datatype Url = Url(origin: string, pathname: string, searchParams: seq<Entry>)

  /** `url.searchParams.get(name)`: the first parameter with that name. */
  function SearchParam(url: Url, name: string): (r: Option<string>)
    ensures r.None? <==> forall i :: 0 <= i < |url.searchParams| ==> url.searchParams[i].name != name
    ensures r.Some? ==> exists i :: FirstNamedAt(url.searchParams, name, i) && url.searchParams[i].value == r.value
  {
    FirstValue(url.searchParams, name)
  }

  /** `new URL(path, origin)` for an absolute path. */
  function Resolve(origin: string, path: string): string {
    origin + path
  }

  /** `headers.get(name)`, with header names already in lower case. */
  function Header(headers: OMap, name: string): Option<string> {
    Get(headers, name)
  }

  /** The opaque `event` argument a middleware passes along. */
  datatype FetchEvent = FetchEvent(id: nat)

  datatype Response = Response(status: int, statusText: string, body: Option<string>)

  /** `new Response(null)`: status 200, empty status text, no body. */
  const EmptyOk: Response := Response(200, "", None)

  /** `request.cookies`: a jar that is updated in place. */
  class RequestCookies {
    var names: seq<string>
    var values: map<string, string>

    ghost predicate Valid()
      reads this
    {
      OrderedMap.Valid(Contents())
    }

    /** The jar as an ordered map. */
    function Contents(): OMap
      reads this
    {
      OMap(names, values)
    }

    constructor (jar: OMap)
      requires OrderedMap.Valid(jar)
      ensures Valid() && Contents() == jar
    {
      names := jar.names;
      values := jar.values;
    }

    /** `cookies.set(name, value)`: last write wins, a present name keeps
        its place. */
    method Set(name: string, value: string)
      requires Valid()
      modifies this
      ensures Valid()
      ensures Contents() == Put(old(Contents()), name, value)
    {
      if name !in values {
        names := names + [name];
      }
      values := values[name := value];
    }
  }

  class NextRequest {
    const url: Url
    const headers: OMap
    const cookies: RequestCookies

    constructor (url: Url, headers: OMap, jar: OMap)
      requires OrderedMap.Valid(jar)
      ensures this.url == url && this.headers == headers
      ensures fresh(cookies) && cookies.Valid() && cookies.Contents() == jar
    {
      this.url := url;
      this.headers := headers;
      cookies := new RequestCookies(jar);
    }

    /** `new NextRequest(request)`: a copy with its own cookie jar. */
    constructor Clone(other: NextRequest)
      requires other.cookies.Valid()
      ensures url == other.url && headers == other.headers
      ensures fresh(cookies) && cookies.Valid() && cookies.Contents() == other.cookies.Contents()
    {
      url := other.url;
      headers := other.headers;
      cookies := new RequestCookies(other.cookies.Contents());
    }
  }
}
