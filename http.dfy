/**
 * Requests and errors of the two axios clients (the one in the dashboard API
 * module and the one in the login hook). Both are created with the same base
 * URL and the same two JSON headers; the transport itself is not modelled.
 */
module Http {
  import opened Wrappers

  const BaseUrl := "https://stagingapi.iprescribe.online/api/v1"

  /** The headers both clients are created with. */
  const JsonHeaders: map<string, string> :=
    map["Content-Type" := "application/json", "Accept" := "application/json"]

  const AuthorizationHeader := "Authorization"
  const BearerPrefix := "Bearer "

  datatype Verb = Get | Post | Put

  /** A query-string parameter value: axios serialises numbers and strings alike. */
  datatype Param = IntParam(n: int) | StrParam(s: string)

  /** The JSON bodies sent by the dashboard. */
  datatype Body =
    | NoBody
    | CredentialsBody(email: string, password: string)
    | StatusBody(status: string)

  /** A request as handed to the transport: relative URL, query parameters, body, headers. */
  datatype Request = Request(verb: Verb, url: string, params: seq<(string, Param)>, body: Body, headers: map<string, string>)

  /** A rejected request: `status` is the HTTP status, or None when no response arrived. */
  datatype HttpError = HttpError(status: Option<int>, message: string)

  /**
   * The address the transport contacts: the client's base URL followed by
   * the request's relative URL (every URL here starts with `/` and the base
   * URL does not end with one, so they join without doubling the slash).
   */
  function Target(r: Request): (t: string)
    ensures |t| == |BaseUrl| + |r.url|
    ensures t[..|BaseUrl|] == BaseUrl && t[|BaseUrl|..] == r.url
  {
    BaseUrl + r.url
  }

  /** A request the client has not yet passed through any interceptor. */
  function NewRequest(verb: Verb, url: string, params: seq<(string, Param)>, body: Body): (r: Request)
    ensures r.verb == verb && r.url == url && r.params == params && r.body == body
    ensures r.headers == JsonHeaders
  {
    Request(verb, url, params, body, JsonHeaders)
  }
}
