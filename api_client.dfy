/**
 * The response-envelope client `api` and its helpers `apiPost` and
 * `apiDelete` (definitions/expo-DO-v2/lib/api-client.ts).
 *
 * The network call `fetch` is a parameter: a function from the request sent
 * to what comes back. Everything else is the original's own logic: building
 * the request from the base URL, the path and the caller's options, and
 * accepting the reply only when the transport and the envelope both report
 * success and the envelope carries data.
 */
module ApiClient {
  import opened Wrappers
  import opened JsonCodec

  const JsonHeaders: map<string, string> := map["Content-Type" := "application/json"]
  const GenericFailure := "Request failed"

  /** `API_URL`: the configured base URL; unset (or empty) means "". */
  function ApiUrl(configured: Option<string>): (url: string)
    ensures configured.Some? ==> url == configured.value
    ensures configured.None? ==> url == ""
  {
    match configured
    // `u || ''`: an empty setting falls back to the (equal) empty default
    case Some(u) => if u != "" then u else ""
    case None => ""
  }

  /** The options a caller passes as `init` (`verb` is its `method`); `None` is a property left out. */
  datatype RequestInit = RequestInit(
    verb: Option<string>,
    headers: Option<map<string, string>>,
    body: Option<string>)

  /** `init` omitted altogether. */
  const NoInit := RequestInit(None, None, None)

  /** What is handed to `fetch`; no verb means the transport's default, GET. */
  datatype Request = Request(
    url: string,
    verb: Option<string>,
    headers: map<string, string>,
    body: Option<string>)

  /**
   * The URL and options `api` passes to `fetch`. The JSON content type is
   * only a default: since `init` is spread after it, a caller's `headers`
   * replaces the default object as a whole.
   */
  function BuildRequest(apiUrl: string, path: string, init: RequestInit): (q: Request)
    ensures |q.url| == |apiUrl| + |path|
    ensures q.url[..|apiUrl|] == apiUrl && q.url[|apiUrl|..] == path
    ensures init.headers.None? ==> q.headers == JsonHeaders
    ensures init.headers.Some? ==> q.headers == init.headers.value
    ensures q.verb == init.verb && q.body == init.body
  {
    Request(apiUrl + path, init.verb,
            if init.headers.Some? then init.headers.value else JsonHeaders,
            init.body)
  }

  /** The envelope every reply body is expected to hold. */
  datatype Envelope<T> = Envelope(success: bool, data: Option<T>, error: Option<string>)

  /**
   * A reply: the transport's `ok` flag and the parsed body, `None` when
   * reading it as an envelope throws (a body that is not JSON, or JSON null).
   */
  datatype Response<T> = Response(ok: bool, body: Option<Envelope<T>>)

  /** What `fetch` does: it rejects (the network failed) or yields a reply. */
  datatype Reply<T> = FetchRejected | Received(response: Response<T>)

  /** How `api` fails. */
  datatype ApiError =
    | RequestFailed(message: string)  // the Error that `api` throws itself
    | BodyUnreadable                   // `res.json()` or reading its fields threw
    | NetworkFailure                   // `fetch` rejected

  /** `json.error || 'Request failed'`: an empty message falls back too. */
  function ErrorMessage(error: Option<string>): (m: string)
    ensures m != ""
    ensures error.Some? && error.value != "" ==> m == error.value
    ensures error.None? || error.value == "" ==> m == GenericFailure
  {
    if error.Some? && error.value != "" then error.value else GenericFailure
  }

  /**
   * The acceptance rule of `api`. The body is read before `ok` is looked at,
   * so an unreadable body fails as such even on a failed status.
   */
  function Validate<T>(res: Response<T>): (r: Result<T, ApiError>)
    ensures res.body.None? ==> r == Failure(BodyUnreadable)
    ensures r.Success? <==>
      res.ok && res.body.Some? && res.body.value.success && res.body.value.data.Some?
    ensures r.Success? ==> r.value == res.body.value.data.value
    ensures r.Failure? && res.body.Some? ==>
      r.error == RequestFailed(ErrorMessage(res.body.value.error))
  {
    match res.body
    case None => Failure(BodyUnreadable)
    case Some(json) =>
      if !res.ok || !json.success || json.data.None? then
        Failure(RequestFailed(ErrorMessage(json.error)))
      else
        Success(json.data.value)
  }

  /** The outcome of a call, given what `fetch` did. */
  function Settle<T>(reply: Reply<T>): (r: Result<T, ApiError>)
    ensures reply.FetchRejected? ==> r == Failure(NetworkFailure)
    ensures reply.Received? ==> r == Validate(reply.response)
  {
    match reply
    case FetchRejected => Failure(NetworkFailure)
    case Received(res) => Validate(res)
  }

  /** `api<T>(path, init)`. */
  function Api<T>(apiUrl: string, path: string, init: RequestInit, fetch: Request -> Reply<T>)
    : (r: Result<T, ApiError>)
    ensures var reply := fetch(BuildRequest(apiUrl, path, init));
      reply.FetchRejected? ==> r == Failure(NetworkFailure)
    ensures var reply := fetch(BuildRequest(apiUrl, path, init));
      reply.Received? && reply.response.body.None? ==> r == Failure(BodyUnreadable)
    ensures var reply := fetch(BuildRequest(apiUrl, path, init));
      r.Success? <==>
        reply.Received? && reply.response.ok && reply.response.body.Some?
        && reply.response.body.value.success && reply.response.body.value.data.Some?
    ensures var reply := fetch(BuildRequest(apiUrl, path, init));
      r.Success? ==> r.value == reply.response.body.value.data.value
    ensures var reply := fetch(BuildRequest(apiUrl, path, init));
      r.Failure? && reply.Received? && reply.response.body.Some? ==>
        r.error == RequestFailed(ErrorMessage(reply.response.body.value.error))
  {
    Settle(fetch(BuildRequest(apiUrl, path, init)))
  }

  /** The request `apiPost` sends: POST, the JSON content type, the encoded body. */
  function PostRequest(apiUrl: string, path: string, body: Json): (q: Request)
    ensures q.url == apiUrl + path
    ensures q.verb == Some("POST")
    ensures q.headers == JsonHeaders
    ensures q.body.Some? && Decode(q.body.value) == Some(body)
  {
    RoundTrip(body);
    BuildRequest(apiUrl, path, RequestInit(Some("POST"), None, Some(Encode(body))))
  }

  /** The request `apiDelete` sends: DELETE, the JSON content type, no body. */
  function DeleteRequest(apiUrl: string, path: string): (q: Request)
    ensures q.url == apiUrl + path
    ensures q.verb == Some("DELETE")
    ensures q.headers == JsonHeaders
    ensures q.body.None?
  {
    BuildRequest(apiUrl, path, RequestInit(Some("DELETE"), None, None))
  }

  /** `apiPost<T>(path, body)`. */
  function ApiPost<T>(apiUrl: string, path: string, body: Json, fetch: Request -> Reply<T>)
    : (r: Result<T, ApiError>)
    ensures r == Settle(fetch(PostRequest(apiUrl, path, body)))
  {
    Api(apiUrl, path, RequestInit(Some("POST"), None, Some(Encode(body))), fetch)
  }

  /** `apiDelete<T>(path)`. */
  function ApiDelete<T>(apiUrl: string, path: string, fetch: Request -> Reply<T>)
    : (r: Result<T, ApiError>)
    ensures r == Settle(fetch(DeleteRequest(apiUrl, path)))
  {
    Api(apiUrl, path, RequestInit(Some("DELETE"), None, None), fetch)
  }

  /** Three sample envelopes: accepted, rejected with a message, rejected without data. */
  lemma EnvelopeExamples(x: Json)
    ensures Validate(Response(true, Some(Envelope(true, Some(x), None)))) == Success(x)
    ensures Validate<Json>(Response(true, Some(Envelope(false, None, Some("bad")))))
      == Failure(RequestFailed("bad"))
    ensures Validate<Json>(Response(true, Some(Envelope(true, None, None))))
      == Failure(RequestFailed(GenericFailure))
  {
  }
}
