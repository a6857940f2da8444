/** The transport layer of the CIC access object (`HttpHandler`): how a
    request is assembled, and what the callers see of a response. Sending
    itself (cookies, the opener, re-wrapping of errors) is not modelled; a
    reply is given to the callers as a value. */
module CicHttp {
  import opened PyJson

  /** What `sendHttpRequest` hands back. urllib2 raises an `HTTPError` for
      every status outside 2xx, so a reply is either a delivered response
      whose body was read and passed to `json.loads` (None: not JSON), or a
      refusal carrying the error's status and its preserved body. */
  datatype Reply =
    | Delivered(status: int, body: Option<Json>)
    | Refused(code: int, errorBody: Option<Json>)

  datatype Verb = GET | POST | PATCH

  /** The request body: none, `json.dumps(payload)`, or `urllib.urlencode(payload)`.
      The bytes of the two encodings are not modelled, only which one is used. */
  datatype Body =
    | NoBody
    | JsonBody(payload: map<string, Json>)
    | FormBody(payload: map<string, Json>)

  /** A prepared urllib2 request. urllib2 stores header names capitalised
      (`str.capitalize`), hence "Content-type" and "X-depth". */
  datatype HttpRequest = HttpRequest(verb: Verb, url: string, body: Body, headers: map<string, string>)

  /** `urllib.urlencode(payload)` takes `str()` of every value, so it raises
      UnicodeEncodeError on non-ASCII text. The keys are byte strings and
      `json.dumps` escapes, so nothing else fails. */
  predicate FormEncodable(payload: map<string, Json>) {
    forall k :: k in payload ==> !NotAsciiText(payload[k])
  }

  const ContentTypeHeader := "Content-type"
  const DepthHeader := "X-depth"

  /** `HttpHandler.createHttpRequest`: a missing endpoint is a TypeError; no
      payload gives a GET whatever the method says; a payload with method
      "POST" gives a JSON POST; every other payload gives a form-encoded PATCH,
      whose encoding raises on non-ASCII text. A non-empty `xDepth` adds the
      depth header. */
  function CreateHttpRequest(cicUrl: string, endpoint: Option<string>, payload: Option<map<string, Json>>,
                             httpMethod: Option<string>, xDepth: Option<string>): (r: Result<HttpRequest, PyError>)
    ensures endpoint.None? <==> r == Err(TypeError)
    ensures endpoint.Some? && payload.Some? && httpMethod != Some("POST") && !FormEncodable(payload.value)
            <==> r == Err(UnicodeEncodeError)
    ensures r.Ok? ==> r.value.url == cicUrl + endpoint.value
    ensures r.Ok? ==> (r.value.verb == GET <==> payload.None?)
    ensures r.Ok? ==> (r.value.verb == POST <==> payload.Some? && httpMethod == Some("POST"))
    ensures r.Ok? ==> (r.value.verb == PATCH <==> payload.Some? && httpMethod != Some("POST"))
    ensures r.Ok? ==> match r.value.verb
                      case GET => r.value.body == NoBody
                      case POST => r.value.body == JsonBody(payload.value)
                      case PATCH => r.value.body == FormBody(payload.value)
    ensures r.Ok? ==> (ContentTypeHeader in r.value.headers <==> r.value.verb == POST)
    ensures r.Ok? && r.value.verb == POST ==> r.value.headers[ContentTypeHeader] == "application/json"
    ensures r.Ok? ==> (DepthHeader in r.value.headers <==> xDepth.Some? && xDepth.value != "")
    ensures r.Ok? && DepthHeader in r.value.headers ==> r.value.headers[DepthHeader] == xDepth.value
    ensures r.Ok? ==> r.value.headers.Keys <= {ContentTypeHeader, DepthHeader}
  {
    if endpoint.None? then
      Err(TypeError)
    else
      var url := cicUrl + endpoint.value;
      var request :=
        if payload.None? then HttpRequest(GET, url, NoBody, map[])
        else if httpMethod == Some("POST") then
          HttpRequest(POST, url, JsonBody(payload.value), map[ContentTypeHeader := "application/json"])
        else HttpRequest(PATCH, url, FormBody(payload.value), map[]);
      if request.verb == PATCH && !FormEncodable(payload.value) then
        Err(UnicodeEncodeError)
      else if xDepth.Some? && xDepth.value != "" then
        Ok(request.(headers := request.headers[DepthHeader := xDepth.value]))
      else
        Ok(request)
  }

  /** The updates pass method "PATCH"; a payload with method "GET" is sent as
      a PATCH too, although `sendHttpRequest` logs it as a GET. */
  lemma PayloadWithGetIsPatched(cicUrl: string, endpoint: string, payload: map<string, Json>)
    ensures FormEncodable(payload) ==>
              CreateHttpRequest(cicUrl, Some(endpoint), Some(payload), Some("GET"), None)
              == Ok(HttpRequest(PATCH, cicUrl + endpoint, FormBody(payload), map[]))
    ensures !FormEncodable(payload) ==>
              CreateHttpRequest(cicUrl, Some(endpoint), Some(payload), Some("GET"), None) == Err(UnicodeEncodeError)
  {
  }
}
