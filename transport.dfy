/** What one HTTP round trip looks like to the client, and the status handling shared by
    `_request` (python/icloudbridge.py:634-649) and the three single-shot asset downloads
    `get_thumbnail`, `get_video` and `get_live_video`. The transport itself is not modelled:
    a round trip is a value handed to these functions. */
module Transport {
  import opened Wrappers
  import opened JsonValues
  import opened Errors

  newtype Byte = b: int | 0 <= b < 256

  type Bytes = seq<Byte>

  /** The outcome of one `urllib.request.urlopen` call: it returned a response (`Ok`), it
      raised `HTTPError` with a status code, the `Retry-After` header as a whole number of
      seconds and the error body (`HttpError`), or it raised `URLError` (`UrlError`). A body
      `B` is what the caller reads from it: raw bytes for the downloads, decoded JSON for
      `_request`. */
  datatype Response<B> =
    | Ok(status: int, body: B)
    | HttpError(code: int, retryAfter: Option<nat>, errorBody: B)
    | UrlError

  /** `json.loads(body.decode("utf-8"))`: the decoded value, or `None` when the body is not
      UTF-8 JSON (`UnicodeDecodeError` or `JSONDecodeError`, both `ValueError`s). */
  type Decoded = Option<Json>

  /** Whether `error_body.get("reason", str(e))` can be evaluated: the body did not decode
      (the `except` falls back to `str(e)`) or it decoded to an object. Any other JSON value
      has no `get`. */
  predicate ReasonReadable(b: Decoded) {
    b.None? || b.value.JObject?
  }

  /** `_request`: 204 gives no body, any other returned response its decoded body, and a
      body that does not decode raises `ValueError`; 404 raises `NotFoundError`; any other
      HTTP error `APIError` with that status, unless its body decodes to a JSON value that
      is not an object, on which the `reason` lookup raises `AttributeError`; a transport
      failure is a connection error. */
  function Request(r: Response<Decoded>): (o: Result<Option<Json>, Error>)
    ensures o == Success(None) <==> r.Ok? && r.status == 204
    ensures r.Ok? && r.status != 204 && r.body.Some? ==> o == Success(Some(r.body.value))
    ensures r.Ok? && r.status != 204 && r.body.None? ==> o == Failure(ValueError)
    ensures o == Failure(NotFoundError) <==> r.HttpError? && r.code == 404
    ensures o.Failure? && o.error.ApiError? <==> r.HttpError? && r.code != 404 && ReasonReadable(r.errorBody)
    ensures o.Failure? && o.error.ApiError? ==> o.error.statusCode == r.code
    ensures o == Failure(AttributeError) <==> r.HttpError? && r.code != 404 && !ReasonReadable(r.errorBody)
    ensures o == Failure(ConnectionFailed) <==> r.UrlError?
  {
    match r
    case Ok(status, body) =>
      if status == 204 then Success(None)
      else if body.Some? then Success(Some(body.value))
      else Failure(ValueError)
    case HttpError(code, _, errorBody) =>
      if code == 404 then Failure(NotFoundError)
      else if ReasonReadable(errorBody) then Failure(ApiError(code))
      else Failure(AttributeError)
    case UrlError => Failure(ConnectionFailed)
  }

  /** `_request` with the fallback the `except` (python/icloudbridge.py:645-646) gives an
      undecodable error body applied to every non-404 error body: the reason is read when
      the body is an object and is the exception text otherwise, so every non-404 error
      status is `APIError`, whatever its body. */
  function RequestWithFallback(r: Response<Decoded>): (o: Result<Option<Json>, Error>)
    ensures r.HttpError? && r.code != 404 ==> o == Failure(ApiError(r.code))
    ensures !(r.HttpError? && r.code != 404 && !ReasonReadable(r.errorBody)) ==> o == Request(r)
  {
    if r.HttpError? && r.code != 404 then Failure(ApiError(r.code)) else Request(r)
  }

  /** As written, a non-404 error whose body is JSON but not an object escapes `_request`
      as `AttributeError`, not as `APIError`: an HTTP 500 with the body `[]`, for one. */
  lemma NonObjectErrorBodyEscapes(ra: Option<nat>)
    ensures Request(HttpError(500, ra, Some(JArray([])))) == Failure(AttributeError)
    ensures !Request(HttpError(500, ra, Some(JArray([])))).error.IsBridgeError()
    ensures RequestWithFallback(HttpError(500, ra, Some(JArray([])))) == Failure(ApiError(500))
  {
  }

  /** With the fallback, every failure of `_request` but a body that does not decode is an
      `iCloudBridgeError`. */
  lemma FallbackFailuresAreBridgeErrors(r: Response<Decoded>)
    ensures RequestWithFallback(r).Failure? ==>
              (RequestWithFallback(r).error.IsBridgeError() <==> !(r.Ok? && r.body.None?))
  {
  }

  /** `get_thumbnail`, `get_video` and `get_live_video`: the body of whatever response
      `urlopen` returned (a 204 included, whose body is empty), `NotFoundError` on 404,
      `APIError` with the status for any other HTTP error (its body is not read), a
      connection error otherwise. */
  function Download(r: Response<Bytes>): (o: Result<Bytes, Error>)
    ensures o.Success? <==> r.Ok?
    ensures o.Success? ==> o.value == r.body
    ensures o == Failure(NotFoundError) <==> r.HttpError? && r.code == 404
    ensures o.Failure? && o.error.ApiError? <==> r.HttpError? && r.code != 404
    ensures o.Failure? && o.error.ApiError? ==> o.error.statusCode == r.code
    ensures o == Failure(ConnectionFailed) <==> r.UrlError?
  {
    match r
    case Ok(_, body) => Success(body)
    case HttpError(code, _, _) => if code == 404 then Failure(NotFoundError) else Failure(ApiError(code))
    case UrlError => Failure(ConnectionFailed)
  }

  /** A response as it comes off the wire, before `urlopen` decides whether to return it
      or raise: its final status (after redirects), its `Retry-After` header and its body;
      `Unreachable` is a failure below HTTP. */
  datatype RawResponse = Raw(status: int, retryAfter: Option<nat>, body: Bytes) | Unreachable

  /** How `urlopen`'s default error processor treats a raw response: every 2xx status is
      returned to the caller, every other status raises `HTTPError`. In particular a 202
      never raises. */
  function UrlOpen(raw: RawResponse): (r: Response<Bytes>)
    ensures r.Ok? <==> raw.Raw? && 200 <= raw.status < 300
    ensures r.HttpError? ==> raw.Raw? && r.code == raw.status && r.retryAfter == raw.retryAfter && r.errorBody == raw.body
    ensures r.Ok? ==> r.status == raw.status && r.body == raw.body
    ensures r.UrlError? <==> raw.Unreachable?
  {
    match raw
    case Raw(status, retryAfter, body) =>
      if 200 <= status < 300 then Ok(status, body) else HttpError(status, retryAfter, body)
    case Unreachable => UrlError
  }
}
