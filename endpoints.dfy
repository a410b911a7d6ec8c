/** Properties shared by all endpoints of the client: how a 404 surfaces, and which
    failures callers can catch as `iCloudBridgeError`. */
module Endpoints {
  import opened Wrappers
  import opened JsonValues
  import opened Errors
  import opened IsoDates
  import opened Transport
  import opened Records
  import opened ImageFetch
  import opened ReminderObject

  /** A 404 is `NotFoundError` on every path: the JSON endpoints, the reminder writes, the
      three single-shot downloads, the video dispatch and the first image request. */
  lemma NotFoundOnEveryEndpoint(ra: Option<nat>, decoded: Decoded, bytes: Bytes, lib: DateLib, p: Photo,
                                 wait: bool, maxRetries: int)
    ensures Request(HttpError(404, ra, decoded)) == Failure(NotFoundError)
    ensures ReminderReply(HttpError(404, ra, decoded), lib) == Failure(NotFoundError)
    ensures Download(HttpError(404, ra, bytes)) == Failure(NotFoundError)
    ensures VideoSource(p).Success? ==>
              PhotoVideo(p, (e: VideoEndpoint) => HttpError(404, ra, bytes)) == Failure(NotFoundError)
    ensures Budget(wait, maxRetries) >= 1 ==>
              Poll(wait, maxRetries, (i: nat) => HttpError(404, ra, bytes), 0) == Fetch(Failure(NotFoundError), 1, [])
  {
  }

  /** Which transport failures callers can catch as `iCloudBridgeError`: every failure of a
      download, and every failure of `_request` except two. A returned body that is not
      UTF-8 JSON escapes as `ValueError`, and an error body that decodes to a non-object
      escapes as `AttributeError`. */
  lemma BridgeErrorsFromTransport(r: Response<Decoded>, b: Response<Bytes>)
    ensures Request(r).Failure? ==>
              (Request(r).error.IsBridgeError() <==>
                 !(r.Ok? && r.body.None?) && !(r.HttpError? && r.code != 404 && !ReasonReadable(r.errorBody)))
    ensures Download(b).Failure? ==> Download(b).error.IsBridgeError()
  {
  }

  /** Every way `get_image` can fail is an `iCloudBridgeError`, so callers catching the
      SDK's base class see all of them. */
  lemma {:induction false} ImageErrorsAreBridgeErrors(wait: bool, maxRetries: int, answer: nat -> Response<Bytes>, a: nat)
    ensures Poll(wait, maxRetries, answer, a).result.Failure? ==> Poll(wait, maxRetries, answer, a).result.error.IsBridgeError()
    decreases Budget(wait, maxRetries) - a
  {
    if a < Budget(wait, maxRetries) && IsPending(answer(a)) && !wait && a < maxRetries - 1 {
      ImageErrorsAreBridgeErrors(wait, maxRetries, answer, a + 1);
    }
  }

  /** A mapping failure, by contrast, is never an `iCloudBridgeError`: a missing key, a
      non-string date or an unparseable one escape as Python built-in errors. */
  lemma MappingErrorsAreNotBridgeErrors(data: Object, lib: DateLib)
    ensures ReminderFromDict(data, lib).Failure? ==> !ReminderFromDict(data, lib).error.IsBridgeError()
    ensures AlbumFromDict(data, lib).Failure? ==> !AlbumFromDict(data, lib).error.IsBridgeError()
    ensures PhotoFromDict(data, lib).Failure? ==> !PhotoFromDict(data, lib).error.IsBridgeError()
    ensures ReminderListFromDict(data).Failure? ==> !ReminderListFromDict(data).error.IsBridgeError()
  {
    OptionalDateErrors(data, "dueDate", lib);
    OptionalDateErrors(data, "completionDate", lib);
    OptionalDateErrors(data, "startDate", lib);
    OptionalDateErrors(data, "endDate", lib);
    OptionalDateErrors(data, "modificationDate", lib);
    if "creationDate" in data {
      ParseErrors(data["creationDate"], lib);
    }
  }

  lemma ParseErrors(v: Json, lib: DateLib)
    ensures ParseDateValue(v, lib).Failure? ==> ParseDateValue(v, lib).error in {AttributeError, ValueError}
  {
  }

  lemma OptionalDateErrors(data: Object, key: string, lib: DateLib)
    ensures OptionalDate(data, key, lib).Failure? ==> OptionalDate(data, key, lib).error in {AttributeError, ValueError}
  {
    if key in data {
      ParseErrors(data[key], lib);
    }
  }
}
