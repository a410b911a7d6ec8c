/** The exceptions the client raises. The first six are `iCloudBridgeError` and its
    subclasses `NotFoundError` and `APIError`; the last four are Python built-in errors:
    the `RuntimeError` of a reminder without a client, and those that escape from
    `from_dict` and the date parser. Message wording is not
    modelled. */
module Errors {

  datatype Error =
    /** `NotFoundError`: the server answered 404. */
    | NotFoundError
    /** `APIError(status_code, reason)`: any other HTTP error status. */
    | ApiError(statusCode: int)
    /** `iCloudBridgeError("Connection failed: ...")`: `urllib` raised `URLError`. */
    | ConnectionFailed
    /** `iCloudBridgeError("Image download pending despite wait=true")`. */
    | PendingDespiteWait
    /** `iCloudBridgeError("Image download timed out after N retries")`. */
    | TimedOut(maxRetries: int)
    /** `iCloudBridgeError("Image download failed")`: the poll loop ran no attempt. */
    | DownloadFailed
    /** `RuntimeError("Reminder not associated with a client")`. */
    | NotAttached
    /** `KeyError(key)`: a required key is missing from a JSON object. */
    | KeyError(key: string)
    /** `AttributeError`: a date value that is not a string has no `replace`. */
    | AttributeError
    /** `ValueError`: neither date parser accepts the string. */
    | ValueError
  {
    /** Whether the error is an `iCloudBridgeError` (and so caught by callers of the SDK). */
    predicate IsBridgeError() {
      !(NotAttached? || KeyError? || AttributeError? || ValueError?)
    }
  }
}
