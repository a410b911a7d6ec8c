# iCloudBridge Python client — a verified model of its core logic

iCloudBridge exposes a Mac's Reminders and Photos over a local HTTP/JSON API, and
`python/icloudbridge.py` is a thin client for it. This project models the parts of that
client that carry logic of their own. The transport is replaced by values: a round trip
is a `Response`, and a sequence of round trips is a script `answer(i)`. The modelled parts are:

- the status handling of `_request` and of the three single-shot downloads (`Transport`);
- the date text helpers `_parse_iso_date` and `_format_iso_date` (`IsoDates`);
- the typed mapper `from_dict` of the four records, plus `Photo.video` (`Records`);
- the query string of `get_photos` and the payloads of `create_reminder` and
  `update_reminder` (`Requests`);
- the pending-image poll loop of `get_image` (`ImageFetch`), with a finding about its
  202 branch (below);
- the auto-paginator `_iter_photos` (`Paginator`);
- the mutable `Reminder` object with `save`, `complete`, `uncomplete` and `delete`
  (`ReminderObject`);
- how a 404 and the errors in general surface across endpoints (`Endpoints`);
- what `_format_iso_date` is meant to print, the instant converted to UTC, with the
  proleptic Gregorian calendar it needs (`UtcDates`), for a finding about it (below).

The imperative parts keep their form:
- `get_image`, `_iter_photos` and the query building are methods with loops or step-by-step updates.
- Each of them is proved equal to a specification function. Its properties are then proved as lemmas.
- `Reminder` is a class whose methods overwrite its fields.

Points where the code is followed rather than the documented intent:

- `_format_iso_date` prints the wall-clock fields of the `datetime` it is given and appends a
  literal `Z`. It does not convert to UTC. An aware value with a non-zero offset is
  therefore printed with the wrong instant (`IsoDates.FormatIsoDate`, `IsoDates.FormatIdentifiesWallClock`).
  The payloads use this function as written; `UtcDates` holds the corrected one.
- `_request` reads the `reason` of an error body with `get`, and only a body that fails
  to decode falls back to the exception text. An error body that decodes to a JSON value
  other than an object therefore escapes as `AttributeError`, not as `APIError`
  (`Transport.Request`). The rest of the model uses `_request` as written;
  `Transport.RequestWithFallback` is the corrected one.
- A returned body that is not UTF-8 JSON raises `UnicodeDecodeError` or `JSONDecodeError`
  from `_request` (python/icloudbridge.py:638). Both are `ValueError`s, not the connection
  error, and `Transport.Request` gives `ValueError` for such a body.
- `from_dict` checks no JSON types. It copies whatever value sits under each key, so the
  records hold JSON values (`Json`), and `JNull` stands for Python's `None`.

## Model

| member | source | states |
|---|---|---|
| JsonValues.Get | python/icloudbridge.py:74 | `dict.get`: the value under a present key, `None` for an absent one |
| JsonValues.Truthy | python/icloudbridge.py:181-186 | helper: Python truthiness of a decoded value, as the `if data.get(key):` tests use it |
| Transport.Request | python/icloudbridge.py:634-649 | only a 204 gives `Success(None)` (a `null` body decodes to `Some(JNull)`, the same Python `None`); any other returned response gives its decoded body, or `ValueError` when the body is not UTF-8 JSON; 404 and only 404 gives `NotFoundError`; any other HTTP error gives `APIError` with that exact code exactly when its body does not decode or decodes to an object, and `AttributeError` exactly when it decodes to another JSON value; a URL error and only that gives the connection error |
| Transport.ReasonReadable | python/icloudbridge.py:642-646 | helper: whether `error_body.get("reason", str(e))` can be evaluated: the body did not decode, or it decoded to an object |
| Transport.RequestWithFallback | python/icloudbridge.py:640-647 | the intended reading: every non-404 HTTP error is `APIError` with its code, whatever its body; on every other input it agrees with `_request` as written |
| Transport.NonObjectErrorBodyEscapes | python/icloudbridge.py:642-647 | an HTTP 500 with the body `[]` escapes `_request` as `AttributeError`, which is no `iCloudBridgeError`, where the intended reading gives `APIError(500)` |
| Transport.FallbackFailuresAreBridgeErrors | python/icloudbridge.py:634-649 | with the fallback, a failure is an `iCloudBridgeError` exactly unless it is a returned body that does not decode |
| Transport.Download | python/icloudbridge.py:1030-1038 | a download succeeds exactly when `urlopen` returns, with that body; 404 gives `NotFoundError`, other HTTP errors `APIError` with the code, a URL error the connection error |
| Transport.UrlOpen | python/icloudbridge.py:1066-1070 | `urlopen` returns exactly the 2xx responses (so a 202 too) with status and body, and raises `HTTPError` with the status and `Retry-After` for every other status |
| IsoDates.ReplaceZ | python/icloudbridge.py:586 | `replace("Z", "+00:00")` never shortens the text, and keeps its length exactly when there is no `Z` in it |
| IsoDates.ReplaceZRemovesZ | python/icloudbridge.py:586 | after `replace("Z", "+00:00")` no `Z` is left |
| IsoDates.ReplaceZWithoutZ | python/icloudbridge.py:586 | a text without `Z` is left unchanged |
| IsoDates.ReplaceZAppend | python/icloudbridge.py:586 | the replacement works piecewise over a concatenation |
| IsoDates.TrailingZIsUtc | python/icloudbridge.py:586 | a single trailing `Z` becomes an explicit `+00:00` offset |
| IsoDates.BeforeFirstDot | python/icloudbridge.py:591-592 | `split(".")[0]` is the longest prefix without `.`, ends just before the first `.`, and is the whole text when there is none |
| IsoDates.ParseIsoDate | python/icloudbridge.py:583-593 | `fromisoformat` on the normalised text wins; if it fails, `strptime` on the text before the first `.` decides; `ValueError` exactly when both fail |
| IsoDates.ParseDateValue | python/icloudbridge.py:181-183 | a non-string date value fails with `AttributeError`; a string goes to the parser |
| IsoDates.Padded | python/icloudbridge.py:596-598 | zero-padded fields have exactly the field width and only digits |
| IsoDates.ReadPadded | python/icloudbridge.py:596-598 | reading a padded field back gives the number printed |
| IsoDates.WallText | python/icloudbridge.py:596-598 | the date and time part is 19 characters long |
| IsoDates.FormatIsoDate | python/icloudbridge.py:596-598 | the timestamp is 20 characters, ends with the only `Z`, and holds no `.` |
| IsoDates.ReadFormatted | python/icloudbridge.py:596-598 | reading a formatted timestamp back gives its year, month, day, hour, minute and second |
| IsoDates.FormatIdentifiesWallClock | python/icloudbridge.py:596-598 | two dates format alike exactly when they agree down to the second, whatever their microseconds and UTC offsets |
| IsoDates.ParseFormatted | python/icloudbridge.py:583-598 | a formatted date reaches both parsers as the printed fields with `+00:00` |
| Records.FirstMissing | python/icloudbridge.py:188-198 | none is missing exactly when all keys are present; otherwise it names the first absent key in reading order |
| Records.Require | python/icloudbridge.py:189 | `data[key]`: the value when present, `KeyError(key)` otherwise |
| Records.RequireAll | python/icloudbridge.py:188-198 | reading keys in order gives every value, or the `KeyError` of the first missing key |
| Records.OptionalDate | python/icloudbridge.py:181-183 | an absent or falsy value gives no date; a truthy one is parsed and its parse error propagates |
| Records.ReminderListFromDict | python/icloudbridge.py:70-77 | succeeds exactly when `id`, `title` and `reminderCount` are present; copies them unchanged; `color` is `dict.get` |
| Records.ReminderFromDict | python/icloudbridge.py:179-198 | the due date, then the completion date, then the required keys decide the error in that order; success copies each required key unchanged, `notes` by `dict.get`, and the dates as parsed |
| Records.AlbumFromDict | python/icloudbridge.py:302-320 | start and end dates first, then the five required keys; on success all are copied unchanged |
| Records.PhotoFromDict | python/icloudbridge.py:426-446 | `creationDate` is required and parsed first, then the modification date, then the seven required keys; `filename` and `fileSize` are `dict.get` |
| Records.AbsentOptionalsAreNone | python/icloudbridge.py:70-446 | for all four records, an absent optional key gives `None` and an absent or falsy date gives no date |
| Records.UnparseableDateFails | python/icloudbridge.py:181-183 | a present due date that neither parser accepts fails the whole mapping with `ValueError` |
| Records.IsVideo | python/icloudbridge.py:448-452 | a photo that is a video is not a Live Photo |
| Records.IsLivePhoto | python/icloudbridge.py:453-456 | a photo that is a Live Photo is not a video |
| Records.VideoSource | python/icloudbridge.py:519-527 | a video uses the video endpoint, a Live Photo the live-video endpoint, and any other media type fails with `ValueError` |
| Records.PhotoVideo | python/icloudbridge.py:504-527 | `Photo.video` is the download from the endpoint its media type selects |
| Requests.NaturalString | python/icloudbridge.py:953-956 | the decimal text of a natural number is non-empty and all digits |
| Requests.DecimalString | python/icloudbridge.py:953-956 | `str(n)` is non-empty and holds no `&` or `=` |
| Requests.ReadNaturalString | python/icloudbridge.py:953-956 | the decimal text reads back as the number |
| Requests.DecimalStringRoundTrip | python/icloudbridge.py:953-956 | `str(n)` of any integer, negative ones included, reads back as `n` |
| Requests.Split | python/icloudbridge.py:961 | splitting always gives at least one part |
| Requests.SplitWithoutSep | python/icloudbridge.py:961 | a text without the separator splits into itself |
| Requests.SplitAtSep | python/icloudbridge.py:961 | splitting at a separator gives the part before it, then the split of the rest |
| Requests.SplitJoin | python/icloudbridge.py:961 | splitting undoes `"&".join` when no part holds the separator |
| Requests.Join | python/icloudbridge.py:961 | helper: `"&".join`, whose inverse `Requests.Split` is proved in `Requests.SplitJoin` |
| Requests.QueryString | python/icloudbridge.py:960-961 | the query string is empty exactly when there are no parameters; otherwise it is `?` followed by the rendered parameters joined on `&` |
| Requests.Render | python/icloudbridge.py:953-959 | each parameter becomes exactly `key=value` |
| Requests.PhotosQuery | python/icloudbridge.py:949-961 | the query string holds the non-default parameters in the fixed order, and is empty (no `?`) exactly when all four are defaults |
| Requests.BeforeFirst | python/icloudbridge.py:961 | the longest prefix without the separator |
| Requests.ParseParams | python/icloudbridge.py:961 | each part is read back on its own |
| Requests.BeforeFirstAt | python/icloudbridge.py:961 | the prefix before an inserted separator is exactly the text before it |
| Requests.ParseRendered | python/icloudbridge.py:953-959 | `key=value` reads back as the parameter, for a key without `=` |
| Requests.AllPlainAppend | python/icloudbridge.py:961 | parameters safe to carry stay safe when concatenated |
| Requests.QueryRoundTrip | python/icloudbridge.py:960-961 | reading a built query string back gives the parameters it was built from |
| Requests.PhotosQueryRoundTrip | python/icloudbridge.py:949-961 | a server splitting the query on `&` and `=` gets exactly the non-default parameters, in order, when `sort` and `type` hold no `&` |
| Requests.PhotoParams | python/icloudbridge.py:950-958 | at most the four parameters, and none exactly when `limit`, `offset`, `sort` and `type` are 100, 0, `"album"` and `None` |
| Requests.PhotoParamsOrder | python/icloudbridge.py:951-958 | the keys appear as `limit`, `offset`, `sort`, `type`, each only when it differs from 100, 0, `"album"`, `None` |
| Requests.DateArg | python/icloudbridge.py:810-811 | helper: the due date as a payload value, `_format_iso_date(due_date)` when it is not `None` |
| Requests.BoolArg | python/icloudbridge.py:846-847 | helper: the `is_completed` argument as a payload value |
| Requests.Carries | python/icloudbridge.py:843-852 | helper: one `if x is not None: payload[k] = x` step, the key present exactly when the argument is not `None` and holding it unchanged |
| Requests.CreatePayload | python/icloudbridge.py:805-811 | the payload always carries `title`; it carries `notes`, `priority` and the formatted `dueDate` exactly when not `None`; no other key |
| Requests.UpdatePayload | python/icloudbridge.py:842-852 | the payload carries exactly the arguments that are not `None`, each unchanged, and the due date formatted |
| ImageFetch.Budget | python/icloudbridge.py:1064 | the attempt budget is 1 with `wait` and `max_retries` without |
| ImageFetch.RetryDelay | python/icloudbridge.py:1079 | the sleep is the 202's `Retry-After` when it has one and 5 seconds otherwise |
| ImageFetch.IsPending | python/icloudbridge.py:1073 | helper: a "download pending" answer, an `HTTPError` with code 202 |
| ImageFetch.PendingDelay | python/icloudbridge.py:1079 | helper: the sleep after a pending answer, its `Retry-After` or 5 |
| ImageFetch.Delays | python/icloudbridge.py:1079-1082 | helper: the sleeps after a row of pending answers, in order |
| ImageFetch.Poll | python/icloudbridge.py:1064-1091 | helper: the specification of `get_image` from one iteration on, branch by branch as the loop body: success, 404, 202 with or without `wait`, the retry or the timeout, other HTTP errors, the connection error, and "Image download failed" once the budget is spent |
| ImageFetch.Outcome | python/icloudbridge.py:1068-1089 | helper: what the attempt that ends the loop yields from its answer |
| ImageFetch.GetImage | python/icloudbridge.py:1064-1091 | the loop's result, request count and sleeps are exactly those of the poll specification `Poll` |
| ImageFetch.DelaysAt | python/icloudbridge.py:1079-1082 | the `j`-th recorded delay belongs to the `j`-th answer |
| ImageFetch.DelaysLength | python/icloudbridge.py:1079-1082 | one delay per skipped answer |
| ImageFetch.PollShape | python/icloudbridge.py:1064-1091 | every run is a row of pending answers, then one deciding attempt within the budget, whose answer alone decides the result; its sleeps are the pending answers' delays |
| ImageFetch.SkipPending | python/icloudbridge.py:1073-1083 | each pending answer adds its sleep and hands over to the next attempt |
| ImageFetch.FirstSuccessWins | python/icloudbridge.py:1064-1083 | after `k` pending answers a success at attempt `k` returns that body after `k + 1` requests and `k` sleeps, each the preceding 202's `Retry-After` or 5 |
| ImageFetch.SuccessComesAfterPending | python/icloudbridge.py:1064-1083 | conversely, returned data came from the first non-pending answer within `max_retries` requests, after one sleep per pending answer |
| ImageFetch.AllPendingTimesOut | python/icloudbridge.py:1081-1085 | all-pending answers give exactly `max_retries` requests, `max_retries - 1` sleeps and the timeout error |
| ImageFetch.NoBudgetNoRequest | python/icloudbridge.py:1091 | with `max_retries <= 0` there is no request and "Image download failed" |
| ImageFetch.DownloadFailedOnlyWithoutBudget | python/icloudbridge.py:1064-1091 | "Image download failed" happens exactly when polling has no budget |
| ImageFetch.BlockingModeSingleRequest | python/icloudbridge.py:1064-1076 | with `wait=true` there is one request and no sleep, and a 202 is the "pending despite wait" error |
| ImageFetch.RequestsWithinBudget | python/icloudbridge.py:1064 | a run never exceeds its budget of requests, and sleeps once less than it requests |
| ImageFetch.ThirdAttemptSucceeds | python/icloudbridge.py:1064-1083 | two 202s with `Retry-After: 1` then the image: three requests and sleeps `[1, 1]` |
| ImageFetch.ImageOpen | python/icloudbridge.py:1070-1079 | the intended reading: a 202 is raised as pending with its `Retry-After`, every other status is as `urlopen` does |
| ImageFetch.AsWrittenNeverPolls | python/icloudbridge.py:1066-1073 | through `urlopen` as written no run ever sleeps or sends a second request, and a 202 body is returned as the image |
| ImageFetch.CorrectedPollsOnAccepted | python/icloudbridge.py:1066-1083 | on one server script, the intended reading polls to the image while the code as written returns the pending body |
| Paginator.Paginate | python/icloudbridge.py:1000-1007 | helper: the specification of `_iter_photos` from one offset on: request the page, stop on its error, or after it once the offset passes `total` |
| Paginator.IterPhotos | python/icloudbridge.py:983-1007 | the yielded items, requested offsets and stopping error are exactly those of the specification `Paginate` |
| Paginator.PageCount | python/icloudbridge.py:1001-1007 | the request count is the least `n >= 1` with `100 * n` covering the remaining items |
| Paginator.PaginateShape | python/icloudbridge.py:983-1007 | offsets are `offset + 100 * i`; every request but the last succeeded; a run ends with an error exactly when its last request failed; an error-free run makes exactly `max(1, ceil(remaining / 100))` requests |
| Paginator.Batches | python/icloudbridge.py:1004 | helper: the batches laid end to end |
| Paginator.YieldsBatchesInOrder | python/icloudbridge.py:1003-1004 | the items yielded are the returned batches concatenated in request order |
| Paginator.StopDependsOnlyOnTotal | python/icloudbridge.py:1005-1007 | two error-free runs against the same `total` request the same offsets, whatever their batch lengths |
| Paginator.SmallCollectionOneRequest | python/icloudbridge.py:983-1007 | a `total` of 100 or less, zero included, costs exactly one request at offset 0 |
| Paginator.Slice | python/icloudbridge.py:1001 | a slice of a collection holds at most one page |
| Paginator.SlicedCollectionYieldsAll | python/icloudbridge.py:983-1007 | against a server serving slices of one collection, the run from any offset yields the rest of the collection, in order, without error |
| Paginator.IterYieldsCollection | python/icloudbridge.py:983-1007 | so the full run yields the whole collection in `ceil(total / 100)` requests (one for an empty one) |
| ReminderObject.ReminderReply | python/icloudbridge.py:854-855 | a transport error (an undecodable body's `ValueError` included) propagates; a 204 or a non-object body fails with `AttributeError`; an object body is mapped by `Reminder.from_dict` |
| ReminderObject.AfterSave | python/icloudbridge.py:222-227 | helper: the state `save` leaves, the reply's editable and completion fields over the old identity and list |
| ReminderObject.AfterToggle | python/icloudbridge.py:243-244 | helper: the state `complete` and `uncomplete` leave, only the reply's two completion fields taken |
| ReminderObject.TogglePayload | python/icloudbridge.py:847-848 | helper: the payload `{"isCompleted": done}` the two toggles send through `update_reminder` |
| ReminderObject.SaveKeepsIdentity | python/icloudbridge.py:222-227 | `save` never changes the id or the list, and adopts the reply as a whole exactly when the reply agrees on both |
| ReminderObject.ToggleTouchesOnlyCompletion | python/icloudbridge.py:243-244 | a toggle changes only the two completion fields, and leaves the reminder as it was exactly when the reply agrees on them |
| ReminderObject.Reminder.constructor | python/icloudbridge.py:188-198 | the object holds the mapped fields |
| ReminderObject.Reminder.Save | python/icloudbridge.py:200-228 | without a client, `RuntimeError` and nothing sent; otherwise it sends the current title, notes, priority and due date, each only when not `None` and never the completion state; on error nothing changes; on success the six editable fields are taken from the reply |
| ReminderObject.Reminder.Toggle | python/icloudbridge.py:230-262 | `complete` and `uncomplete` send exactly `{"isCompleted": true/false}` and adopt only the reply's completion state; on error nothing changes |
| ReminderObject.Reminder.Delete | python/icloudbridge.py:264-275 | without a client no request and `RuntimeError`; otherwise the `DELETE` succeeds exactly when its request does, and raises its error otherwise |
| Endpoints.NotFoundOnEveryEndpoint | python/icloudbridge.py:636-647 | a 404 is `NotFoundError` on the JSON endpoints, the reminder writes, the downloads, the video dispatch and the first image request |
| Endpoints.BridgeErrorsFromTransport | python/icloudbridge.py:634-649 | every failure of a download is an `iCloudBridgeError`; a failure of `_request` is one exactly unless it is a returned body that is not UTF-8 JSON (`ValueError`) or a non-404 error body that decodes to a non-object (`AttributeError`) |
| Errors.Error.IsBridgeError | python/icloudbridge.py:565-580 | helper: the errors that are `iCloudBridgeError` or a subclass of it, as against the built-in `KeyError`, `AttributeError`, `ValueError` and `RuntimeError` |
| Endpoints.ImageErrorsAreBridgeErrors | python/icloudbridge.py:1064-1091 | every failure of `get_image` is an `iCloudBridgeError` |
| Endpoints.MappingErrorsAreNotBridgeErrors | python/icloudbridge.py:179-198 | a mapping failure is never an `iCloudBridgeError` |
| Endpoints.ParseErrors | python/icloudbridge.py:583-593 | a date value fails only with `AttributeError` or `ValueError` |
| Endpoints.OptionalDateErrors | python/icloudbridge.py:181-183 | an optional date fails only with `AttributeError` or `ValueError` |
| UtcDates.DaysInMonth | python/icloudbridge.py:596-598 | a month of the Gregorian calendar has 28 to 31 days |
| UtcDates.DaysBeforeDecember | python/icloudbridge.py:596-598 | the twelve months fill the year: 365 days, 366 in a leap year |
| UtcDates.ValidDate | python/icloudbridge.py:596-598 | helper: a date that exists in the Gregorian calendar, as every Python `datetime` does |
| UtcDates.Instant | python/icloudbridge.py:596-598 | helper: the instant a `datetime` denotes, in seconds, taking its offset into account |
| UtcDates.NextDay | python/icloudbridge.py:596-598 | the day after a valid date is valid and numbered one higher; there is none after 9999-12-31, and only then |
| UtcDates.PrevDay | python/icloudbridge.py:596-598 | the day before a valid date is valid and numbered one lower; there is none before 0001-01-01, and only then |
| UtcDates.ToUtc | python/icloudbridge.py:596-598 | conversion to UTC keeps the instant, the second and the microsecond and gives a valid date at offset zero; it overflows exactly when the instant leaves the years 1 to 9999 |
| UtcDates.FormatUtc | python/icloudbridge.py:596-598 | the intended text is the format of the UTC conversion, and exists exactly when the conversion does |
| UtcDates.CorrectedFormatKeepsInstant | python/icloudbridge.py:596-598 | the corrected text reads back as the fields of a UTC value denoting exactly the instant given |
| UtcDates.CorrectedSameInstantSameText | python/icloudbridge.py:596-598 | two dates denoting the same instant print alike under the correction, whatever their offsets |
| UtcDates.AsWrittenIgnoresOffset | python/icloudbridge.py:596-598 | as written the text reads back as the wall clock, so read as UTC it is off by exactly the value's offset |
| UtcDates.AsWrittenOneHourOff | python/icloudbridge.py:596-598 | 2024-01-01 10:00 at UTC+01:00 prints as 10:00 UTC, an hour after its instant, 09:00 UTC |
| UtcDates.DaysBeforeMonthBound | python/icloudbridge.py:596-598 | a month ends within its year |
| UtcDates.DaysBeforeMonthMonotone | python/icloudbridge.py:596-598 | a month ends before any later month begins |
| UtcDates.DaysBeforeYearMonotone | python/icloudbridge.py:596-598 | a year ends before any later year begins |
| UtcDates.DayNumberInjective | python/icloudbridge.py:596-598 | distinct valid dates have distinct day numbers |
| UtcDates.InstantDeterminesUtcFields | python/icloudbridge.py:596-598 | two valid UTC values with the same instant have the same fields down to the second |

## Left out

- The HTTP transport (`urllib`), `json.loads` and `json.dumps`, and UTF-8 decoding are foreign I/O. A round trip is a `Response` value. A scripted sequence of round trips is a function from the attempt number.
- Paths and URLs are plumbing: `base_url`, `urllib.parse.quote`, the `Authorization` header, the thumbnail's `?size=` suffix and the image's `?wait=true` suffix are not modelled.
- `time.sleep` is recorded as a delay in the run, never performed.
- `datetime.fromisoformat` and `datetime.strptime` are library parsers. They are parameters (`DateLib`); only the text handed to them is modelled.
- `int()` of a `Retry-After` header is not modelled. The header is either absent or already a whole number of seconds. So neither a malformed header, on which `int` raises `ValueError`, nor a negative one, on which `time.sleep` raises `ValueError`, is represented.
- Error message wording and the `reason` of `APIError` are not modelled; the status code is.
- Not modelled, as connection setup and mechanical wrappers: `health`, `connect`, `__init__`, the demo at the end of the file, and the collection properties and list getters that only forward or `yield from` another call (`albums`, `reminder_lists`, `get_lists`, `get_list`, `get_reminders`, `get_reminder`, `_iter_reminders`, `get_albums`, `get_album`, `get_photo`, `Album.photos/videos/live_photos/get_photos`, `ReminderList.reminders/all_reminders/get_reminders/create_reminder`, `thumbnail_small/medium`, `image`, `get_thumbnail` of `Photo`).
- The `_client is None` guards are modelled only on `Reminder`, as its `attached` flag; `Photo.video`'s guard is not modelled.
- JSON numbers are integers; floats do not occur in the fields the model reads.
- `IsoDates.DateTime` bounds each field separately. Whether a day exists in its month is the library's concern; only the UTC conversion, which needs it, requires it (`UtcDates.ValidDate`).
- `IsoDates.DateTime` holds its UTC offset in whole minutes below a day. Offsets with seconds, which Python allows, are not represented.
- UtcDates.ToUtc: takes a naive value as UTC. Python's `astimezone` would take it as the machine's local time, which depends on the platform's time zone.
- IsoDates.FormatIsoDate: always pads the year to four digits. For years below 1000 the platform's `strftime` may not pad.
- Paginator.IterPhotos: takes `total` once. The source re-reads `total` from every page, and a server that keeps raising it can keep the loop running forever. With a fixed `total` the loop terminates on `total - offset`.
- Paginator.IterPhotos: collects the yielded items instead of handing them out lazily. The order and the stopping point are kept.
- ReminderObject.Reminder.Save: takes the server's reply as a parameter. It does not depend on the payload sent, since the server is not modelled.

## Findings

| source | as written | input that shows it | evidently intended | confidence | as-written member | corrected member |
|---|---|---|---|---|---|---|
| python/icloudbridge.py:1066-1076 | `get_image` waits for a 202 "download pending" answer inside `except HTTPError`. But `urlopen`'s default error processor raises `HTTPError` only for statuses outside 200-299, so a 202 is returned as a normal response. The retry branch is dead, and the pending answer's body is returned as the image. | Two answers of 202 with `Retry-After: 1`, then a 200 with the image. As written: one request, no sleep, the 202 body returned. | Poll again after each 202, sleeping its `Retry-After`: three requests and sleeps of 1 and 1 second, then the image. | high, not executed | ImageFetch.AsWrittenNeverPolls | ImageFetch.CorrectedPollsOnAccepted |
| python/icloudbridge.py:640-647 | the `reason` of an error body is read with `error_body.get`, and the `except` covers only a body that fails to decode. An error body that decodes to a list, a number, a string or `null` has no `get`, so `_request` raises `AttributeError` instead of `APIError`, and callers catching `iCloudBridgeError` miss it. | An HTTP 500 whose body is `[]`. As written: `AttributeError`. | `APIError` with status 500 and the exception text as the reason. | medium, not executed | Transport.NonObjectErrorBodyEscapes | Transport.FallbackFailuresAreBridgeErrors |
| python/icloudbridge.py:596-598 | `_format_iso_date` prints the wall-clock fields and appends `Z` without converting to UTC, so an aware value with a non-zero offset is sent as a different instant. | 2024-01-01 10:00 at UTC+01:00. As written: `2024-01-01T10:00:00Z`, an hour after the value's instant. | Convert to UTC first: `2024-01-01T09:00:00Z`. | medium, not executed | UtcDates.AsWrittenOneHourOff | UtcDates.CorrectedFormatKeepsInstant |
