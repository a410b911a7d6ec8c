/** The typed mapper: the four domain records and their `from_dict` constructors
    (python/icloudbridge.py:52-77, 153-198, 278-320, 394-446), plus the media-type
    queries and the video dispatch of `Photo`. `from_dict` copies each value exactly as
    decoded, without checking its JSON type, so the records hold `Json` values; an
    optional field holds `JNull` (Python's `None`) when its key is absent. The `_client`
    back-reference is not part of the records. */
module Records {
  import opened Wrappers
  import opened JsonValues
  import opened Errors
  import opened IsoDates
  import opened Transport

  datatype ReminderList = ReminderList(id: Json, title: Json, color: Json, reminderCount: Json)

  datatype ReminderData = ReminderData(
    id: Json, title: Json, notes: Json, isCompleted: Json, priority: Json,
    dueDate: Option<DateTime>, completionDate: Option<DateTime>, listId: Json)

  datatype Album = Album(
    id: Json, title: Json, albumType: Json, photoCount: Json, videoCount: Json,
    startDate: Option<DateTime>, endDate: Option<DateTime>)

  datatype Photo = Photo(
    id: Json, albumId: Json, mediaType: Json,
    creationDate: DateTime, modificationDate: Option<DateTime>,
    width: Json, height: Json, isFavorite: Json, isHidden: Json,
    filename: Json, fileSize: Json)

  // ---- the keys each record needs, in the order the source reads them ----

  const ReminderListKeys: seq<string> := ["id", "title", "reminderCount"]
  const ReminderKeys: seq<string> := ["id", "title", "isCompleted", "priority", "listId"]
  const AlbumKeys: seq<string> := ["id", "title", "albumType", "photoCount", "videoCount"]
  const PhotoKeys: seq<string> := ["id", "albumId", "mediaType", "width", "height", "isFavorite", "isHidden"]

  /** The first of `keys` missing from `data`, the one whose `KeyError` is raised. */
  function FirstMissing(data: Object, keys: seq<string>): (m: Option<string>)
    ensures m.None? <==> forall i :: 0 <= i < |keys| ==> keys[i] in data
    ensures m.Some? ==> exists k :: 0 <= k < |keys| && keys[k] == m.value && m.value !in data
                          && forall i :: 0 <= i < k ==> keys[i] in data
  {
    if keys == [] then None
    else if keys[0] !in data then Some(keys[0])
    else
      var m := FirstMissing(data, keys[1..]);
      if m.Some? then
        ghost var k :| 0 <= k < |keys| - 1 && keys[1..][k] == m.value && m.value !in data
                       && forall i :: 0 <= i < k ==> keys[1..][i] in data;
        assert keys[k + 1] == m.value;
        m
      else m
  }

  /** `data[key]`. */
  function Require(data: Object, key: string): (r: Result<Json, Error>)
    ensures r.Success? <==> key in data
    ensures r.Success? ==> r.value == data[key]
    ensures r.Failure? ==> r.error == KeyError(key)
  {
    if key in data then Success(data[key]) else Failure(KeyError(key))
  }

  /** `data[keys[0]], data[keys[1]], ...` read in order: the values, or the `KeyError` of
      the first key missing. */
  function RequireAll(data: Object, keys: seq<string>): (r: Result<seq<Json>, Error>)
    ensures r.Success? <==> FirstMissing(data, keys).None?
    ensures r.Success? ==> |r.value| == |keys| && forall i :: 0 <= i < |keys| ==> keys[i] in data && r.value[i] == data[keys[i]]
    ensures r.Failure? ==> r.error == KeyError(FirstMissing(data, keys).value)
  {
    if keys == [] then Success([])
    else
      var v :- Require(data, keys[0]);
      var rest :- RequireAll(data, keys[1..]);
      Success([v] + rest)
  }

  /** `if data.get(key): value = _parse_iso_date(data[key])`: an absent or falsy value is
      no date; a truthy one is parsed and any parse error propagates. */
  function OptionalDate(data: Object, key: string, lib: DateLib): (r: Result<Option<DateTime>, Error>)
    ensures !Truthy(Get(data, key)) ==> r == Success(None)
    ensures Truthy(Get(data, key)) ==> key in data
    ensures Truthy(Get(data, key)) && ParseDateValue(data[key], lib).Success? ==>
              r == Success(Some(ParseDateValue(data[key], lib).value))
    ensures Truthy(Get(data, key)) && ParseDateValue(data[key], lib).Failure? ==>
              r == Failure(ParseDateValue(data[key], lib).error)
  {
    if Truthy(Get(data, key)) then
      var d :- ParseDateValue(data[key], lib);
      Success(Some(d))
    else Success(None)
  }

  /** `ReminderList.from_dict`. */
  function ReminderListFromDict(data: Object): (r: Result<ReminderList, Error>)
    ensures r.Success? <==> FirstMissing(data, ReminderListKeys).None?
    ensures r.Failure? ==> r.error == KeyError(FirstMissing(data, ReminderListKeys).value)
    ensures r.Success? ==> && "id" in data && r.value.id == data["id"]
                           && "title" in data && r.value.title == data["title"]
                           && "reminderCount" in data && r.value.reminderCount == data["reminderCount"]
                           && r.value.color == Get(data, "color")
  {
    var v :- RequireAll(data, ReminderListKeys);
    Success(ReminderList(v[0], v[1], Get(data, "color"), v[2]))
  }

  /** `Reminder.from_dict`: the two dates are parsed before any required key is read. */
  function ReminderFromDict(data: Object, lib: DateLib): (r: Result<ReminderData, Error>)
    ensures OptionalDate(data, "dueDate", lib).Failure? ==> r == Failure(OptionalDate(data, "dueDate", lib).error)
    ensures OptionalDate(data, "dueDate", lib).Success? && OptionalDate(data, "completionDate", lib).Failure? ==>
              r == Failure(OptionalDate(data, "completionDate", lib).error)
    ensures OptionalDate(data, "dueDate", lib).Success? && OptionalDate(data, "completionDate", lib).Success? ==>
              (r.Success? <==> FirstMissing(data, ReminderKeys).None?)
    ensures (OptionalDate(data, "dueDate", lib).Success? && OptionalDate(data, "completionDate", lib).Success?
             && FirstMissing(data, ReminderKeys).Some?) ==> r == Failure(KeyError(FirstMissing(data, ReminderKeys).value))
    ensures r.Success? ==> && "id" in data && r.value.id == data["id"]
                           && "title" in data && r.value.title == data["title"]
                           && "isCompleted" in data && r.value.isCompleted == data["isCompleted"]
                           && "priority" in data && r.value.priority == data["priority"]
                           && "listId" in data && r.value.listId == data["listId"]
                           && r.value.notes == Get(data, "notes")
                           && OptionalDate(data, "dueDate", lib) == Success(r.value.dueDate)
                           && OptionalDate(data, "completionDate", lib) == Success(r.value.completionDate)
  {
    var dueDate :- OptionalDate(data, "dueDate", lib);
    var completionDate :- OptionalDate(data, "completionDate", lib);
    var v :- RequireAll(data, ReminderKeys);
    Success(ReminderData(v[0], v[1], Get(data, "notes"), v[2], v[3], dueDate, completionDate, v[4]))
  }

  /** `Album.from_dict`: the two dates are parsed before any required key is read. */
  function AlbumFromDict(data: Object, lib: DateLib): (r: Result<Album, Error>)
    ensures OptionalDate(data, "startDate", lib).Failure? ==> r == Failure(OptionalDate(data, "startDate", lib).error)
    ensures OptionalDate(data, "startDate", lib).Success? && OptionalDate(data, "endDate", lib).Failure? ==>
              r == Failure(OptionalDate(data, "endDate", lib).error)
    ensures OptionalDate(data, "startDate", lib).Success? && OptionalDate(data, "endDate", lib).Success? ==>
              (r.Success? <==> FirstMissing(data, AlbumKeys).None?)
    ensures (OptionalDate(data, "startDate", lib).Success? && OptionalDate(data, "endDate", lib).Success?
             && FirstMissing(data, AlbumKeys).Some?) ==> r == Failure(KeyError(FirstMissing(data, AlbumKeys).value))
    ensures r.Success? ==> && "id" in data && r.value.id == data["id"]
                           && "title" in data && r.value.title == data["title"]
                           && "albumType" in data && r.value.albumType == data["albumType"]
                           && "photoCount" in data && r.value.photoCount == data["photoCount"]
                           && "videoCount" in data && r.value.videoCount == data["videoCount"]
                           && OptionalDate(data, "startDate", lib) == Success(r.value.startDate)
                           && OptionalDate(data, "endDate", lib) == Success(r.value.endDate)
  {
    var startDate :- OptionalDate(data, "startDate", lib);
    var endDate :- OptionalDate(data, "endDate", lib);
    var v :- RequireAll(data, AlbumKeys);
    Success(Album(v[0], v[1], v[2], v[3], v[4], startDate, endDate))
  }

  /** `Photo.from_dict`: the creation date is required and parsed first, then the
      optional modification date, then the other required keys. */
  function PhotoFromDict(data: Object, lib: DateLib): (r: Result<Photo, Error>)
    ensures "creationDate" !in data ==> r == Failure(KeyError("creationDate"))
    ensures "creationDate" in data && ParseDateValue(data["creationDate"], lib).Failure? ==>
              r == Failure(ParseDateValue(data["creationDate"], lib).error)
    ensures ("creationDate" in data && ParseDateValue(data["creationDate"], lib).Success?
             && OptionalDate(data, "modificationDate", lib).Failure?) ==>
              r == Failure(OptionalDate(data, "modificationDate", lib).error)
    ensures ("creationDate" in data && ParseDateValue(data["creationDate"], lib).Success?
             && OptionalDate(data, "modificationDate", lib).Success?) ==>
              (r.Success? <==> FirstMissing(data, PhotoKeys).None?)
    ensures ("creationDate" in data && ParseDateValue(data["creationDate"], lib).Success?
             && OptionalDate(data, "modificationDate", lib).Success?
             && FirstMissing(data, PhotoKeys).Some?) ==> r == Failure(KeyError(FirstMissing(data, PhotoKeys).value))
    ensures r.Success? ==> && "creationDate" in data
                           && ParseDateValue(data["creationDate"], lib) == Success(r.value.creationDate)
                           && OptionalDate(data, "modificationDate", lib) == Success(r.value.modificationDate)
                           && "id" in data && r.value.id == data["id"]
                           && "albumId" in data && r.value.albumId == data["albumId"]
                           && "mediaType" in data && r.value.mediaType == data["mediaType"]
                           && "width" in data && r.value.width == data["width"]
                           && "height" in data && r.value.height == data["height"]
                           && "isFavorite" in data && r.value.isFavorite == data["isFavorite"]
                           && "isHidden" in data && r.value.isHidden == data["isHidden"]
                           && r.value.filename == Get(data, "filename") && r.value.fileSize == Get(data, "fileSize")
  {
    var creation :- Require(data, "creationDate");
    var creationDate :- ParseDateValue(creation, lib);
    var modificationDate :- OptionalDate(data, "modificationDate", lib);
    var v :- RequireAll(data, PhotoKeys);
    Success(Photo(v[0], v[1], v[2], creationDate, modificationDate, v[3], v[4], v[5], v[6],
                  Get(data, "filename"), Get(data, "fileSize")))
  }

  // ---- properties of the mapper ----

  /** Every optional field is `None` when its key is absent, and every optional date is
      `None` when its value is absent or falsy; no placeholder value is ever filled in. */
  lemma AbsentOptionalsAreNone(data: Object, lib: DateLib)
    ensures ReminderListFromDict(data).Success? && "color" !in data ==> ReminderListFromDict(data).value.color == JNull
    ensures ReminderFromDict(data, lib).Success? && "notes" !in data ==> ReminderFromDict(data, lib).value.notes == JNull
    ensures ReminderFromDict(data, lib).Success? && !Truthy(Get(data, "dueDate")) ==>
              ReminderFromDict(data, lib).value.dueDate == None
    ensures ReminderFromDict(data, lib).Success? && !Truthy(Get(data, "completionDate")) ==>
              ReminderFromDict(data, lib).value.completionDate == None
    ensures AlbumFromDict(data, lib).Success? && !Truthy(Get(data, "startDate")) ==> AlbumFromDict(data, lib).value.startDate == None
    ensures AlbumFromDict(data, lib).Success? && !Truthy(Get(data, "endDate")) ==> AlbumFromDict(data, lib).value.endDate == None
    ensures PhotoFromDict(data, lib).Success? && !Truthy(Get(data, "modificationDate")) ==>
              PhotoFromDict(data, lib).value.modificationDate == None
    ensures PhotoFromDict(data, lib).Success? && "filename" !in data ==> PhotoFromDict(data, lib).value.filename == JNull
    ensures PhotoFromDict(data, lib).Success? && "fileSize" !in data ==> PhotoFromDict(data, lib).value.fileSize == JNull
  {
  }

  /** A present optional date that neither parser accepts fails the whole mapping with
      `ValueError`, even when every required key is there. */
  lemma UnparseableDateFails(data: Object, lib: DateLib)
    requires "dueDate" in data && data["dueDate"].JString? && data["dueDate"].s != ""
    requires lib.fromIsoFormat(ReplaceZ(data["dueDate"].s)).None?
    requires lib.strptime(BeforeFirstDot(ReplaceZ(data["dueDate"].s))).None?
    ensures ReminderFromDict(data, lib) == Failure(ValueError)
  {
  }

  // ---- media type queries and the video dispatch ----

  /** `Photo.is_video`. */
  predicate IsVideo(p: Photo)
    ensures IsVideo(p) ==> p.mediaType != JString("livePhoto")
  {
    p.mediaType == JString("video")
  }

  /** `Photo.is_live_photo`. */
  predicate IsLivePhoto(p: Photo)
    ensures IsLivePhoto(p) ==> p.mediaType != JString("video")
  {
    p.mediaType == JString("livePhoto")
  }

  /** The two video endpoints: `/photos/{id}/video` and `/photos/{id}/live-video`. */
  datatype VideoEndpoint = VideoFile | LiveVideo

  /** `Photo.video`: which endpoint it asks, by media type; `ValueError` for a photo that
      is neither a video nor a Live Photo. */
  function VideoSource(p: Photo): (r: Result<VideoEndpoint, Error>)
    ensures r == Success(VideoFile) <==> IsVideo(p)
    ensures r == Success(LiveVideo) <==> IsLivePhoto(p)
    ensures r == Failure(ValueError) <==> !IsVideo(p) && !IsLivePhoto(p)
  {
    if p.mediaType == JString("video") then Success(VideoFile)
    else if p.mediaType == JString("livePhoto") then Success(LiveVideo)
    else Failure(ValueError)
  }

  /** `Photo.video` end to end, `answer` giving the server's reply at each endpoint. */
  function PhotoVideo(p: Photo, answer: VideoEndpoint -> Response<Bytes>): (r: Result<Bytes, Error>)
    ensures IsVideo(p) ==> r == Download(answer(VideoFile))
    ensures IsLivePhoto(p) ==> r == Download(answer(LiveVideo))
    ensures !IsVideo(p) && !IsLivePhoto(p) ==> r == Failure(ValueError)
  {
    var endpoint :- VideoSource(p);
    Download(answer(endpoint))
  }
}
