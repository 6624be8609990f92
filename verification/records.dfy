/** The immutable records of the models module and their `from_dict`
    decoders. Every field the code fills with `data.get(key, default)` holds
    the JSON value found under `key` (Python does not enforce the field
    annotations), or `default` when the key is absent; a key present with a
    null value keeps the null. Only `wanted` (derived), `Info.appName`
    (constant) and the parsed dates have types of their own. */
module Records {
  import opened Results
  import opened JsonValues
  import opened DateTimes

  const EmptyObject: Json := JObj(map[])

  /** The exception that escapes when two steps run in order and at least
      one raises: the first step's, if it raised. */
  function FirstError<A, B>(first: Result<A, Error>, second: Result<B, Error>): Error
    requires first.Err? || second.Err?
  {
    if first.Err? then first.error else second.error
  }

  // ---------------------------------------------------------------- Disk

  /** `label` is a Dafny keyword, so the field is `volumeLabel`. */
  datatype Disk = Disk(volumeLabel: Json, path: Json, free: Json, total: Json)

  const DiskKeys: set<string> := {"label", "path", "freeSpace", "totalSpace"}

  /** `Disk.from_dict`: never fails. */
  function DecodeDisk(data: Object): (d: Disk)
    ensures d.volumeLabel == Get(data, "label", JStr(""))
    ensures d.path == Get(data, "path", JStr(""))
    ensures d.free == Get(data, "freeSpace", JInt(0))
    ensures d.total == Get(data, "totalSpace", JInt(0))
  {
    Disk(volumeLabel := Get(data, "label", JStr("")),
         path := Get(data, "path", JStr("")),
         free := Get(data, "freeSpace", JInt(0)),
         total := Get(data, "totalSpace", JInt(0)))
  }

  // --------------------------------------------------------------- Movie

  /** The date fields of a Movie: a falsy value (null, "", absent) is no
      date and is never parsed; a non-empty string is parsed by its date part. */
  function OptionalDate(cal: Calendar, j: Json): (r: Result<Option<Date>, Error>)
    ensures !Truthy(j) ==> r == Ok(None)
    ensures r.Ok? && r.value.Some? ==> j.JStr? && ParseDate(cal, j.s) == Ok(r.value.value)
    ensures Truthy(j) && j.JStr? && ParseDate(cal, j.s).Ok? ==> r == Ok(Some(ParseDate(cal, j.s).value))
    ensures Truthy(j) && j.JStr? && ParseDate(cal, j.s).Err? ==> r == Err(ParseDate(cal, j.s).error)
    ensures Truthy(j) && !j.JStr? ==> r == Err(WrongKind)
  {
    if !Truthy(j) then Ok(None)
    else if !j.JStr? then Err(WrongKind)
    else
      match ParseDate(cal, j.s)
      case Ok(d) => Ok(Some(d))
      case Err(e) => Err(e)
  }

  /** The one derivation rule: a movie is wanted when it is monitored and not
      yet downloaded, whatever `downloading` says. Both flags are tested for
      truthiness, as `not downloaded and monitored` does. */
  function Wanted(downloaded: Json, monitored: Json): (w: bool)
    ensures w ==> Truthy(monitored)
    ensures Truthy(downloaded) ==> !w
    ensures !Truthy(downloaded) && Truthy(monitored) ==> w
  {
    !Truthy(downloaded) && Truthy(monitored)
  }

  /** `in_cinimas` in the source is spelled `inCinemas` here. */
  datatype Movie = Movie(
    imdbId: Json, tmdbId: Json, title: Json, sortTitle: Json, cleanTitle: Json,
    year: Json, overview: Json,
    inCinemas: Option<Date>, physicalRelease: Option<Date>,
    status: Json,
    downloaded: Json, downloading: Json, wanted: bool, hasFile: Json,
    path: Json, folderName: Json, monitored: Json, isAvailable: Json,
    ratings: Json)

  /** The keys `Movie.from_dict` reads; `status` comes from "stats". */
  const MovieKeys: set<string> :=
    {"imdbid", "tmdbid", "title", "sortTitle", "cleanTitle", "year", "overview",
     "inCinemas", "physicalRelease", "stats", "downloaded", "downloading",
     "hasFile", "path", "folderName", "monitored", "isAvailable", "ratings"}

  /** The Movie decoded from a payload that carries none of its keys. */
  const BlankMovie: Movie :=
    Movie(JNull, JNull, JNull, JNull, JNull, JNull, JNull, None, None, JNull,
          JBool(false), JBool(false), false, JBool(false), JNull, JNull,
          JBool(false), JBool(false), EmptyObject)

  /** `Movie.from_dict`. */
  function DecodeMovie(cal: Calendar, data: Object): (r: Result<Movie, Error>)
    ensures r.Ok? <==> OptionalDate(cal, Get(data, "inCinemas", JNull)).Ok?
                       && OptionalDate(cal, Get(data, "physicalRelease", JNull)).Ok?
    ensures r.Err? ==> r.error == FirstError(OptionalDate(cal, Get(data, "inCinemas", JNull)),
                                             OptionalDate(cal, Get(data, "physicalRelease", JNull)))
    ensures r.Ok? ==>
              && r.value.imdbId == Get(data, "imdbid", JNull)
              && r.value.tmdbId == Get(data, "tmdbid", JNull)
              && r.value.title == Get(data, "title", JNull)
              && r.value.sortTitle == Get(data, "sortTitle", JNull)
              && r.value.cleanTitle == Get(data, "cleanTitle", JNull)
              && r.value.year == Get(data, "year", JNull)
              && r.value.overview == Get(data, "overview", JNull)
              && r.value.status == Get(data, "stats", JNull)
              && r.value.path == Get(data, "path", JNull)
              && r.value.folderName == Get(data, "folderName", JNull)
    ensures r.Ok? ==>
              && r.value.downloaded == Get(data, "downloaded", JBool(false))
              && r.value.downloading == Get(data, "downloading", JBool(false))
              && r.value.hasFile == Get(data, "hasFile", JBool(false))
              && r.value.monitored == Get(data, "monitored", JBool(false))
              && r.value.isAvailable == Get(data, "isAvailable", JBool(false))
              && r.value.ratings == Get(data, "ratings", EmptyObject)
    ensures r.Ok? ==> (r.value.wanted <==> Truthy(r.value.monitored) && !Truthy(r.value.downloaded))
    ensures r.Ok? ==> OptionalDate(cal, Get(data, "inCinemas", JNull)) == Ok(r.value.inCinemas)
    ensures r.Ok? ==> OptionalDate(cal, Get(data, "physicalRelease", JNull)) == Ok(r.value.physicalRelease)
    ensures r.Ok? ==> (r.value.inCinemas.Some? <==> Truthy(Get(data, "inCinemas", JNull)))
    ensures r.Ok? ==> (r.value.physicalRelease.Some? <==> Truthy(Get(data, "physicalRelease", JNull)))
  {
    var inCinemas :- OptionalDate(cal, Get(data, "inCinemas", JNull));
    var physicalRelease :- OptionalDate(cal, Get(data, "physicalRelease", JNull));
    var downloaded := Get(data, "downloaded", JBool(false));
    var monitored := Get(data, "monitored", JBool(false));
    Ok(Movie(imdbId := Get(data, "imdbid", JNull),
             tmdbId := Get(data, "tmdbid", JNull),
             title := Get(data, "title", JNull),
             sortTitle := Get(data, "sortTitle", JNull),
             cleanTitle := Get(data, "cleanTitle", JNull),
             year := Get(data, "year", JNull),
             overview := Get(data, "overview", JNull),
             inCinemas := inCinemas,
             physicalRelease := physicalRelease,
             status := Get(data, "stats", JNull),
             downloaded := downloaded,
             downloading := Get(data, "downloading", JBool(false)),
             wanted := Wanted(downloaded, monitored),
             hasFile := Get(data, "hasFile", JBool(false)),
             path := Get(data, "path", JNull),
             folderName := Get(data, "folderName", JNull),
             monitored := monitored,
             isAvailable := Get(data, "isAvailable", JBool(false)),
             ratings := Get(data, "ratings", EmptyObject)))
  }

  // ---------------------------------------------------------------- Info

  datatype Info = Info(appName: string, version: Json)

  /** `Info.from_dict`: never fails. */
  function DecodeInfo(data: Object): (i: Info)
    ensures i.appName == "Radarr"
    ensures i.version == Get(data, "version", JStr("Unknown"))
  {
    Info(appName := "Radarr", version := Get(data, "version", JStr("Unknown")))
  }

  // --------------------------------------------------------- CommandItem

  datatype CommandItem = CommandItem(
    commandId: Json, name: Json, state: Json,
    queued: Option<DateTime>, started: Option<DateTime>, changed: Option<DateTime>,
    priority: Json, trigger: Json, message: Json, sendToClient: Json)

  const CommandKeys: set<string> :=
    {"started", "startedOn", "queued", "stateChangeTime", "id", "name", "state",
     "priority", "trigger", "message", "sendUpdatesToClient"}

  /** The timestamp fields of CommandItem and QueueItem: only null (or an
      absent key) is no timestamp; every other value goes to the parser, so
      "" is parsed rather than skipped. */
  function OptionalTimestamp(cal: Calendar, j: Json): (r: Result<Option<DateTime>, Error>)
    ensures j.JNull? ==> r == Ok(None)
    ensures r.Ok? && r.value.Some? ==> j.JStr? && ParseTimestamp(cal, j.s) == Ok(r.value.value)
    ensures j.JStr? && ParseTimestamp(cal, j.s).Ok? ==> r == Ok(Some(ParseTimestamp(cal, j.s).value))
    ensures j.JStr? && ParseTimestamp(cal, j.s).Err? ==> r == Err(ParseTimestamp(cal, j.s).error)
    ensures !j.JNull? && !j.JStr? ==> r == Err(WrongKind)
  {
    if j.JNull? then Ok(None)
    else if !j.JStr? then Err(WrongKind)
    else
      match ParseTimestamp(cal, j.s)
      case Ok(t) => Ok(Some(t))
      case Err(e) => Err(e)
  }

  /** The raw value `started` is taken from: the "started" key whenever it is
      present, even with a null value; otherwise "startedOn". */
  function StartedSource(data: Object): (j: Json)
    ensures j == Get(data, "started", Get(data, "startedOn", JNull))
    ensures "started" in data ==> j == data["started"]
    ensures "started" !in data && "startedOn" in data ==> j == data["startedOn"]
    ensures "started" !in data && "startedOn" !in data ==> j == JNull
  {
    if "started" in data then data["started"] else Get(data, "startedOn", JNull)
  }

  /** The raw value `queued` is taken from: the "queued" key when present,
      otherwise the raw value chosen for `started`. */
  function QueuedSource(data: Object): (j: Json)
    ensures j == Get(data, "queued", Get(data, "started", Get(data, "startedOn", JNull)))
    ensures "queued" in data ==> j == data["queued"]
    ensures "queued" !in data ==> j == StartedSource(data)
  {
    if "queued" in data then data["queued"] else StartedSource(data)
  }

  /** `CommandItem.from_dict`: the timestamps are parsed in the order
      started, queued, changed, and the first failure escapes. */
  function DecodeCommandItem(cal: Calendar, data: Object): (r: Result<CommandItem, Error>)
    ensures r.Ok? <==> && OptionalTimestamp(cal, StartedSource(data)).Ok?
                       && OptionalTimestamp(cal, QueuedSource(data)).Ok?
                       && OptionalTimestamp(cal, Get(data, "stateChangeTime", JNull)).Ok?
    ensures r.Err? ==>
              r.error == FirstError(OptionalTimestamp(cal, StartedSource(data)),
                                    if OptionalTimestamp(cal, QueuedSource(data)).Err?
                                    then OptionalTimestamp(cal, QueuedSource(data))
                                    else OptionalTimestamp(cal, Get(data, "stateChangeTime", JNull)))
    ensures r.Ok? ==>
              && Some(r.value.started) == OptionalTimestamp(cal, StartedSource(data)).ToOption()
              && Some(r.value.queued) == OptionalTimestamp(cal, QueuedSource(data)).ToOption()
              && Some(r.value.changed) == OptionalTimestamp(cal, Get(data, "stateChangeTime", JNull)).ToOption()
    ensures r.Ok? ==>
              && r.value.commandId == Get(data, "id", JInt(0))
              && r.value.name == Get(data, "name", JStr("Unknown"))
              && r.value.state == Get(data, "state", JStr("unknown"))
              && r.value.priority == Get(data, "priority", JStr("unknown"))
              && r.value.trigger == Get(data, "trigger", JStr("unknown"))
              && r.value.message == Get(data, "message", JStr("Not Provided"))
              && r.value.sendToClient == Get(data, "sendUpdatesToClient", JBool(false))
  {
    var started :- OptionalTimestamp(cal, StartedSource(data));
    var queued :- OptionalTimestamp(cal, QueuedSource(data));
    var changed :- OptionalTimestamp(cal, Get(data, "stateChangeTime", JNull));
    Ok(CommandItem(commandId := Get(data, "id", JInt(0)),
                   name := Get(data, "name", JStr("Unknown")),
                   state := Get(data, "state", JStr("unknown")),
                   queued := queued,
                   started := started,
                   changed := changed,
                   priority := Get(data, "priority", JStr("unknown")),
                   trigger := Get(data, "trigger", JStr("unknown")),
                   message := Get(data, "message", JStr("Not Provided")),
                   sendToClient := Get(data, "sendUpdatesToClient", JBool(false))))
  }

  // ----------------------------------------------------------- QueueItem

  datatype QueueItem = QueueItem(
    queueId: Json, downloadId: Json, downloadStatus: Json, title: Json,
    movie: Movie, protocol: Json, sizeRemaining: Json, size: Json,
    status: Json, eta: Option<DateTime>, timeRemaining: Json)

  const QueueKeys: set<string> :=
    {"movie", "estimatedCompletionTime", "id", "downloadId", "trackedDownloadStatus",
     "title", "protocol", "size", "sizeleft", "status", "timeleft"}

  /** `Movie.from_dict` applied to a value that must be a dict. */
  function DecodeMovieValue(cal: Calendar, j: Json): (r: Result<Movie, Error>)
    ensures j.JObj? ==> r == DecodeMovie(cal, j.fields)
    ensures !j.JObj? ==> r == Err(WrongKind)
  {
    DecodeObject(o => DecodeMovie(cal, o), j)
  }

  /** `QueueItem.from_dict`: the nested movie is decoded first, then the ETA. */
  function DecodeQueueItem(cal: Calendar, data: Object): (r: Result<QueueItem, Error>)
    ensures r.Ok? <==> DecodeMovieValue(cal, Get(data, "movie", EmptyObject)).Ok?
                       && OptionalTimestamp(cal, Get(data, "estimatedCompletionTime", JNull)).Ok?
    ensures r.Err? ==> r.error == FirstError(DecodeMovieValue(cal, Get(data, "movie", EmptyObject)),
                                             OptionalTimestamp(cal, Get(data, "estimatedCompletionTime", JNull)))
    ensures r.Ok? ==> DecodeMovieValue(cal, Get(data, "movie", EmptyObject)) == Ok(r.value.movie)
    ensures r.Ok? ==> OptionalTimestamp(cal, Get(data, "estimatedCompletionTime", JNull)) == Ok(r.value.eta)
    ensures r.Ok? ==>
              && r.value.queueId == Get(data, "id", JInt(0))
              && r.value.downloadId == Get(data, "downloadId", JStr(""))
              && r.value.downloadStatus == Get(data, "trackedDownloadStatus", JStr("Unknown"))
              && r.value.title == Get(data, "title", JStr("Unknown"))
              && r.value.protocol == Get(data, "protocol", JStr("unknown"))
              && r.value.size == Get(data, "size", JInt(0))
              && r.value.sizeRemaining == Get(data, "sizeleft", JInt(0))
              && r.value.status == Get(data, "status", JStr("Unknown"))
              && r.value.timeRemaining == Get(data, "timeleft", JStr("00:00:00"))
  {
    var movie :- DecodeMovieValue(cal, Get(data, "movie", EmptyObject));
    var eta :- OptionalTimestamp(cal, Get(data, "estimatedCompletionTime", JNull));
    Ok(QueueItem(queueId := Get(data, "id", JInt(0)),
                 downloadId := Get(data, "downloadId", JStr("")),
                 downloadStatus := Get(data, "trackedDownloadStatus", JStr("Unknown")),
                 title := Get(data, "title", JStr("Unknown")),
                 movie := movie,
                 protocol := Get(data, "protocol", JStr("unknown")),
                 sizeRemaining := Get(data, "sizeleft", JInt(0)),
                 size := Get(data, "size", JInt(0)),
                 status := Get(data, "status", JStr("Unknown")),
                 eta := eta,
                 timeRemaining := Get(data, "timeleft", JStr("00:00:00"))))
  }

  // ------------------------------------------------------- WantedResults

  datatype WantedResults = WantedResults(
    page: Json, perPage: Json, total: Json, sortKey: Json, sortDir: Json,
    movies: seq<Movie>)

  const WantedKeys: set<string> :=
    {"records", "page", "pageSize", "totalRecords", "sortKey", "sortDirection"}

  /** `WantedResults.from_dict`. */
  function DecodeWantedResults(cal: Calendar, data: Object): (r: Result<WantedResults, Error>)
    ensures r.Ok? <==> DecodeList(o => DecodeMovie(cal, o), Get(data, "records", JArr([]))).Ok?
    ensures r.Err? ==> DecodeList(o => DecodeMovie(cal, o), Get(data, "records", JArr([]))) == Err(r.error)
    ensures r.Ok? ==> DecodeList(o => DecodeMovie(cal, o), Get(data, "records", JArr([]))) == Ok(r.value.movies)
    ensures r.Ok? ==>
              && r.value.page == Get(data, "page", JInt(0))
              && r.value.perPage == Get(data, "pageSize", JInt(0))
              && r.value.total == Get(data, "totalRecords", JInt(0))
              && r.value.sortKey == Get(data, "sortKey", JStr(""))
              && r.value.sortDir == Get(data, "sortDirection", JStr(""))
  {
    var movies :- DecodeList(o => DecodeMovie(cal, o), Get(data, "records", JArr([])));
    Ok(WantedResults(page := Get(data, "page", JInt(0)),
                     perPage := Get(data, "pageSize", JInt(0)),
                     total := Get(data, "totalRecords", JInt(0)),
                     sortKey := Get(data, "sortKey", JStr("")),
                     sortDir := Get(data, "sortDirection", JStr("")),
                     movies := movies))
  }
}
