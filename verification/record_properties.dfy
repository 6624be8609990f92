/** Properties of the record decoders that relate several payloads or
    several fields: defaults for missing keys, unknown keys being ignored,
    the `wanted` rule, the CommandItem timestamp chain and nested decoding. */
module RecordProperties {
  import opened Results
  import opened JsonValues
  import opened DateTimes
  import opened Records

  // ------------------------------------------------- defaults for {} payloads

  /** Every field of a Disk has a default. */
  lemma DiskDefaults()
    ensures DecodeDisk(map[]) == Disk(JStr(""), JStr(""), JInt(0), JInt(0))
  {
  }

  /** A Movie decoded from {} never consults a parser: all its data fields
      are null, its flags false and its ratings {}. */
  lemma MovieDefaults(cal: Calendar)
    ensures DecodeMovie(cal, map[]) == Ok(BlankMovie)
  {
  }

  /** The application name is fixed; the version defaults to "Unknown". */
  lemma InfoDefaults(data: Object)
    ensures DecodeInfo(data).appName == "Radarr"
    ensures DecodeInfo(map[]) == Info("Radarr", JStr("Unknown"))
  {
  }

  lemma CommandItemDefaults(cal: Calendar)
    ensures DecodeCommandItem(cal, map[])
            == Ok(CommandItem(JInt(0), JStr("Unknown"), JStr("unknown"), None, None, None,
                              JStr("unknown"), JStr("unknown"), JStr("Not Provided"), JBool(false)))
  {
  }

  /** An empty queue item embeds the Movie decoded from {}. */
  lemma QueueItemDefaults(cal: Calendar)
    ensures DecodeQueueItem(cal, map[])
            == Ok(QueueItem(JInt(0), JStr(""), JStr("Unknown"), JStr("Unknown"), BlankMovie,
                            JStr("unknown"), JInt(0), JInt(0), JStr("Unknown"), None, JStr("00:00:00")))
  {
    MovieDefaults(cal);
  }

  lemma WantedResultsDefaults(cal: Calendar)
    ensures DecodeWantedResults(cal, map[])
            == Ok(WantedResults(JInt(0), JInt(0), JInt(0), JStr(""), JStr(""), []))
  {
  }

  // ------------------------------------------------------ unknown keys ignored

  lemma DiskIgnoresOtherKeys(data: Object)
    ensures DecodeDisk(data) == DecodeDisk(Restrict(data, DiskKeys))
  {
  }

  lemma MovieIgnoresOtherKeys(cal: Calendar, data: Object)
    ensures DecodeMovie(cal, data) == DecodeMovie(cal, Restrict(data, MovieKeys))
  {
  }

  lemma InfoIgnoresOtherKeys(data: Object)
    ensures DecodeInfo(data) == DecodeInfo(Restrict(data, {"version"}))
  {
  }

  lemma CommandItemIgnoresOtherKeys(cal: Calendar, data: Object)
    ensures DecodeCommandItem(cal, data) == DecodeCommandItem(cal, Restrict(data, CommandKeys))
  {
  }

  lemma QueueItemIgnoresOtherKeys(cal: Calendar, data: Object)
    ensures DecodeQueueItem(cal, data) == DecodeQueueItem(cal, Restrict(data, QueueKeys))
  {
  }

  lemma WantedResultsIgnoresOtherKeys(cal: Calendar, data: Object)
    ensures DecodeWantedResults(cal, data) == DecodeWantedResults(cal, Restrict(data, WantedKeys))
  {
  }

  // ------------------------------------------------------------------- wanted

  /** With boolean flags, `wanted` is exactly `monitored && !downloaded`, for
      all eight combinations with `downloading`. */
  lemma WantedTruthTable(cal: Calendar, data: Object, downloaded: bool, monitored: bool, downloading: bool)
    requires DecodeMovie(cal, data).Ok?
    ensures var r := DecodeMovie(cal, data["downloaded" := JBool(downloaded)]
                                          ["monitored" := JBool(monitored)]
                                          ["downloading" := JBool(downloading)]);
            r.Ok? && (r.value.wanted <==> monitored && !downloaded)
  {
  }

  /** Both flags default to false: an unmonitored payload is never wanted, and
      without "downloaded" a monitored one always is. */
  lemma WantedFlagDefaults(cal: Calendar, data: Object)
    requires DecodeMovie(cal, data).Ok?
    ensures "monitored" !in data ==> !DecodeMovie(cal, data).value.wanted
    ensures "downloaded" !in data ==>
              (DecodeMovie(cal, data).value.wanted <==> "monitored" in data && Truthy(data["monitored"]))
  {
  }

  /** Whatever "downloading" carries, `wanted` is the same. */
  lemma WantedIgnoresDownloading(cal: Calendar, data: Object, v: Json)
    ensures DecodeMovie(cal, data["downloading" := v]).Ok? == DecodeMovie(cal, data).Ok?
    ensures DecodeMovie(cal, data).Ok? ==>
              DecodeMovie(cal, data["downloading" := v]).value.wanted == DecodeMovie(cal, data).value.wanted
  {
  }

  // ------------------------------------------------------------- movie dates

  /** A Movie date field holding a timestamp decodes like its bare date. */
  lemma OptionalDateDropsTime(cal: Calendar, day: string, time: string)
    requires day != "" && 'T' !in day
    ensures OptionalDate(cal, JStr(day + "T" + time)) == OptionalDate(cal, JStr(day))
  {
    ParseDateDropsTime(cal, day, time);
    assert Truthy(JStr(day + "T" + time));
  }

  /** A release timestamp and its bare date give the same Movie. */
  lemma MovieDateDropsTime(cal: Calendar, data: Object, key: string, day: string, time: string)
    requires key == "inCinemas" || key == "physicalRelease"
    requires day != "" && 'T' !in day
    ensures DecodeMovie(cal, data[key := JStr(day + "T" + time)]) == DecodeMovie(cal, data[key := JStr(day)])
  {
    OptionalDateDropsTime(cal, day, time);
    var full, bare := data[key := JStr(day + "T" + time)], data[key := JStr(day)];
    if key == "inCinemas" {
      assert OptionalDate(cal, Get(full, "inCinemas", JNull)) == OptionalDate(cal, Get(bare, "inCinemas", JNull));
    } else {
      assert OptionalDate(cal, Get(full, "physicalRelease", JNull)) == OptionalDate(cal, Get(bare, "physicalRelease", JNull));
    }
  }

  // ---------------------------------------------- CommandItem timestamp chain

  /** When "started" is present, "startedOn" is never consulted, even if
      "started" is null. */
  lemma StartedKeyWins(cal: Calendar, data: Object, v: Json)
    requires "started" in data
    ensures DecodeCommandItem(cal, data["startedOn" := v]) == DecodeCommandItem(cal, data)
  {
  }

  /** Without "started", the item decodes as if "started" carried the value
      of "startedOn" (or null when that is absent too). */
  lemma StartedFallsBackToStartedOn(cal: Calendar, data: Object)
    requires "started" !in data
    ensures DecodeCommandItem(cal, data) == DecodeCommandItem(cal, data["started" := Get(data, "startedOn", JNull)])
  {
  }

  /** Without "queued", the queued time is the resolved started time. */
  lemma QueuedMirrorsStarted(cal: Calendar, data: Object)
    requires "queued" !in data
    ensures var r := DecodeCommandItem(cal, data); r.Ok? ==> r.value.queued == r.value.started
  {
  }

  /** Null or absent timestamps stay null and are never handed to a parser:
      decoding succeeds whatever the calendar. */
  lemma NullTimestampsNotParsed(cal: Calendar, data: Object)
    requires Get(data, "started", JNull) == JNull && Get(data, "startedOn", JNull) == JNull
    requires Get(data, "queued", JNull) == JNull && Get(data, "stateChangeTime", JNull) == JNull
    ensures var r := DecodeCommandItem(cal, data);
            r.Ok? && r.value.started == None && r.value.queued == None && r.value.changed == None
  {
  }

  /** `changed` comes from "stateChangeTime" alone: none of the other
      timestamp keys affect it. */
  lemma ChangedOnlyFromStateChangeTime(cal: Calendar, data: Object, key: string, v: Json)
    requires key in {"started", "startedOn", "queued"}
    requires DecodeCommandItem(cal, data).Ok? && DecodeCommandItem(cal, data[key := v]).Ok?
    ensures DecodeCommandItem(cal, data[key := v]).value.changed == DecodeCommandItem(cal, data).value.changed
  {
  }

  /** A payload with only "startedOn" and no "queued" fills both
      started and queued from "startedOn". */
  lemma StartedOnExample(cal: Calendar, text: string)
    requires ParseTimestamp(cal, text).Ok?
    ensures var r := DecodeCommandItem(cal, map["startedOn" := JStr(text)]);
            r.Ok? && r.value.started == Some(ParseTimestamp(cal, text).value)
            && r.value.queued == r.value.started && r.value.changed == None
  {
  }

  // ---------------------------------------------------------- nested decoding

  /** The movie of a queue item is the Movie decoded from "movie", or the
      Movie decoded from {} when the key is absent. */
  lemma QueueItemEmbedsMovie(cal: Calendar, data: Object)
    requires DecodeQueueItem(cal, data).Ok?
    ensures "movie" in data ==>
              data["movie"].JObj? && DecodeMovie(cal, data["movie"].fields) == Ok(DecodeQueueItem(cal, data).value.movie)
    ensures "movie" !in data ==> DecodeQueueItem(cal, data).value.movie == BlankMovie
  {
    MovieDefaults(cal);
  }

  /** The movies of a wanted page are the records, decoded one by one, in
      the order the service sent them. */
  lemma WantedResultsKeepOrder(cal: Calendar, data: Object, records: seq<Json>)
    requires Get(data, "records", JArr([])) == JArr(records)
    ensures var r := DecodeWantedResults(cal, data);
            r.Ok? ==> |r.value.movies| == |records|
                      && forall i :: 0 <= i < |records| ==>
                           records[i].JObj? && DecodeMovie(cal, records[i].fields) == Ok(r.value.movies[i])
    ensures DecodeWantedResults(cal, data).Ok? <==>
              forall i :: 0 <= i < |records| ==> records[i].JObj? && DecodeMovie(cal, records[i].fields).Ok?
  {
  }
}
