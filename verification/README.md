# Radarr response normalisation, modelled in Dafny

This project models the response-normalisation layer of the Python Radarr
client (`radarr/models.py`). The transport layer hands that layer an
already-decoded JSON mapping. The layer turns it into immutable records
(`Disk`, `Movie`, `Info`, `CommandItem`, `QueueItem`, `WantedResults`) and
keeps one mutable aggregate, `Application`, whose sections are replaced
wholesale as new payloads arrive.

Files and modules:

- `results.dfy` (`Results`): `Option`, a failure-compatible `Result`, and
  `Error`. `Error` has one variant per exception the layer lets escape:
  - `Incomplete` is `RadarrError`;
  - `BadDate` and `BadTimestamp` are the parsers' `ValueError`;
  - `WrongKind` is the `TypeError`/`AttributeError` raised when a value of
    the wrong JSON kind reaches code that needs a string, a dict or an
    iterable.
- `json.dfy` (`JsonValues`): the JSON value type, Python truthiness,
  `dict.get`, and decoding each element of a list comprehension.
- `datetimes.dfy` (`DateTimes`): `dt_str_to_d` and `dt_str_to_dt`.
  `date.fromisoformat` and `datetime.strptime` are the two fields of a
  `Calendar` parameter. The model fixes which text and which pattern reach
  them, not how they validate a date.
- `records.dfy` (`Records`): the records and their `from_dict` decoders.
- `record_properties.dfy` (`RecordProperties`): lemmas relating several
  payloads or fields.
- `application.dfy` (`Applications`): the `Application` state machine, as
  values (`Update`, `Init`) and as a class wrapping them.

Fields that the code fills with `data.get(key, default)` hold the JSON value
found under the key, or the default when the key is absent. A key that is
present with a null value keeps the null. Python does not enforce the field
annotations, so the model does not either. The exceptions are `wanted`
(derived), `Info.appName` (a constant) and the parsed dates. The model
reproduces these facts of the code as written:

- `status` is read from the key `"stats"`.
- The external ids are read from `"imdbid"` and `"tmdbid"`.
- `Movie` dates are skipped when falsy. `CommandItem` and `QueueItem`
  timestamps are skipped only when null, so `""` still goes to the parser.
- `Application` construction checks only that `"info"` is present.
  `update_from_dict` stores it only when it is also truthy. So
  `{"info": {}}` constructs an object whose `info` is never assigned.
- `update_from_dict` is not atomic. If `"diskspace"` fails to decode after a
  new `info` was stored, that `info` stays.

## Model

| member | source | states |
|---|---|---|
| DateTimes.DatePart | radarr/models.py:21 | the text kept is a prefix of the input with no 'T', and it ends at the input's end or at its first 'T' |
| DateTimes.DatePartOfBareDate | radarr/models.py:21 | a string without 'T' reaches `date.fromisoformat` unchanged |
| DateTimes.DatePartIdempotent | radarr/models.py:21 | truncating twice is the same as truncating once |
| DateTimes.DatePartOfTimestamp | radarr/models.py:21 | the cut is at the first 'T': everything after it, including further 'T's, is dropped |
| DateTimes.ParseDate | radarr/models.py:10-22 | `dt_str_to_d` succeeds exactly when the library accepts the date part; a failure reports that date part |
| DateTimes.ParseDateDropsTime | radarr/models.py:10-22 | a full timestamp parses to exactly what its bare date parses to, so any time of day is discarded |
| DateTimes.TimestampFormat | radarr/models.py:27-30 | exactly one of four patterns is chosen: fractional seconds iff '.' occurs in the text, `%z` appended iff 'Z' occurs |
| DateTimes.ParseTimestamp | radarr/models.py:25-31 | `dt_str_to_dt` hands `strptime` the whole text with the chosen pattern; a failure names both |
| DateTimes.FormatExamples | radarr/models.py:27-30 | "2024-03-01T10:15:00" selects the plain pattern; "2024-03-01T10:15:00.123Z" selects the fractional pattern with offset |
| JsonValues.DecodeEach | radarr/models.py:235 | a list comprehension of decoders succeeds iff every element is a dict that decodes; it keeps length and order; on failure it reports the first failing element's error |
| JsonValues.DecodeList | radarr/models.py:235 | iterating a list decodes its elements; "" and {} give an empty list; any other non-list value raises |
| Records.DecodeDisk | radarr/models.py:44-51 | never fails; label, path, freeSpace and totalSpace become the four fields, with defaults "", "", 0 and 0 |
| RecordProperties.DiskDefaults | radarr/models.py:46-51 | the Disk decoded from {} is ("", "", 0, 0) |
| RecordProperties.DiskIgnoresOtherKeys | radarr/models.py:44-51 | keys other than the four Disk keys do not affect the Disk |
| Records.OptionalDate | radarr/models.py:81-85 | a falsy date value is no date and is never parsed; a truthy string is parsed by its date part and a successful parse is stored; any other truthy value raises |
| Records.Wanted | radarr/models.py:87-89 | a movie is wanted only if "monitored" is truthy, never if "downloaded" is truthy, and always when monitored is truthy and downloaded is not |
| Records.DecodeMovie | radarr/models.py:79-111 | succeeds iff both date fields are falsy or parse; fields other than the flags and ratings default to null; status comes from "stats"; the flags default to false and ratings to {}; wanted iff monitored is truthy and downloaded is not; each date is the truncated-and-parsed value under its key, present iff that value is truthy; on failure, the first date's error wins |
| RecordProperties.MovieDefaults | radarr/models.py:91-110 | for every calendar, the Movie decoded from {} has null data fields, false flags, wanted false and ratings {} |
| RecordProperties.MovieIgnoresOtherKeys | radarr/models.py:79-111 | only the eighteen keys the code reads affect the Movie |
| RecordProperties.WantedTruthTable | radarr/models.py:87-104 | with boolean flags, wanted is monitored && !downloaded in all eight combinations with downloading |
| RecordProperties.WantedFlagDefaults | radarr/models.py:87-89 | without "monitored" a movie is never wanted; without "downloaded" it is wanted iff monitored is truthy |
| RecordProperties.WantedIgnoresDownloading | radarr/models.py:89 | whatever "downloading" holds, decoding succeeds in the same cases and wanted is the same |
| RecordProperties.OptionalDateDropsTime | radarr/models.py:81-85 | a release date given as a timestamp decodes like its bare date |
| RecordProperties.MovieDateDropsTime | radarr/models.py:81-85 | replacing either release date by its bare date leaves the whole Movie unchanged |
| Records.DecodeInfo | radarr/models.py:122-124 | the application name is always "Radarr"; the version is the "version" value, defaulting to "Unknown" |
| RecordProperties.InfoDefaults | radarr/models.py:124 | every Info is named "Radarr"; the Info decoded from {} has version "Unknown" |
| RecordProperties.InfoIgnoresOtherKeys | radarr/models.py:122-124 | only "version" affects the Info |
| Records.OptionalTimestamp | radarr/models.py:155-163 | only null is no timestamp; a string is parsed whole, even "", and a successful parse is stored; any other value raises |
| Records.StartedSource | radarr/models.py:145-148 | the "started" value whenever that key is present, even null; otherwise "startedOn"; otherwise null |
| Records.QueuedSource | radarr/models.py:150-153 | the "queued" value whenever that key is present, even null; otherwise the value chosen for started |
| Records.DecodeCommandItem | radarr/models.py:143-176 | succeeds iff the started, queued and changed sources are null or parse; the errors are tried in that order; id, name, state, priority, trigger, message and sendUpdatesToClient default to 0, "Unknown", "unknown", "unknown", "unknown", "Not Provided" and false |
| RecordProperties.CommandItemDefaults | radarr/models.py:165-176 | the CommandItem decoded from {} has those defaults and three null timestamps |
| RecordProperties.CommandItemIgnoresOtherKeys | radarr/models.py:143-176 | only the eleven keys the code reads affect the CommandItem |
| RecordProperties.StartedKeyWins | radarr/models.py:145-148 | once "started" is present, even as null, "startedOn" has no effect on the item |
| RecordProperties.StartedFallsBackToStartedOn | radarr/models.py:145-148 | without "started", the item decodes as if "started" held the "startedOn" value, or null |
| RecordProperties.QueuedMirrorsStarted | radarr/models.py:150-159 | without "queued", the queued time equals the resolved started time |
| RecordProperties.NullTimestampsNotParsed | radarr/models.py:155-163 | when every timestamp key is null or absent, decoding succeeds for every calendar and all three timestamps stay null |
| RecordProperties.ChangedOnlyFromStateChangeTime | radarr/models.py:161-163 | changing "started", "startedOn" or "queued" never changes `changed` |
| RecordProperties.StartedOnExample | radarr/models.py:145-159 | a payload with only "startedOn" fills started from it; queued equals started; changed is null |
| Records.DecodeQueueItem | radarr/models.py:196-218 | the nested movie is decoded first and the ETA second; the first error escapes; the other fields default to 0, "", "Unknown", "Unknown", "unknown", 0, 0, "Unknown" and "00:00:00" |
| Records.DecodeMovieValue | radarr/models.py:198-200 | a dict under "movie" decodes as a Movie, with its outcome; any other value, null included, raises |
| RecordProperties.QueueItemDefaults | radarr/models.py:198-217 | the QueueItem decoded from {} has those defaults, a null ETA and the Movie decoded from {} |
| RecordProperties.QueueItemIgnoresOtherKeys | radarr/models.py:196-218 | only the eleven keys the code reads affect the QueueItem |
| RecordProperties.QueueItemEmbedsMovie | radarr/models.py:198-200 | the queue item's movie is the Movie decoded from the "movie" dict, or the Movie decoded from {} when that key is absent |
| Records.DecodeWantedResults | radarr/models.py:233-244 | the movies are the decoded "records" (default []); a record failure escapes; page, pageSize, totalRecords, sortKey and sortDirection default to 0, 0, 0, "" and "" |
| RecordProperties.WantedResultsDefaults | radarr/models.py:235-242 | the page decoded from {} is (0, 0, 0, "", "") with no movies |
| RecordProperties.WantedResultsIgnoresOtherKeys | radarr/models.py:233-244 | only the six keys the code reads affect the page |
| RecordProperties.WantedResultsKeepOrder | radarr/models.py:235 | for a list of records, the page decodes iff every record is a dict that decodes; movie i is record i decoded, in the server's order |
| Applications.Update | radarr/models.py:260-269 | info is replaced iff "info" is present and truthy; disks are replaced iff "diskspace" is present, truthy and decodes; a section not replaced keeps its value; an info that is not a dict changes nothing; a failing disk list leaves the new info stored |
| Applications.Supplies | radarr/models.py:262-265 | a section takes part iff its key is present with a truthy value, which is the truthiness of `get(key)` with a null default |
| Applications.DecodeDisks | radarr/models.py:266 | a list decodes iff every element is a dict, giving one Disk per element in order; "" and {} give no disks; any other value raises; the only error is WrongKind |
| Applications.Init | radarr/models.py:253-258 | construction fails with RadarrError iff "info" is absent; otherwise it is Update applied to the unset object, and a failure there yields no object and lets that update's exception escape |
| Applications.UpdateIgnoresOtherKeys | radarr/models.py:260-269 | top-level keys other than "info" and "diskspace" are ignored |
| Applications.UpdateIdempotent | radarr/models.py:260-269 | applying any payload a second time changes nothing, including a payload whose disk list raised after its info was stored |
| Applications.UpdateLastWriteWins | radarr/models.py:262-267 | a clean payload that supplies both sections gives the same result from every prior state |
| Applications.EmptyDiskspaceKeepsDisks | radarr/models.py:265-267 | an empty "diskspace" list leaves the stored disks unchanged |
| Applications.DiskspaceReplacesWholesale | radarr/models.py:265-267 | a non-empty list of disk dicts replaces the stored disks with exactly those disks, in order |
| Applications.InitExamples | radarr/models.py:250-258 | {} fails with RadarrError; {"info": {}} constructs an object with no info and no disks; {"info": {"version": v}} stores Info("Radarr", v) and no disks |
| Applications.Application.Allocate | radarr/models.py:250-251 | a newly allocated object has no info and the empty disk list |
| Applications.Application.UpdateFromDict | radarr/models.py:260-269 | the object's state becomes Update's; info is untouched unless supplied; disks are untouched unless supplied and decoded |
| Applications.NewApplication | radarr/models.py:253-258 | no object is returned when construction fails; otherwise a fresh object holds Init's state |

## Left out

- The HTTP client (`radarr/__init__.py` re-exports it; `radarr/radarr.py` is not part of this model). It is network plumbing outside the normalisation layer.
- The exception class hierarchy (`radarr/exceptions.py`) is reduced to the one `Error` datatype. Only `RadarrError` itself is raised by this layer.
- How `date.fromisoformat` and `datetime.strptime` validate a date (calendar rules, offsets, microseconds). They are uninterpreted parameters that may fail.
- Python distinguishes `TypeError` from `AttributeError`; both are `WrongKind` here.
- Iterating a non-empty string or dict yields strings, and the first of them fails `.get`. The model raises `WrongKind` at once instead of enumerating the elements. The outcome is the same.
- Non-integral JSON numbers are not modelled. So a float under a key whose truthiness the code tests ("inCinemas", "physicalRelease", "downloaded", "monitored", "info", "diskspace") cannot be represented. For example, `"monitored": 0.0` is falsy and `"inCinemas": 1.5` raises.
- The contents of `ratings` are kept as an opaque JSON value.
- `update_from_dict` returning `self` is not modelled. The method returns only the exception it raised, if any.
- The class-level `disks = []` list is shared by all instances until one assigns its own. The code never mutates it in place, so the model gives each object its own empty sequence.
- Concurrent calls to `update_from_dict` are not modelled; calls are sequential.
