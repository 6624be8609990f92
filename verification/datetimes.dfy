/** The two date helpers of the models module: `dt_str_to_d` keeps only the
    date part of a timestamp, `dt_str_to_dt` chooses one of four `strptime`
    patterns. The library parsers themselves are left uninterpreted: the
    model fixes which text and which pattern reach them, not how a calendar
    date is validated. */
module DateTimes {
  import opened Results

  datatype Date = Date(year: int, month: int, day: int)

  /** A parsed timestamp; the offset is absent for a naive datetime. */
  datatype DateTime = DateTime(date: Date, hour: int, minute: int, second: int,
                               microsecond: int, utcOffsetSeconds: Option<int>)

  /** `date.fromisoformat` and `datetime.strptime`, each answering None where
      the library raises `ValueError`. */
  datatype Calendar = Calendar(fromIsoFormat: string -> Option<Date>,
                               strptime: (string, string) -> Option<DateTime>)

  /** `s.split("T")[0]`: everything before the first 'T'. */
  function DatePart(s: string): (r: string)
    ensures r <= s
    ensures 'T' !in r
    ensures |r| == |s| || s[|r|] == 'T'
  {
    if s == [] || s[0] == 'T' then [] else [s[0]] + DatePart(s[1..])
  }

  /** `dt_str_to_d`: parse the date part only, discarding any time of day. */
  function ParseDate(cal: Calendar, s: string): (r: Result<Date, Error>)
    ensures r.Ok? <==> cal.fromIsoFormat(DatePart(s)).Some?
    ensures r.Ok? ==> cal.fromIsoFormat(DatePart(s)) == Some(r.value)
    ensures r.Err? ==> r.error == BadDate(DatePart(s))
  {
    var text := DatePart(s);
    match cal.fromIsoFormat(text)
    case Some(d) => Ok(d)
    case None => Err(BadDate(text))
  }

  const SecondsFormat := "%Y-%m-%dT%H:%M:%S"
  const FractionFormat := "%Y-%m-%dT%H:%M:%S.%f"
  const OffsetDirective := "%z"

  /** The pattern `dt_str_to_dt` hands to `strptime`: fractional seconds iff
      the text contains '.', a UTC offset iff it contains 'Z'. */
  function TimestampFormat(s: string): (fmt: string)
    ensures fmt == FractionFormat + OffsetDirective <==> '.' in s && 'Z' in s
    ensures fmt == FractionFormat <==> '.' in s && 'Z' !in s
    ensures fmt == SecondsFormat + OffsetDirective <==> '.' !in s && 'Z' in s
    ensures fmt == SecondsFormat <==> '.' !in s && 'Z' !in s
  {
    var base := if '.' in s then FractionFormat else SecondsFormat;
    if 'Z' in s then base + OffsetDirective else base
  }

  /** `dt_str_to_dt`: the whole text is parsed with the chosen pattern. */
  function ParseTimestamp(cal: Calendar, s: string): (r: Result<DateTime, Error>)
    ensures r.Ok? <==> cal.strptime(s, TimestampFormat(s)).Some?
    ensures r.Ok? ==> cal.strptime(s, TimestampFormat(s)) == Some(r.value)
    ensures r.Err? ==> r.error == BadTimestamp(s, TimestampFormat(s))
  {
    var fmt := TimestampFormat(s);
    match cal.strptime(s, fmt)
    case Some(t) => Ok(t)
    case None => Err(BadTimestamp(s, fmt))
  }

  /** A text without 'T' reaches the date parser unchanged (the contract of
      `DatePart` leaves no other prefix). */
  lemma DatePartOfBareDate(s: string)
    requires 'T' !in s
    ensures DatePart(s) == s
  {
  }

  /** Truncation is idempotent. */
  lemma DatePartIdempotent(s: string)
    ensures DatePart(DatePart(s)) == DatePart(s)
  {
    DatePartOfBareDate(DatePart(s));
  }

  /** The prefix is taken at the FIRST 'T': whatever follows it, including
      further 'T's, is dropped. */
  lemma {:induction false} DatePartOfTimestamp(d: string, rest: string)
    requires 'T' !in d
    ensures DatePart(d + "T" + rest) == d
  {
    if d != [] {
      assert (d + "T" + rest)[1..] == d[1..] + "T" + rest;
      DatePartOfTimestamp(d[1..], rest);
    }
  }

  /** `dt_str_to_d` ignores the time of day entirely: a full timestamp parses
      to whatever its date part parses to. */
  lemma ParseDateDropsTime(cal: Calendar, d: string, rest: string)
    requires 'T' !in d
    ensures ParseDate(cal, d + "T" + rest) == ParseDate(cal, d)
  {
    DatePartOfTimestamp(d, rest);
    DatePartOfBareDate(d);
  }

  /** Two sample timestamps: a plain one and a fractional UTC one select
      the plain pattern and the fractional pattern with offset. */
  lemma FormatExamples()
    ensures TimestampFormat("2024-03-01T10:15:00") == SecondsFormat
    ensures TimestampFormat("2024-03-01T10:15:00.123Z") == FractionFormat + OffsetDirective
  {
    assert "2024-03-01T10:15:00.123Z"[19] == '.';
    assert "2024-03-01T10:15:00.123Z"[23] == 'Z';
  }
}
