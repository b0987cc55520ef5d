/** The `get-weather-near-location` tool: weather-station readings near a point, from
    the `meteo_data` table. The query itself is the collaborator `db`; the
    model covers the checks before it and the text built from its rows. */
module MeteoDataTool {
  import opened Php
  import opened Text
  import opened Postgres

  datatype Arguments = Arguments(latitude: Option<real>, longitude: Option<real>, distance: Option<real>, limit: Option<int>)

  /** The values bound to the prepared statement. */
  datatype Query = Query(latitude: real, longitude: real, distance: real, limit: int)

  const DistanceOutOfRange := "Error: distance must be between 0.1 and 100 km"

  /** `min(max($limit ?? 10, 1), 100)`. */
  function Limit(limit: Option<int>): (n: int)
    ensures 1 <= n <= 100
    ensures limit.None? ==> n == 10
    ensures limit.Some? && 1 <= limit.value <= 100 ==> n == limit.value
    ensures limit.Some? && limit.value < 1 ==> n == 1
    ensures limit.Some? && limit.value > 100 ==> n == 100
  {
    Min(Max(OrElse(limit, 10), 1), 100)
  }

  predicate ValidDistance(distance: real)
  {
    0.1 <= distance <= 100.0
  }

  /** The checks in their order: credentials, presence of both coordinates,
      latitude, longitude, distance (defaulting to 1.0). The first that
      fails gives the text returned; otherwise the query to run. */
  function Validate(env: Env, args: Arguments): (r: Result<Query>)
    ensures r.Ok? <==>
      && Complete(ProcessCredentials(env))
      && CheckCoordinates(args.latitude, args.longitude).Ok?
      && ValidDistance(OrElse(args.distance, 1.0))
    ensures !Complete(ProcessCredentials(env)) ==> r == Err(MissingCredentials)
    ensures Complete(ProcessCredentials(env)) && CheckCoordinates(args.latitude, args.longitude).Err? ==>
      r == Err(CheckCoordinates(args.latitude, args.longitude).message)
    ensures (Complete(ProcessCredentials(env)) && CheckCoordinates(args.latitude, args.longitude).Ok? &&
             !ValidDistance(OrElse(args.distance, 1.0))) ==> r == Err(DistanceOutOfRange)
    ensures r.Ok? ==>
      r.value == Query(args.latitude.value, args.longitude.value, OrElse(args.distance, 1.0), Limit(args.limit))
  {
    if !Complete(ProcessCredentials(env)) then Err(MissingCredentials)
    else
      match CheckCoordinates(args.latitude, args.longitude)
      case Err(m) => Err(m)
      case Ok(p) =>
        var distance := OrElse(args.distance, 1.0);
        if distance < 0.1 || distance > 100.0 then Err(DistanceOutOfRange)
        else Ok(Query(p.latitude, p.longitude, distance, Limit(args.limit)))
  }

  /** The block for the row at `index` (0-based): its title line, then
      the details. */
  function Entry(index: nat, row: Row, fmt: Printf): string
  {
    Title(index, row) + Details(row, fmt)
  }

  /** The numbered title line; a missing NAME shows as 'N/A'. */
  function Title(index: nat, row: Row): string
  {
    "Station #" + Dec(index + 1) + ": " + OrElse(Field(row, "NAME"), "N/A") + "\n"
  }

  function Details(row: Row, fmt: Printf): string
  {
    "  Distance: " + FixedOrZero(fmt, Field(row, "distance_km"), 2) + " km\n" +
    "  Location: Lat " + FixedOrZero(fmt, Field(row, "LAT"), 4) + ", Lon " + FixedOrZero(fmt, Field(row, "LON"), 4) + "\n" +
    "  Timestamp: " + OrElse(Field(row, "TIMESTAMP"), "N/A") + "\n" +
    "  Temperature: Adult " + FixedOrZero(fmt, Field(row, "TEMPERATURE_ADULT"), 1) + "°C, Child " +
      FixedOrZero(fmt, Field(row, "TEMPERATURE_CHILD"), 1) + "°C\n" +
    "  Pressure: " + OrElse(Field(row, "PRESSURE"), "N/A") + " hPa\n" +
    "  Humidity: " + OrElse(Field(row, "HUMIDITY"), "N/A") + "%\n" +
    "  Wind: " + FixedOrZero(fmt, Field(row, "WIND_SPEED"), 1) + " km/h from " + OrElse(Field(row, "WIND_DIRECTION"), "N/A") + "°\n" +
    "  Solar Radiation: " + OrElse(Field(row, "SOLAR_RADIATION"), "N/A") + " W/m²\n" +
    "  Precipitation: " + OrElse(Field(row, "PRECIPITATION"), "N/A") + " mm\n\n"
  }

  function Entries(rows: seq<Row>, fmt: Printf): (entries: seq<string>)
    ensures |entries| == |rows|
    ensures forall k :: 0 <= k < |rows| ==> entries[k] == Entry(k, rows[k], fmt)
  {
    seq(|rows|, k requires 0 <= k < |rows| => Entry(k, rows[k], fmt))
  }

  /** The header line and blank line before the blocks: the count, then where. */
  function Header(q: Query, count: nat, fmt: Printf): string
  {
    Count(count) + Where(q, fmt)
  }

  function Where(q: Query, fmt: Printf): string
  {
    " within " + fmt.fixed(q.distance, 1) + " km of (" + fmt.fixed(q.latitude, 4) + ", " + fmt.fixed(q.longitude, 4) + "):\n\n"
  }

  function Count(count: nat): string
  {
    "Found " + Dec(count) + " weather station reading(s)"
  }

  function NoData(q: Query, fmt: Printf): string
  {
    "No meteorological data found within " + fmt.fixed(q.distance, 1) + " km of coordinates (" +
    fmt.fixed(q.latitude, 4) + ", " + fmt.fixed(q.longitude, 4) + ") for today."
  }

  /** The text for the fetched rows. */
  function Report(q: Query, rows: seq<Row>, fmt: Printf): string
  {
    if |rows| == 0 then NoData(q, fmt) else Header(q, |rows|, fmt) + Concat(Entries(rows, fmt))
  }

  /** `execute` as a whole: a failed check returns its message, otherwise
      the rows `db` yields for the query are reported, or the caught
      exception is. */
  function Run(env: Env, args: Arguments, db: Query -> Fetch, fmt: Printf): string
  {
    match Validate(env, args)
    case Err(message) => message
    case Ok(q) =>
      match db(q)
      case Rows(rows) => Report(q, rows, fmt)
      case _ => FailureText(db(q))
  }

  /** `execute`, with the `foreach` that appends one block per row. */
  method Execute(env: Env, args: Arguments, db: Query -> Fetch, fmt: Printf) returns (out: string)
    ensures out == Run(env, args, db, fmt)
  {
    var checked := Validate(env, args);
    if checked.Err? {
      return checked.message;
    }
    var q := checked.value;
    var fetched := db(q);
    if !fetched.Rows? {
      return FailureText(fetched);
    }
    out := WriteReport(q, fetched.rows, fmt);
  }

  /** The report part of `execute`: the header, then one block per row. */
  method WriteReport(q: Query, rows: seq<Row>, fmt: Printf) returns (out: string)
    ensures out == Report(q, rows, fmt)
  {
    if |rows| == 0 {
      return NoData(q, fmt);
    }
    var header := Header(q, |rows|, fmt);
    ghost var entries := Entries(rows, fmt);
    out := header;
    var i := 0;
    while i < |rows|
      invariant 0 <= i <= |rows|
      invariant out == header + Concat(entries[..i])
    {
      ConcatStep(header, entries, i);
      out := out + Entry(i, rows[i], fmt);
      i := i + 1;
    }
    assert entries[..|rows|] == entries;
  }

  /** When a check fails the database is never asked: the text is the
      check's message whatever `db` would answer. */
  lemma RejectedWithoutQuery(env: Env, args: Arguments, db1: Query -> Fetch, db2: Query -> Fetch, fmt: Printf)
    requires Validate(env, args).Err?
    ensures Run(env, args, db1, fmt) == Run(env, args, db2, fmt) == Validate(env, args).message
  {
  }

  /** The query run for accepted arguments binds the given coordinates, the
      distance (1.0 when absent) and a limit in [1, 100] (10 when absent). */
  lemma AcceptedQuery(env: Env, args: Arguments)
    requires Validate(env, args).Ok?
    ensures var q := Validate(env, args).value;
      && q.latitude == args.latitude.value && q.longitude == args.longitude.value
      && -90.0 <= q.latitude <= 90.0 && -180.0 <= q.longitude <= 180.0
      && 0.1 <= q.distance <= 100.0 && (args.distance.None? ==> q.distance == 1.0)
      && 1 <= q.limit <= 100 && (args.limit.None? ==> q.limit == 10)
  {
  }

  /** For rows, the report opens with their count and then holds one block
      per row, in row order: the block of row k sits after the blocks of
      rows 0..k-1 and opens with its title line, numbered k + 1 and naming
      the station ('N/A' when NAME is missing). */
  lemma ReportBlocks(q: Query, rows: seq<Row>, fmt: Printf, k: nat)
    requires k < |rows|
    ensures var entries := Entries(rows, fmt);
      && StartsWith(Report(q, rows, fmt), "Found " + Dec(|rows|) + " weather station reading(s)")
      && Report(q, rows, fmt) == Header(q, |rows|, fmt) + (Concat(entries[..k]) + entries[k] + Concat(entries[k + 1..]))
      && StartsWith(entries[k], "Station #" + Dec(k + 1) + ": " + OrElse(Field(rows[k], "NAME"), "N/A") + "\n")
  {
    var entries := Entries(rows, fmt);
    ConcatAt(entries, k);
    AppendAssoc(Count(|rows|), Where(q, fmt), Concat(entries));
    StartsWithAppend(Count(|rows|), Where(q, fmt) + Concat(entries));
    StartsWithAppend(Title(k, rows[k]), Details(rows[k], fmt));
  }

  /** An empty result gives the no-data text, which mentions no station. */
  lemma NoRowsNoBlocks(q: Query, fmt: Printf)
    ensures Report(q, [], fmt) == NoData(q, fmt)
    ensures StartsWith(Report(q, [], fmt), "No meteorological data found within ")
  {
    var lead := "No meteorological data found within ";
    var rest := fmt.fixed(q.distance, 1) + " km of coordinates (" +
      fmt.fixed(q.latitude, 4) + ", " + fmt.fixed(q.longitude, 4) + ") for today.";
    assert NoData(q, fmt) == lead + rest;
    StartsWithAppend(lead, rest);
  }
}
