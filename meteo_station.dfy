/** The `find-nearby-meteostations` tool: the weather stations of the Olomouc
    table within a distance of a point, nearest first. The query is the
    collaborator `db`. */
module MeteoStationTool {
  import opened Php
  import opened Text
  import opened Postgres

  datatype Arguments = Arguments(latitude: Option<real>, longitude: Option<real>, distanceKm: Option<real>)

  /** The values bound to the prepared statement. */
  datatype Query = Query(latitude: real, longitude: real, distanceKm: real)

  const DistanceOutOfRange := "Error: distance_km must be between 0.1 and 100 km"

  predicate ValidDistance(distanceKm: real)
  {
    0.1 <= distanceKm <= 100.0
  }

  /** Credentials, then presence of both coordinates, latitude, longitude
      and `distance_km` (1.0 when absent); the first failure is returned. */
  function Validate(env: Env, args: Arguments): (r: Result<Query>)
    ensures r.Ok? <==>
      && Complete(ProcessCredentials(env))
      && CheckCoordinates(args.latitude, args.longitude).Ok?
      && ValidDistance(OrElse(args.distanceKm, 1.0))
    ensures !Complete(ProcessCredentials(env)) ==> r == Err(MissingCredentials)
    ensures Complete(ProcessCredentials(env)) && CheckCoordinates(args.latitude, args.longitude).Err? ==>
      r == Err(CheckCoordinates(args.latitude, args.longitude).message)
    ensures (Complete(ProcessCredentials(env)) && CheckCoordinates(args.latitude, args.longitude).Ok? &&
             !ValidDistance(OrElse(args.distanceKm, 1.0))) ==> r == Err(DistanceOutOfRange)
    ensures r.Ok? ==> r.value == Query(args.latitude.value, args.longitude.value, OrElse(args.distanceKm, 1.0))
  {
    if !Complete(ProcessCredentials(env)) then Err(MissingCredentials)
    else
      match CheckCoordinates(args.latitude, args.longitude)
      case Err(m) => Err(m)
      case Ok(p) =>
        var distanceKm := OrElse(args.distanceKm, 1.0);
        if distanceKm < 0.1 || distanceKm > 100.0 then Err(DistanceOutOfRange)
        else Ok(Query(p.latitude, p.longitude, distanceKm))
  }

  /** The block for the row at `index` (0-based). */
  function Entry(index: nat, row: Row, fmt: Printf): string
  {
    Title(index, row) + Details(row, fmt)
  }

  /** The numbered line naming the station; a missing NAZEV shows as 'N/A'. */
  function Title(index: nat, row: Row): string
  {
    Dec(index + 1) + ". " + OrElse(Field(row, "NAZEV"), "N/A") + "\n"
  }

  function Details(row: Row, fmt: Printf): string
  {
    "   Distance: " + FixedOrZero(fmt, Field(row, "distance_km"), 2) + " km\n" +
    "   Location: Lat " + FixedOrZero(fmt, Field(row, "LAT"), 4) + ", Lon " + FixedOrZero(fmt, Field(row, "LON"), 4) + "\n\n"
  }

  function Entries(rows: seq<Row>, fmt: Printf): (entries: seq<string>)
    ensures |entries| == |rows|
    ensures forall k :: 0 <= k < |rows| ==> entries[k] == Entry(k, rows[k], fmt)
  {
    seq(|rows|, k requires 0 <= k < |rows| => Entry(k, rows[k], fmt))
  }

  function Header(q: Query, count: nat, fmt: Printf): string
  {
    Count(count) + Where(q, fmt)
  }

  function Count(count: nat): string
  {
    "Found " + Dec(count) + " weather station(s)"
  }

  function Where(q: Query, fmt: Printf): string
  {
    " within " + fmt.fixed(q.distanceKm, 1) + " km of (" + fmt.fixed(q.latitude, 4) + ", " + fmt.fixed(q.longitude, 4) + "):\n\n"
  }

  function NoData(q: Query, fmt: Printf): string
  {
    "No weather stations found within " + fmt.fixed(q.distanceKm, 1) + " km of coordinates (" +
    fmt.fixed(q.latitude, 4) + ", " + fmt.fixed(q.longitude, 4) + ")."
  }

  function Report(q: Query, rows: seq<Row>, fmt: Printf): string
  {
    if |rows| == 0 then NoData(q, fmt) else Header(q, |rows|, fmt) + Concat(Entries(rows, fmt))
  }

  /** `execute` as a whole. */
  function Run(env: Env, args: Arguments, db: Query -> Fetch, fmt: Printf): string
  {
    match Validate(env, args)
    case Err(message) => message
    case Ok(q) =>
      match db(q)
      case Rows(rows) => Report(q, rows, fmt)
      case _ => FailureText(db(q))
  }

  /** `execute`, with the `foreach` that appends one block per station. */
  method Execute(env: Env, args: Arguments, db: Query -> Fetch, fmt: Printf) returns (out: string)
    ensures out == Run(env, args, db, fmt)
  {
    var checked := Validate(env, args);
    if checked.Err? {
      return checked.message;
    }
    var q := checked.value;
    var fetched := db(q);
    if !fetched.Rows? {
      return FailureText(fetched);
    }
    out := WriteReport(q, fetched.rows, fmt);
  }

  /** The report part of `execute`: the header, then one block per row. */
  method WriteReport(q: Query, rows: seq<Row>, fmt: Printf) returns (out: string)
    ensures out == Report(q, rows, fmt)
  {
    if |rows| == 0 {
      return NoData(q, fmt);
    }
    var header := Header(q, |rows|, fmt);
    ghost var entries := Entries(rows, fmt);
    out := header;
    var i := 0;
    while i < |rows|
      invariant 0 <= i <= |rows|
      invariant out == header + Concat(entries[..i])
    {
      ConcatStep(header, entries, i);
      out := out + Entry(i, rows[i], fmt);
      i := i + 1;
    }
    assert entries[..|rows|] == entries;
  }

  /** A failed check returns its message whatever `db` would answer. */
  lemma RejectedWithoutQuery(env: Env, args: Arguments, db1: Query -> Fetch, db2: Query -> Fetch, fmt: Printf)
    requires Validate(env, args).Err?
    ensures Run(env, args, db1, fmt) == Run(env, args, db2, fmt) == Validate(env, args).message
  {
  }

  /** The query for accepted arguments: the given coordinates, within range,
      and a distance in [0.1, 100] that is 1.0 when absent. */
  lemma AcceptedQuery(env: Env, args: Arguments)
    requires Validate(env, args).Ok?
    ensures var q := Validate(env, args).value;
      && q.latitude == args.latitude.value && q.longitude == args.longitude.value
      && -90.0 <= q.latitude <= 90.0 && -180.0 <= q.longitude <= 180.0
      && 0.1 <= q.distanceKm <= 100.0 && (args.distanceKm.None? ==> q.distanceKm == 1.0)
  {
  }

  /** For rows, the report opens with their count and holds one block per
      row in row order; block k is numbered k + 1 and names the station. */
  lemma ReportBlocks(q: Query, rows: seq<Row>, fmt: Printf, k: nat)
    requires k < |rows|
    ensures var entries := Entries(rows, fmt);
      && StartsWith(Report(q, rows, fmt), "Found " + Dec(|rows|) + " weather station(s)")
      && Report(q, rows, fmt) == Header(q, |rows|, fmt) + (Concat(entries[..k]) + entries[k] + Concat(entries[k + 1..]))
      && StartsWith(entries[k], Dec(k + 1) + ". " + OrElse(Field(rows[k], "NAZEV"), "N/A") + "\n")
  {
    var entries := Entries(rows, fmt);
    ConcatAt(entries, k);
    AppendAssoc(Count(|rows|), Where(q, fmt), Concat(entries));
    StartsWithAppend(Count(|rows|), Where(q, fmt) + Concat(entries));
    StartsWithAppend(Title(k, rows[k]), Details(rows[k], fmt));
  }

  /** No rows give the no-stations text. */
  lemma NoRowsNoBlocks(q: Query, fmt: Printf)
    ensures Report(q, [], fmt) == NoData(q, fmt)
    ensures StartsWith(Report(q, [], fmt), "No weather stations found within ")
  {
    var lead := "No weather stations found within ";
    var rest := fmt.fixed(q.distanceKm, 1) + " km of coordinates (" +
      fmt.fixed(q.latitude, 4) + ", " + fmt.fixed(q.longitude, 4) + ").";
    assert NoData(q, fmt) == lead + rest;
    StartsWithAppend(lead, rest);
  }
}
