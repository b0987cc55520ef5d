/** The `recent-traffic` tool: the latest intensity measurements of the
    traffic station nearest to a point. The query is the collaborator `db`. */
module RecentTrafficTool {
  import opened Php
  import opened Text
  import opened Postgres

  datatype Arguments = Arguments(latitude: Option<real>, longitude: Option<real>, limit: Option<int>)

  /** The values bound to the prepared statement. */
  datatype Query = Query(latitude: real, longitude: real, limit: int)

  /** `max($limit ?? 5, 1)`: at least 1, with no upper bound. */
  function Limit(limit: Option<int>): (n: int)
    ensures n >= 1
    ensures limit.None? ==> n == 5
    ensures limit.Some? && limit.value >= 1 ==> n == limit.value
    ensures limit.Some? && limit.value < 1 ==> n == 1
  {
    Max(OrElse(limit, 5), 1)
  }

  /** Unlike the other database tools, the arguments are checked first
      (presence, latitude, longitude) and the credentials after them. */
  function Validate(env: Env, args: Arguments): (r: Result<Query>)
    ensures r.Ok? <==> CheckCoordinates(args.latitude, args.longitude).Ok? && Complete(ProcessCredentials(env))
    ensures CheckCoordinates(args.latitude, args.longitude).Err? ==>
      r == Err(CheckCoordinates(args.latitude, args.longitude).message)
    ensures CheckCoordinates(args.latitude, args.longitude).Ok? && !Complete(ProcessCredentials(env)) ==>
      r == Err(MissingCredentials)
    ensures r.Ok? ==> r.value == Query(args.latitude.value, args.longitude.value, Limit(args.limit))
  {
    match CheckCoordinates(args.latitude, args.longitude)
    case Err(m) => Err(m)
    case Ok(p) =>
      if !Complete(ProcessCredentials(env)) then Err(MissingCredentials)
      else Ok(Query(p.latitude, p.longitude, Limit(args.limit)))
  }

  /** The measurement at `index` (0-based), numbered `index + 1`. */
  function Entry(index: nat, row: Row): string
  {
    Title(index, row) + Intensity(row)
  }

  function Intensity(row: Row): string
  {
    "   Intensity: " + OrElse(Field(row, "intensity"), "N/A") + "\n\n"
  }

  function Title(index: nat, row: Row): string
  {
    Dec(index + 1) + ". Time: " + OrElse(Field(row, "time"), "N/A") + "\n"
  }

  function Entries(rows: seq<Row>): (entries: seq<string>)
    ensures |entries| == |rows|
    ensures forall k :: 0 <= k < |rows| ==> entries[k] == Entry(k, rows[k])
  {
    seq(|rows|, k requires 0 <= k < |rows| => Entry(k, rows[k]))
  }

  /** The station lines, taken from the first row; a missing name shows as
      'Unknown' and missing coordinates print as 0. */
  function Station(first: Row, fmt: Printf): string
  {
    StationName(first) + StationLocation(first, fmt)
  }

  function StationName(first: Row): string
  {
    "Nearest traffic measurement station: " + OrElse(Field(first, "name"), "Unknown") + "\n"
  }

  function StationLocation(first: Row, fmt: Printf): string
  {
    "Station location: Lat " + FixedOrZero(fmt, Field(first, "lat"), 6) + ", Lon " + FixedOrZero(fmt, Field(first, "lon"), 6) + "\n"
  }

  function Searched(q: Query, fmt: Printf): string
  {
    "Searched near: Lat " + fmt.fixed(q.latitude, 6) + ", Lon " + fmt.fixed(q.longitude, 6) + "\n\n"
  }

  function Count(count: nat): string
  {
    Dec(count) + " most recent traffic intensity measurements:\n\n"
  }

  function Header(q: Query, first: Row, count: nat, fmt: Printf): string
  {
    Station(first, fmt) + (Searched(q, fmt) + Count(count))
  }

  function NoData(q: Query, fmt: Printf): string
  {
    "No traffic measurement data found near coordinates (" + fmt.fixed(q.latitude, 6) + ", " + fmt.fixed(q.longitude, 6) + ")."
  }

  function Report(q: Query, rows: seq<Row>, fmt: Printf): string
  {
    if |rows| == 0 then NoData(q, fmt) else Header(q, rows[0], |rows|, fmt) + Concat(Entries(rows))
  }

  /** `execute` as a whole. */
  function Run(env: Env, args: Arguments, db: Query -> Fetch, fmt: Printf): string
  {
    match Validate(env, args)
    case Err(message) => message
    case Ok(q) =>
      match db(q)
      case Rows(rows) => Report(q, rows, fmt)
      case _ => FailureText(db(q))
  }

  /** `execute`, with the `foreach` that appends one entry per measurement. */
  method Execute(env: Env, args: Arguments, db: Query -> Fetch, fmt: Printf) returns (out: string)
    ensures out == Run(env, args, db, fmt)
  {
    var checked := Validate(env, args);
    if checked.Err? {
      return checked.message;
    }
    var q := checked.value;
    var fetched := db(q);
    if !fetched.Rows? {
      return FailureText(fetched);
    }
    out := WriteReport(q, fetched.rows, fmt);
  }

  /** The report part of `execute`: the station and count header, then one
      block per row. */
  method WriteReport(q: Query, rows: seq<Row>, fmt: Printf) returns (out: string)
    ensures out == Report(q, rows, fmt)
  {
    if |rows| == 0 {
      return NoData(q, fmt);
    }
    var header := Header(q, rows[0], |rows|, fmt);
    ghost var entries := Entries(rows);
    out := header;
    var i := 0;
    while i < |rows|
      invariant 0 <= i <= |rows|
      invariant out == header + Concat(entries[..i])
    {
      ConcatStep(header, entries, i);
      out := out + Entry(i, rows[i]);
      i := i + 1;
    }
    assert entries[..|rows|] == entries;
  }

  /** A failed check returns its message whatever `db` would answer. */
  lemma RejectedWithoutQuery(env: Env, args: Arguments, db1: Query -> Fetch, db2: Query -> Fetch, fmt: Printf)
    requires Validate(env, args).Err?
    ensures Run(env, args, db1, fmt) == Run(env, args, db2, fmt) == Validate(env, args).message
  {
  }

  /** Missing coordinates are reported even when the credentials are
      missing too: the argument check comes first. */
  lemma ArgumentsBeforeCredentials(env: Env, args: Arguments)
    requires args.latitude.None? || args.longitude.None?
    ensures Validate(env, args) == Err(MissingCoordinates)
  {
  }

  /** For rows, the report opens with the first row's station and holds one entry per row in row order,
      entry k numbered k + 1. */
  lemma ReportBlocks(q: Query, rows: seq<Row>, fmt: Printf, k: nat)
    requires k < |rows|
    ensures var entries := Entries(rows);
      && StartsWith(Report(q, rows, fmt), "Nearest traffic measurement station: " + OrElse(Field(rows[0], "name"), "Unknown") + "\n")
      && Report(q, rows, fmt) == Header(q, rows[0], |rows|, fmt) + (Concat(entries[..k]) + entries[k] + Concat(entries[k + 1..]))
      && StartsWith(entries[k], Dec(k + 1) + ". Time: " + OrElse(Field(rows[k], "time"), "N/A") + "\n")
      && entries[k] == (Dec(k + 1) + ". Time: " + OrElse(Field(rows[k], "time"), "N/A") + "\n") +
                       ("   Intensity: " + OrElse(Field(rows[k], "intensity"), "N/A") + "\n\n")
  {
    var entries := Entries(rows);
    ConcatAt(entries, k);
    var first := rows[0];
    var rest := Searched(q, fmt) + Count(|rows|);
    AppendAssoc(StationName(first) + StationLocation(first, fmt), rest, Concat(entries));
    AppendAssoc(StationName(first), StationLocation(first, fmt), rest + Concat(entries));
    StartsWithAppend(StationName(first), StationLocation(first, fmt) + (rest + Concat(entries)));
    StartsWithAppend(Title(k, rows[k]), Intensity(rows[k]));
  }

  /** For rows, the header in full: the first row's station name and
      location, the searched point, and the number of measurements, which
      is the number of rows; the entries follow. */
  lemma ReportText(q: Query, rows: seq<Row>, fmt: Printf)
    requires |rows| > 0
    ensures var first := rows[0];
      Report(q, rows, fmt) ==
        (("Nearest traffic measurement station: " + OrElse(Field(first, "name"), "Unknown") + "\n") +
         ("Station location: Lat " + FixedOrZero(fmt, Field(first, "lat"), 6) + ", Lon " + FixedOrZero(fmt, Field(first, "lon"), 6) + "\n")) +
        (("Searched near: Lat " + fmt.fixed(q.latitude, 6) + ", Lon " + fmt.fixed(q.longitude, 6) + "\n\n") +
         (Dec(|rows|) + " most recent traffic intensity measurements:\n\n")) +
        Concat(Entries(rows))
  {
  }
}
