/** The `get_location_sentiment` tool: sentiment records of one kind
    (good, bad or neutral) within a radius of a point. The query is the
    collaborator `db`. */
module SentimentDataTool {
  import opened Php
  import opened Text
  import opened Postgres

  datatype Arguments = Arguments(latitude: Option<real>, longitude: Option<real>, sentimentType: Option<string>, radiusKm: Option<real>)

  /** The values bound to the prepared statement. */
  datatype Query = Query(latitude: real, longitude: real, sentimentType: string, radiusKm: real)

  const InvalidSentiment := "Error: sentiment_type must be either 'good', 'bad', or 'neutral'"
  const NegativeRadius := "Error: radius_km must be non-negative"

  predicate IsSentiment(s: string)
  {
    s == "good" || s == "bad" || s == "neutral"
  }

  /** `strtolower($sentiment_type ?? 'good')`. */
  function SentimentType(sentimentType: Option<string>): (s: string)
    ensures sentimentType.None? ==> s == "good"
    ensures sentimentType.Some? ==> s == Lower(sentimentType.value)
    ensures NoUpper(s)
  {
    LowerFixesLowercase(OrElse(sentimentType, "good"));
    assert NoUpper("good");
    Lower(OrElse(sentimentType, "good"))
  }

  /** Credentials, presence of both coordinates, latitude, longitude, the
      lower-cased sentiment, then the radius; the first failure is returned. */
  function Validate(env: Env, args: Arguments): (r: Result<Query>)
    ensures r.Ok? <==>
      && Complete(ProcessCredentials(env))
      && CheckCoordinates(args.latitude, args.longitude).Ok?
      && IsSentiment(SentimentType(args.sentimentType))
      && OrElse(args.radiusKm, 1.0) >= 0.0
    ensures !Complete(ProcessCredentials(env)) ==> r == Err(MissingCredentials)
    ensures Complete(ProcessCredentials(env)) && CheckCoordinates(args.latitude, args.longitude).Err? ==>
      r == Err(CheckCoordinates(args.latitude, args.longitude).message)
    ensures (Complete(ProcessCredentials(env)) && CheckCoordinates(args.latitude, args.longitude).Ok? &&
             !IsSentiment(SentimentType(args.sentimentType))) ==> r == Err(InvalidSentiment)
    ensures (Complete(ProcessCredentials(env)) && CheckCoordinates(args.latitude, args.longitude).Ok? &&
             IsSentiment(SentimentType(args.sentimentType)) && OrElse(args.radiusKm, 1.0) < 0.0) ==> r == Err(NegativeRadius)
    ensures r.Ok? ==>
      r.value == Query(args.latitude.value, args.longitude.value, SentimentType(args.sentimentType), OrElse(args.radiusKm, 1.0))
  {
    if !Complete(ProcessCredentials(env)) then Err(MissingCredentials)
    else
      match CheckCoordinates(args.latitude, args.longitude)
      case Err(m) => Err(m)
      case Ok(p) =>
        var sentimentType := SentimentType(args.sentimentType);
        var radiusKm := OrElse(args.radiusKm, 1.0);
        if !IsSentiment(sentimentType) then Err(InvalidSentiment)
        else if radiusKm < 0.0 then Err(NegativeRadius)
        else Ok(Query(p.latitude, p.longitude, sentimentType, radiusKm))
  }

  /** The block for the row at `index` (0-based). */
  function Entry(index: nat, row: Row, fmt: Printf): string
  {
    Title(index, row) + Details(row, fmt)
  }

  function Title(index: nat, row: Row): string
  {
    "Record #" + Dec(index + 1) + " (Feature ID: " + OrElse(Field(row, "feature_id"), "N/A") + ")\n"
  }

  /** Name, URL and comments that are missing, `""` or `"0"` show as
      placeholders; the other fields show 'N/A' only when missing. */
  function Details(row: Row, fmt: Printf): string
  {
    "  Distance: " + FixedOrZero(fmt, Field(row, "distance_km"), 2) + " km\n" +
    "  Location: Lat " + FixedOrZero(fmt, Field(row, "lat"), 4) + ", Lon " + FixedOrZero(fmt, Field(row, "long"), 4) + "\n" +
    "  Name: " + NonEmptyOr(Field(row, "name"), "(No name)") + "\n" +
    "  URL: " + NonEmptyOr(Field(row, "url"), "(No URL)") + "\n" +
    "  Sentiment: " + OrElse(Field(row, "class"), "N/A") + "\n" +
    "  DateTime: " + OrElse(Field(row, "datetime"), "N/A") + "\n" +
    "  Start Time: " + OrElse(Field(row, "starttime_converted"), "N/A") + "\n" +
    "  Comments: " + NonEmptyOr(Field(row, "comments"), "(No comments)") + "\n\n"
  }

  function Entries(rows: seq<Row>, fmt: Printf): (entries: seq<string>)
    ensures |entries| == |rows|
    ensures forall k :: 0 <= k < |rows| ==> entries[k] == Entry(k, rows[k], fmt)
  {
    seq(|rows|, k requires 0 <= k < |rows| => Entry(k, rows[k], fmt))
  }

  function Header(q: Query, count: nat, fmt: Printf): string
  {
    Count(q, count) + Where(q, fmt)
  }

  function Count(q: Query, count: nat): string
  {
    "Found " + Dec(count) + " " + q.sentimentType + " sentiment record(s)"
  }

  function Where(q: Query, fmt: Printf): string
  {
    " within " + fmt.fixed(q.radiusKm, 1) + " km of (" + fmt.fixed(q.latitude, 4) + ", " + fmt.fixed(q.longitude, 4) + "):\n\n"
  }

  function NoData(q: Query, fmt: Printf): string
  {
    "No " + q.sentimentType + " sentiment data found within " + fmt.fixed(q.radiusKm, 1) + " km of coordinates (" +
    fmt.fixed(q.latitude, 4) + ", " + fmt.fixed(q.longitude, 4) + ")."
  }

  function Report(q: Query, rows: seq<Row>, fmt: Printf): string
  {
    if |rows| == 0 then NoData(q, fmt) else Header(q, |rows|, fmt) + Concat(Entries(rows, fmt))
  }

  /** `execute` as a whole. */
  function Run(env: Env, args: Arguments, db: Query -> Fetch, fmt: Printf): string
  {
    match Validate(env, args)
    case Err(message) => message
    case Ok(q) =>
      match db(q)
      case Rows(rows) => Report(q, rows, fmt)
      case _ => FailureText(db(q))
  }

  /** `execute`, with the `foreach` that appends one block per record. */
  method Execute(env: Env, args: Arguments, db: Query -> Fetch, fmt: Printf) returns (out: string)
    ensures out == Run(env, args, db, fmt)
  {
    var checked := Validate(env, args);
    if checked.Err? {
      return checked.message;
    }
    var q := checked.value;
    var fetched := db(q);
    if !fetched.Rows? {
      return FailureText(fetched);
    }
    out := WriteReport(q, fetched.rows, fmt);
  }

  /** The report part of `execute`: the header, then one block per row. */
  method WriteReport(q: Query, rows: seq<Row>, fmt: Printf) returns (out: string)
    ensures out == Report(q, rows, fmt)
  {
    if |rows| == 0 {
      return NoData(q, fmt);
    }
    var header := Header(q, |rows|, fmt);
    ghost var entries := Entries(rows, fmt);
    out := header;
    var i := 0;
    while i < |rows|
      invariant 0 <= i <= |rows|
      invariant out == header + Concat(entries[..i])
    {
      ConcatStep(header, entries, i);
      out := out + Entry(i, rows[i], fmt);
      i := i + 1;
    }
    assert entries[..|rows|] == entries;
  }

  /** A failed check returns its message whatever `db` would answer. */
  lemma RejectedWithoutQuery(env: Env, args: Arguments, db1: Query -> Fetch, db2: Query -> Fetch, fmt: Printf)
    requires Validate(env, args).Err?
    ensures Run(env, args, db1, fmt) == Run(env, args, db2, fmt) == Validate(env, args).message
  {
  }

  /** The sentiment queried is one of the three, in lower case; a radius of
      0 is accepted. */
  lemma AcceptedQuery(env: Env, args: Arguments)
    requires Validate(env, args).Ok?
    ensures var q := Validate(env, args).value;
      && IsSentiment(q.sentimentType) && NoUpper(q.sentimentType)
      && (args.sentimentType.None? ==> q.sentimentType == "good")
      && q.radiusKm >= 0.0 && (args.radiusKm.None? ==> q.radiusKm == 1.0)
  {
  }

  /** Upper-case spellings are accepted: "GOOD" queries "good". */
  lemma UpperCaseAccepted(env: Env, latitude: real, longitude: real)
    requires Complete(ProcessCredentials(env)) && ValidLatitude(latitude) && ValidLongitude(longitude)
    ensures Validate(env, Arguments(Some(latitude), Some(longitude), Some("GOOD"), None)) ==
      Ok(Query(latitude, longitude, "good", 1.0))
  {
    var s := Lower("GOOD");
    assert s[0] == 'g' && s[1] == 'o' && s[2] == 'o' && s[3] == 'd';
    assert s == "good";
  }

  /** For rows, the report opens with their count and the sentiment, and
      holds one block per row in row order, block k numbered k + 1. */
  lemma ReportBlocks(q: Query, rows: seq<Row>, fmt: Printf, k: nat)
    requires k < |rows|
    ensures var entries := Entries(rows, fmt);
      && StartsWith(Report(q, rows, fmt), "Found " + Dec(|rows|) + " " + q.sentimentType + " sentiment record(s)")
      && Report(q, rows, fmt) == Header(q, |rows|, fmt) + (Concat(entries[..k]) + entries[k] + Concat(entries[k + 1..]))
      && StartsWith(entries[k], "Record #" + Dec(k + 1) + " (Feature ID: " + OrElse(Field(rows[k], "feature_id"), "N/A") + ")\n")
  {
    var entries := Entries(rows, fmt);
    ConcatAt(entries, k);
    AppendAssoc(Count(q, |rows|), Where(q, fmt), Concat(entries));
    StartsWithAppend(Count(q, |rows|), Where(q, fmt) + Concat(entries));
    StartsWithAppend(Title(k, rows[k]), Details(rows[k], fmt));
  }

  /** Block k in full: the record number and feature id, the fields in the
      order of the format string, and a placeholder for a name, URL or
      comments that is missing, `""` or `"0"`. */
  lemma EntryText(rows: seq<Row>, fmt: Printf, k: nat)
    requires k < |rows|
    ensures var row := rows[k];
      Entries(rows, fmt)[k] ==
        ("Record #" + Dec(k + 1) + " (Feature ID: " + OrElse(Field(row, "feature_id"), "N/A") + ")\n") +
        ("  Distance: " + FixedOrZero(fmt, Field(row, "distance_km"), 2) + " km\n" +
        "  Location: Lat " + FixedOrZero(fmt, Field(row, "lat"), 4) + ", Lon " + FixedOrZero(fmt, Field(row, "long"), 4) + "\n" +
        "  Name: " + (if Empty(Field(row, "name")) then "(No name)" else Field(row, "name").value) + "\n" +
        "  URL: " + (if Empty(Field(row, "url")) then "(No URL)" else Field(row, "url").value) + "\n" +
        "  Sentiment: " + OrElse(Field(row, "class"), "N/A") + "\n" +
        "  DateTime: " + OrElse(Field(row, "datetime"), "N/A") + "\n" +
        "  Start Time: " + OrElse(Field(row, "starttime_converted"), "N/A") + "\n" +
        "  Comments: " + (if Empty(Field(row, "comments")) then "(No comments)" else Field(row, "comments").value) + "\n\n")
  {
  }

  /** No rows give the no-data text naming the sentiment. */
  lemma NoRowsNoBlocks(q: Query, fmt: Printf)
    ensures Report(q, [], fmt) == NoData(q, fmt)
    ensures StartsWith(Report(q, [], fmt), "No " + q.sentimentType + " sentiment data found within ")
  {
    var lead := "No " + q.sentimentType + " sentiment data found within ";
    var rest := fmt.fixed(q.radiusKm, 1) + " km of coordinates (" +
      fmt.fixed(q.latitude, 4) + ", " + fmt.fixed(q.longitude, 4) + ").";
    assert NoData(q, fmt) == lead + rest;
    StartsWithAppend(lead, rest);
  }
}
