/** The `list_olomouc_datasets` tool: the datasets of the `collections-cleaned`
    table, each with those of its eleven descriptive fields that are set.
    The query is the collaborator `db`. */
module ListDatasetsTool {
  import opened Php
  import opened Text
  import opened Postgres

  datatype Arguments = Arguments(limit: Option<int>)

  /** The value bound to the prepared statement. */
  datatype Query = Query(limit: int)

  /** `max($limit ?? 50, 1)`: at least 1, with no upper bound. */
  function Limit(limit: Option<int>): (n: int)
    ensures n >= 1
    ensures limit.None? ==> n == 50
    ensures limit.Some? && limit.value >= 1 ==> n == limit.value
    ensures limit.Some? && limit.value < 1 ==> n == 1
  {
    Max(OrElse(limit, 50), 1)
  }

  /** Only the credentials are checked; every limit is usable. */
  function Validate(env: Env, args: Arguments): (r: Result<Query>)
    ensures r.Ok? <==> Complete(ProcessCredentials(env))
    ensures r.Err? ==> r.message == MissingCredentials
    ensures r.Ok? ==> r.value == Query(Limit(args.limit))
  {
    if !Complete(ProcessCredentials(env)) then Err(MissingCredentials) else Ok(Query(Limit(args.limit)))
  }

  /** The fields a dataset block may list, in order: label and column. */
  const DatasetFields: seq<(string, string)> := [
    ("Title", "title"), ("Type", "type"), ("Description", "description"), ("URL", "url"),
    ("Owner", "owner"), ("Source", "source"), ("Categories", "categories"), ("Tags", "tags"),
    ("Access", "access"), ("Field Definitions", "fields"), ("Sample Data", "sample_data")]

  /** The line for one field: present exactly when the field is not empty
      (missing, null, `""` and `"0"` are empty). */
  function FieldLine(row: Row, caption: string, key: string): (line: string)
    ensures line == "" <==> Empty(Field(row, key))
    ensures line != "" ==> StartsWith(line, "  " + caption + ": ") && EndsWith(line, "\n")
  {
    if Empty(Field(row, key)) then ""
    else
      var value := Field(row, key).value;
      var line := "  " + caption + ": " + value + "\n";
      StartsWithAppend("  " + caption + ": ", value + "\n");
      EndsWithAppend("  " + caption + ": " + value, "\n");
      line
  }

  /** The lines for the fields of a table, in table order. */
  function Listing(row: Row, fields: seq<(string, string)>): string
  {
    if fields == [] then ""
    else
      var last := fields[|fields| - 1];
      Listing(row, fields[..|fields| - 1]) + FieldLine(row, last.0, last.1)
  }

  function Title(index: nat): string
  {
    "Dataset #" + Dec(index + 1) + ":\n"
  }

  /** The block for the row at `index` (0-based): title, field lines, blank line. */
  function Entry(index: nat, row: Row): string
  {
    Title(index) + Listing(row, DatasetFields) + "\n"
  }

  function Entries(rows: seq<Row>): (entries: seq<string>)
    ensures |entries| == |rows|
    ensures forall k :: 0 <= k < |rows| ==> entries[k] == Entry(k, rows[k])
  {
    seq(|rows|, k requires 0 <= k < |rows| => Entry(k, rows[k]))
  }

  function Count(count: nat): string
  {
    "Found " + Dec(count) + " dataset(s)"
  }

  function Header(count: nat): string
  {
    Count(count) + " from Olomouc Region:\n\n"
  }

  const NoData := "No datasets found in the collections-cleaned table."

  function Report(rows: seq<Row>): string
  {
    if |rows| == 0 then NoData else Header(|rows|) + Concat(Entries(rows))
  }

  /** `execute` as a whole. */
  function Run(env: Env, args: Arguments, db: Query -> Fetch): string
  {
    match Validate(env, args)
    case Err(message) => message
    case Ok(q) =>
      match db(q)
      case Rows(rows) => Report(rows)
      case _ => FailureText(db(q))
  }

  /** `execute`: the checks, the query, then `WriteReport`. */
  method Execute(env: Env, args: Arguments, db: Query -> Fetch) returns (out: string)
    ensures out == Run(env, args, db)
  {
    var checked := Validate(env, args);
    if checked.Err? {
      return checked.message;
    }
    var fetched := db(checked.value);
    if !fetched.Rows? {
      return FailureText(fetched);
    }
    out := WriteReport(fetched.rows);
  }

  /** The report part of `execute`: the outer `foreach` over the rows, and
      for each row the eleven conditional appends, walked here as a loop
      over the field table. */
  method WriteReport(rows: seq<Row>) returns (out: string)
    ensures out == Report(rows)
  {
    if |rows| == 0 {
      return NoData;
    }
    var header := Header(|rows|);
    ghost var entries := Entries(rows);
    out := header;
    var i := 0;
    while i < |rows|
      invariant 0 <= i <= |rows|
      invariant out == header + Concat(entries[..i])
    {
      ghost var before := out;
      var row := rows[i];
      out := out + Title(i);
      ghost var started := out;
      var j := 0;
      while j < |DatasetFields|
        invariant 0 <= j <= |DatasetFields|
        invariant out == started + Listing(row, DatasetFields[..j])
      {
        var caption, key := DatasetFields[j].0, DatasetFields[j].1;
        ghost var line := FieldLine(row, caption, key);
        if !Empty(Field(row, key)) {
          out := out + ("  " + caption + ": " + Field(row, key).value + "\n");
        }
        ListingStep(started, row, DatasetFields, j);
        j := j + 1;
      }
      assert DatasetFields[..|DatasetFields|] == DatasetFields;
      out := out + "\n";
      EntryStep(before, i, row);
      ConcatStep(header, entries, i);
      i := i + 1;
    }
    assert entries[..|rows|] == entries;
  }

  lemma ListingStep(prefix: string, row: Row, fields: seq<(string, string)>, j: nat)
    requires j < |fields|
    ensures prefix + Listing(row, fields[..j]) + FieldLine(row, fields[j].0, fields[j].1) == prefix + Listing(row, fields[..j + 1])
  {
    assert fields[..j + 1][..j] == fields[..j];
    AppendAssoc(prefix, Listing(row, fields[..j]), FieldLine(row, fields[j].0, fields[j].1));
  }

  lemma EntryStep(prefix: string, index: nat, row: Row)
    ensures prefix + Title(index) + Listing(row, DatasetFields) + "\n" == prefix + Entry(index, row)
  {
    var t, l := Title(index), Listing(row, DatasetFields);
    AppendAssoc(prefix, t, l);
    AppendAssoc(prefix, t + l, "\n");
  }

  /** A failed check returns its message whatever `db` would answer. */
  lemma RejectedWithoutQuery(env: Env, args: Arguments, db1: Query -> Fetch, db2: Query -> Fetch)
    requires Validate(env, args).Err?
    ensures Run(env, args, db1) == Run(env, args, db2) == MissingCredentials
  {
  }

  /** The listing is empty exactly when every one of its fields is empty. */
  lemma {:induction false} ListingEmpty(row: Row, fields: seq<(string, string)>)
    ensures Listing(row, fields) == "" <==> forall j :: 0 <= j < |fields| ==> Empty(Field(row, fields[j].1))
  {
    if fields != [] {
      var init := fields[..|fields| - 1];
      ListingEmpty(row, init);
      assert forall j :: 0 <= j < |init| ==> init[j] == fields[j];
    }
  }

  /** A non-empty listing ends with a line break. */
  lemma {:induction false} ListingEndsWithBreak(row: Row, fields: seq<(string, string)>)
    ensures Listing(row, fields) == "" || EndsWith(Listing(row, fields), "\n")
  {
    if fields != [] {
      var last := fields[|fields| - 1];
      ListingEndsWithBreak(row, fields[..|fields| - 1]);
      var init, line := Listing(row, fields[..|fields| - 1]), FieldLine(row, last.0, last.1);
      if line == "" {
        assert init + line == init;
      } else {
        var l := |init + line|;
        assert (init + line)[l - 1..] == line[|line| - 1..];
      }
    }
  }

  /** The lines of the first m fields are a prefix of the lines of all of them. */
  lemma {:induction false} ListingPrefix(row: Row, fields: seq<(string, string)>, m: nat)
    requires m <= |fields|
    ensures StartsWith(Listing(row, fields), Listing(row, fields[..m]))
  {
    if m == |fields| {
      assert fields[..m] == fields;
    } else {
      var init := fields[..|fields| - 1];
      var last := fields[|fields| - 1];
      ListingPrefix(row, init, m);
      assert init[..m] == fields[..m];
      var shorter := Listing(row, init);
      assert (shorter + FieldLine(row, last.0, last.1))[..|Listing(row, fields[..m])|] == shorter[..|Listing(row, fields[..m])|];
    }
  }

  /** Field j's line comes right after the lines of fields 0..j-1, so the
      lines keep the order of the table. */
  lemma ListingOrder(row: Row, fields: seq<(string, string)>, j: nat)
    requires j < |fields|
    ensures StartsWith(Listing(row, fields), Listing(row, fields[..j]) + FieldLine(row, fields[j].0, fields[j].1))
  {
    ListingPrefix(row, fields, j + 1);
    ListingStep("", row, fields, j);
    assert "" + Listing(row, fields[..j]) == Listing(row, fields[..j]);
    assert "" + Listing(row, fields[..j + 1]) == Listing(row, fields[..j + 1]);
  }

  /** Every block opens with its numbered title and ends with a blank line;
      a dataset with no field set is the title alone followed by that blank line. */
  lemma EntryShape(index: nat, row: Row)
    ensures StartsWith(Entry(index, row), Title(index))
    ensures EndsWith(Entry(index, row), "\n\n")
    ensures (forall j :: 0 <= j < |DatasetFields| ==> Empty(Field(row, DatasetFields[j].1))) ==>
      Entry(index, row) == Title(index) + "\n"
  {
    var l := Listing(row, DatasetFields);
    ListingEndsWithBreak(row, DatasetFields);
    ListingEmpty(row, DatasetFields);
    TitleEndsWithBreak(index);
    BlockShape(Title(index), l);
  }

  lemma TitleEndsWithBreak(index: nat)
    ensures EndsWith(Title(index), "\n")
  {
    EndsWithAppend("Dataset #" + Dec(index + 1) + ":", "\n");
  }

  /** A title line, then lines, then a blank line. */
  lemma BlockShape(t: string, l: string)
    requires EndsWith(t, "\n")
    requires l == "" || EndsWith(l, "\n")
    ensures StartsWith(t + l + "\n", t)
    ensures EndsWith(t + l + "\n", "\n\n")
    ensures l == "" ==> t + l + "\n" == t + "\n"
  {
    var e := t + l + "\n";
    AppendAssoc(t, l, "\n");
    StartsWithAppend(t, l + "\n");
    if l == "" {
      assert t + l == t;
      assert e[|e| - 2..] == [t[|t| - 1], '\n'];
    } else {
      assert e[|e| - 2..] == [l[|l| - 1], '\n'];
    }
  }

  /** For rows, the report opens with their count and holds one block per
      row in row order. */
  lemma ReportBlocks(rows: seq<Row>, k: nat)
    requires k < |rows|
    ensures var entries := Entries(rows);
      && StartsWith(Report(rows), "Found " + Dec(|rows|) + " dataset(s)")
      && Report(rows) == Header(|rows|) + (Concat(entries[..k]) + entries[k] + Concat(entries[k + 1..]))
  {
    var entries := Entries(rows);
    ConcatAt(entries, k);
    var lead := Count(|rows|);
    AppendAssoc(lead, " from Olomouc Region:\n\n", Concat(entries));
    StartsWithAppend(lead, " from Olomouc Region:\n\n" + Concat(entries));
  }
}
