/** The `get-meteostanice-nazev` tool: the distinct station names of the Olomouc
    weather-station table as a bulleted list. It takes no arguments; the
    fixed query's outcome is the parameter `fetched`. */
module PostgresMeteoTool {
  import opened Php
  import opened Text
  import opened Postgres

  const Column := "NAZEV"

  /** `array_column($rows, 'NAZEV')`: the column's value from each row that
      has the column, null included, in row order. */
  function Values(rows: seq<Row>): (values: seq<Option<string>>)
    ensures |values| <= |rows|
  {
    if rows == [] then []
    else
      var init := Values(rows[..|rows| - 1]);
      var last := rows[|rows| - 1];
      if Column in last then init + [last[Column]] else init
  }

  /** One bullet: the value, or `(NULL)` for a null. */
  function Bullet(v: Option<string>): (line: string)
    ensures StartsWith(line, "- ")
    ensures v.None? ==> line == "- (NULL)"
    ensures v.Some? ==> line[2..] == v.value
  {
    var line := "- " + OrElse(v, "(NULL)");
    StartsWithAppend("- ", OrElse(v, "(NULL)"));
    line
  }

  function Bullets(values: seq<Option<string>>): (lines: seq<string>)
    ensures |lines| == |values|
    ensures forall k :: 0 <= k < |values| ==> lines[k] == Bullet(values[k])
  {
    seq(|values|, k requires 0 <= k < |values| => Bullet(values[k]))
  }

  /** The first line of a non-empty answer, without its line break. */
  function Lead(count: nat): string
  {
    "Found " + Dec(count) + " unique value(s) in the \"nazev\" column:"
  }

  const NoData := "No unique values found in the \"nazev\" column."

  function Report(rows: seq<Row>): string
  {
    if |rows| == 0 then NoData
    else
      var values := Values(rows);
      Lead(|values|) + "\n\n" + Join(Bullets(values), "\n")
  }

  /** `execute` as a whole. */
  function Execute(env: Env, fetched: Fetch): (out: string)
    ensures !Complete(SuperglobalCredentials(env)) ==> out == MissingCredentials
    ensures Complete(SuperglobalCredentials(env)) && fetched.Rows? ==> out == Report(fetched.rows)
    ensures Complete(SuperglobalCredentials(env)) && !fetched.Rows? ==> out == FailureText(fetched)
  {
    if !Complete(SuperglobalCredentials(env)) then MissingCredentials
    else if fetched.Rows? then Report(fetched.rows)
    else FailureText(fetched)
  }

  /** The credentials come from `$_ENV` alone: what `getenv` sees does not matter. */
  lemma ReadsSuperglobalOnly(env: Env, process: map<string, string>, fetched: Fetch)
    ensures Execute(env, fetched) == Execute(Env(process, env.superglobal), fetched)
  {
  }

  /** When every row has the column, there is one value per row, in row order. */
  lemma {:induction false} ValuesOfFullRows(rows: seq<Row>)
    requires forall k :: 0 <= k < |rows| ==> Column in rows[k]
    ensures |Values(rows)| == |rows|
    ensures forall k :: 0 <= k < |rows| ==> Values(rows)[k] == rows[k][Column]
  {
    if rows != [] {
      var init := rows[..|rows| - 1];
      ValuesOfFullRows(init);
    }
  }

  lemma {:induction false} LeadHasNoBreak(count: nat)
    ensures '\n' !in Lead(count)
  {
    var d := Dec(count);
    assert forall i :: 0 <= i < |d| ==> IsDigit(d[i]);
  }

  lemma JoinBlankFirst(bullets: seq<string>)
    requires |bullets| >= 1
    ensures Join([""] + bullets, "\n") == "\n" + Join(bullets, "\n")
  {
    JoinCons("", bullets, "\n");
  }

  lemma JoinAfterBlank(lead: string, bullets: seq<string>)
    requires |bullets| >= 1
    ensures Join([lead] + ([""] + bullets), "\n") == lead + "\n\n" + Join(bullets, "\n")
  {
    var j := Join(bullets, "\n");
    var rest := [""] + bullets;
    assert Join([lead] + rest, "\n") == lead + "\n" + ("\n" + j) by {
      JoinBlankFirst(bullets);
      JoinCons(lead, rest, "\n");
    }
    assert lead + "\n" + ("\n" + j) == lead + "\n\n" + j by {
      AppendAssoc(lead, "\n", "\n" + j);
      AppendAssoc("\n", "\n", j);
      assert "\n" + "\n" == "\n\n";
      AppendAssoc(lead, "\n\n", j);
    }
  }

  lemma BulletsHaveNoBreak(values: seq<Option<string>>)
    requires forall k :: 0 <= k < |values| ==> values[k].Some? ==> '\n' !in values[k].value
    ensures forall k :: 0 <= k < |values| ==> '\n' !in Bullets(values)[k]
  {
    forall k | 0 <= k < |values|
      ensures '\n' !in Bullets(values)[k]
    {
      assert Bullets(values)[k] == "- " + OrElse(values[k], "(NULL)");
    }
  }

  /** The answer's lines: the count line, a blank line, then one bullet per
      value in order, provided no value holds a line break. */
  lemma ReportLines(rows: seq<Row>)
    requires |Values(rows)| >= 1
    requires forall k :: 0 <= k < |Values(rows)| ==> Values(rows)[k].Some? ==> '\n' !in Values(rows)[k].value
    ensures SplitOn(Report(rows), '\n') == [Lead(|Values(rows)|), ""] + Bullets(Values(rows))
  {
    var values := Values(rows);
    LeadHasNoBreak(|values|);
    BulletsHaveNoBreak(values);
    ListLines(Lead(|values|), Bullets(values));
  }

  /** A line, a blank line, and lines joined by line breaks split back into those lines. */
  lemma ListLines(lead: string, bullets: seq<string>)
    requires |bullets| >= 1
    requires '\n' !in lead
    requires forall k :: 0 <= k < |bullets| ==> '\n' !in bullets[k]
    ensures SplitOn(lead + "\n\n" + Join(bullets, "\n"), '\n') == [lead, ""] + bullets
  {
    ListParts(lead, bullets);
    SplitJoin([lead, ""] + bullets, '\n');
  }

  lemma ListParts(lead: string, bullets: seq<string>)
    requires |bullets| >= 1
    requires '\n' !in lead
    requires forall k :: 0 <= k < |bullets| ==> '\n' !in bullets[k]
    ensures Join([lead, ""] + bullets, "\n") == lead + "\n\n" + Join(bullets, "\n")
    ensures forall i :: 0 <= i < |[lead, ""] + bullets| ==> '\n' !in ([lead, ""] + bullets)[i]
  {
    var parts := [lead, ""] + bullets;
    assert parts == [lead] + ([""] + bullets);
    JoinAfterBlank(lead, bullets);
    assert forall i :: 2 <= i < |parts| ==> parts[i] == bullets[i - 2];
  }

  /** The count in the first line is the number of values, and reads back as it. */
  lemma CountIsValues(rows: seq<Row>)
    requires |rows| >= 1
    ensures StartsWith(Report(rows), "Found " + Dec(|Values(rows)|))
    ensures DecValue(Dec(|Values(rows)|)) == |Values(rows)|
  {
    var values := Values(rows);
    var head := "Found " + Dec(|values|);
    var rest := " unique value(s) in the \"nazev\" column:";
    assert Report(rows) == head + (rest + "\n\n" + Join(Bullets(values), "\n"));
    StartsWithAppend(head, rest + "\n\n" + Join(Bullets(values), "\n"));
    DecRoundTrip(|values|);
  }
}
