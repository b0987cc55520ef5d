/** The `get-weather` tool: a simulated report for a city. The random
    choices (`array_rand` and three `rand` calls) are inputs of the model. */
module WeatherTool {
  import opened Php
  import opened Text

  datatype Arguments = Arguments(city: Option<string>, units: Option<string>)

  /** The four random draws, within the ranges the tool draws them from. */
  datatype Draws = Draws(condition: nat, baseTemp: int, humidity: int, windSpeed: int)

  predicate ValidDraws(d: Draws)
  {
    d.condition < 5 && 15 <= d.baseTemp <= 30 && 40 <= d.humidity <= 90 && 5 <= d.windSpeed <= 25
  }

  const Conditions: seq<string> := ["Sunny", "Cloudy", "Rainy", "Partly Cloudy", "Stormy"]

  /** The closing line, "(Note: This is simulated data for demonstration
      purposes)", held in short pieces: the verifier sees that short
      literals hold no line break, but not a long one. */
  const NoteLine := "(Note: This " + "is simulated " + "data for " + "demonstration " + "purposes)"

  /** The temperature shown and its unit: converted to Fahrenheit exactly
      when the units are `"fahrenheit"`, otherwise the Celsius draw. */
  function Temperature(units: string, baseTemp: int): (r: (real, string))
    ensures units == "fahrenheit" ==> (r.0 - 32.0) * 5.0 / 9.0 == baseTemp as real && r.1 == "\U{B0}F"
    ensures units != "fahrenheit" ==> r.0 == baseTemp as real && r.1 == "\U{B0}C"
  {
    if units == "fahrenheit" then ((baseTemp * 9) as real / 5.0 + 32.0, "\U{B0}F")
    else (baseTemp as real, "\U{B0}C")
  }

  /** The report lines, in order. */
  function Lines(city: string, condition: string, temperature: string, humidity: nat, windSpeed: nat): seq<string>
  {
    ["Weather for " + city + ":",
     "Condition: " + condition,
     "Temperature: " + temperature,
     "Humidity: " + Dec(humidity) + "%",
     "Wind Speed: " + Dec(windSpeed) + " km/h",
     "",
     NoteLine]
  }

  /** `execute`: the city defaults to "Unknown" and the units to
      "celsius"; `fmt.fixed` is `%.1f`. The report is the seven lines
      joined by line breaks. */
  function Execute(args: Arguments, draws: Draws, fmt: Printf): (out: string)
    requires ValidDraws(draws)
    ensures var (t, unit) := Temperature(OrElse(args.units, "celsius"), draws.baseTemp);
      out == Join(Lines(OrElse(args.city, "Unknown"), Conditions[draws.condition], fmt.fixed(t, 1) + unit, draws.humidity, draws.windSpeed), "\n")
  {
    var city := OrElse(args.city, "Unknown");
    var units := OrElse(args.units, "celsius");
    var (temperature, unit) := Temperature(units, draws.baseTemp);
    JoinSeven(Lines(city, Conditions[draws.condition], fmt.fixed(temperature, 1) + unit, draws.humidity, draws.windSpeed));
    ("Weather for " + city + ":") + "\n" +
    ("Condition: " + Conditions[draws.condition]) + "\n" +
    ("Temperature: " + (fmt.fixed(temperature, 1) + unit)) + "\n" +
    ("Humidity: " + Dec(draws.humidity) + "%") + "\n" +
    ("Wind Speed: " + Dec(draws.windSpeed) + " km/h") + "\n" +
    "" + "\n" + NoteLine
  }

  /** The Fahrenheit reading of a draw in [15, 30] lies in [59, 86]; the
      Celsius one is the draw. */
  lemma TemperatureBounds(units: string, baseTemp: int)
    requires 15 <= baseTemp <= 30
    ensures var (t, _) := Temperature(units, baseTemp);
      units == "fahrenheit" ==> 59.0 <= t <= 86.0
    ensures var (t, _) := Temperature(units, baseTemp);
      units != "fahrenheit" ==> 15.0 <= t <= 30.0
  {
  }

  /** Only the exact string "fahrenheit" converts: a missing unit, "celsius",
      or "Fahrenheit" all leave the Celsius value. */
  lemma UnitsDefault(baseTemp: int)
    ensures Temperature(OrElse(None, "celsius"), baseTemp) == (baseTemp as real, "\U{B0}C")
    ensures Temperature("Fahrenheit", baseTemp) == (baseTemp as real, "\U{B0}C")
  {
  }

  /** Provided the city and the formatted temperature contain no line
      break, the report's lines are exactly the seven lines above: it names
      the city (defaulting to "Unknown"), one of the five conditions, the
      temperature with its unit, humidity and wind as printed counts, a
      blank line and the simulated-data note. */
  lemma ReportLines(args: Arguments, draws: Draws, fmt: Printf)
    requires ValidDraws(draws)
    requires var (t, _) := Temperature(OrElse(args.units, "celsius"), draws.baseTemp);
      '\n' !in OrElse(args.city, "Unknown") && '\n' !in fmt.fixed(t, 1)
    ensures var (t, unit) := Temperature(OrElse(args.units, "celsius"), draws.baseTemp);
      SplitOn(Execute(args, draws, fmt), '\n') ==
        Lines(OrElse(args.city, "Unknown"), Conditions[draws.condition], fmt.fixed(t, 1) + unit, draws.humidity, draws.windSpeed)
  {
    var city := OrElse(args.city, "Unknown");
    var (t, unit) := Temperature(OrElse(args.units, "celsius"), draws.baseTemp);
    var lines := Lines(city, Conditions[draws.condition], fmt.fixed(t, 1) + unit, draws.humidity, draws.windSpeed);
    LinesHaveNoBreak(city, Conditions[draws.condition], fmt.fixed(t, 1) + unit, draws.humidity, draws.windSpeed);
    SplitJoin(lines, '\n');
  }

  /** Whatever the arguments and draws, the report ends with a blank line
      and the simulated-data note. */
  lemma ReportEndsWithNote(args: Arguments, draws: Draws, fmt: Printf)
    requires ValidDraws(draws)
    ensures EndsWith(Execute(args, draws, fmt), "\n" + NoteLine)
  {
    var out := Execute(args, draws, fmt);
    var city := OrElse(args.city, "Unknown");
    var (temperature, unit) := Temperature(OrElse(args.units, "celsius"), draws.baseTemp);
    var body :=
      ("Weather for " + city + ":") + "\n" +
      ("Condition: " + Conditions[draws.condition]) + "\n" +
      ("Temperature: " + (fmt.fixed(temperature, 1) + unit)) + "\n" +
      ("Humidity: " + Dec(draws.humidity) + "%") + "\n" +
      ("Wind Speed: " + Dec(draws.windSpeed) + " km/h") + "\n" + "";
    assert out == body + "\n" + NoteLine;
    AppendAssoc(body, "\n", NoteLine);
    EndsWithAppend(body, "\n" + NoteLine);
  }

  lemma JoinSeven(lines: seq<string>)
    requires |lines| == 7
    ensures Join(lines, "\n") ==
      lines[0] + "\n" + lines[1] + "\n" + lines[2] + "\n" + lines[3] + "\n" + lines[4] + "\n" + lines[5] + "\n" + lines[6]
  {
    var nl := "\n";
    assert lines[..2][..1] == [lines[0]];
    JoinSnoc(lines[..1], lines[1], nl);
    assert lines[..1] + [lines[1]] == lines[..2];
    JoinSnoc(lines[..2], lines[2], nl);
    assert lines[..2] + [lines[2]] == lines[..3];
    JoinSnoc(lines[..3], lines[3], nl);
    assert lines[..3] + [lines[3]] == lines[..4];
    JoinSnoc(lines[..4], lines[4], nl);
    assert lines[..4] + [lines[4]] == lines[..5];
    JoinSnoc(lines[..5], lines[5], nl);
    assert lines[..5] + [lines[5]] == lines[..6];
    JoinSnoc(lines[..6], lines[6], nl);
    assert lines[..6] + [lines[6]] == lines;
  }

  lemma LinesHaveNoBreak(city: string, condition: string, temperature: string, humidity: nat, windSpeed: nat)
    requires '\n' !in city && '\n' !in temperature && condition in Conditions
    ensures var lines := Lines(city, condition, temperature, humidity, windSpeed);
      forall i :: 0 <= i < |lines| ==> '\n' !in lines[i]
  {
    var lines := Lines(city, condition, temperature, humidity, windSpeed);
    DecHasNoBreak(humidity);
    DecHasNoBreak(windSpeed);
    assert '\n' !in condition by {
      var k :| 0 <= k < |Conditions| && Conditions[k] == condition;
      assert k == 0 || k == 1 || k == 2 || k == 3 || k == 4;
    }
    assert '\n' !in lines[0];
    assert '\n' !in lines[1];
    assert '\n' !in lines[2];
    assert '\n' !in lines[3];
    assert '\n' !in lines[4];
    assert '\n' !in lines[5];
    assert '\n' !in lines[6];
  }

  lemma DecHasNoBreak(n: nat)
    ensures '\n' !in Dec(n)
  {
    var d := Dec(n);
    forall i | 0 <= i < |d| ensures d[i] != '\n' {
      assert IsDigit(d[i]);
    }
  }
}
