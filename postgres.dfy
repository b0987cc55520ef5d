/** What the database-backed tools share: rows as fetched by PDO, the outcome
    of a query, the credential check and the latitude/longitude checks. Each
    tool repeats these lines in its own file; they are stated once here. */
module Postgres {
  import opened Php

  /** A row in PDO's associative fetch mode: column name to value, NULL as None. */
  type Row = map<string, Option<string>>

  /** `$row[$key]`, where a missing column reads as null. */
  function Field(row: Row, key: string): (v: Option<string>)
    ensures key !in row ==> v.None?
    ensures key in row ==> v == row[key]
  {
    if key in row then row[key] else None
  }

  /** What `$stmt->fetchAll()` yields, or the exception the try block catches. */
  datatype Fetch =
    | Rows(rows: seq<Row>)
    | PdoFailure(message: string, code: string)
    | OtherFailure(message: string)

  /** The text returned from the two catch blocks. */
  function FailureText(f: Fetch): (text: string)
    requires !f.Rows?
    ensures f.PdoFailure? ==> text == "Database Error: " + f.message + "\n\nError Code: " + f.code
    ensures f.OtherFailure? ==> text == "Unexpected Error: " + f.message
  {
    match f
    case PdoFailure(m, c) => "Database Error: " + m + "\n\nError Code: " + c
    case OtherFailure(m) => "Unexpected Error: " + m
  }

  /** Host, database and user name as a tool reads them; the port and the
      password are only passed on to the connection. */
  datatype Credentials = Credentials(host: string, database: string, username: string)

  /** Read with `getenv(...) ?: ''`. */
  function ProcessCredentials(env: Env): Credentials
  {
    Credentials(Getenv(env, "POSTGRES_HOST"), Getenv(env, "POSTGRES_DATABASE"), Getenv(env, "POSTGRES_USERNAME"))
  }

  /** Read with `$_ENV[...] ?? ''`. */
  function SuperglobalCredentials(env: Env): Credentials
  {
    Credentials(EnvVar(env, "POSTGRES_HOST"), EnvVar(env, "POSTGRES_DATABASE"), EnvVar(env, "POSTGRES_USERNAME"))
  }

  /** `!(empty($host) || empty($database) || empty($username))`. */
  predicate Complete(c: Credentials)
  {
    !Falsy(c.host) && !Falsy(c.database) && !Falsy(c.username)
  }

  /** Through `getenv`, a variable counts as set exactly when it is present
      with a value other than `""` and `"0"`. */
  lemma ProcessCredentialsComplete(env: Env)
    ensures Complete(ProcessCredentials(env)) <==>
      (forall name | name in {"POSTGRES_HOST", "POSTGRES_DATABASE", "POSTGRES_USERNAME"} ::
         name in env.process && !Falsy(env.process[name]))
  {
    var names := {"POSTGRES_HOST", "POSTGRES_DATABASE", "POSTGRES_USERNAME"};
    if Complete(ProcessCredentials(env)) {
      forall name | name in names ensures name in env.process && !Falsy(env.process[name]) {
      }
    }
  }

  const MissingCredentials := "Error: Missing required environment variables (POSTGRES_HOST, POSTGRES_DATABASE, POSTGRES_USERNAME)"
  const MissingCoordinates := "Error: latitude and longitude are required parameters"
  const LatitudeOutOfRange := "Error: latitude must be between -90 and 90"
  const LongitudeOutOfRange := "Error: longitude must be between -180 and 180"

  predicate ValidLatitude(lat: real)
  {
    -90.0 <= lat <= 90.0
  }

  predicate ValidLongitude(lon: real)
  {
    -180.0 <= lon <= 180.0
  }

  datatype Point = Point(latitude: real, longitude: real)

  /** The presence check, then the latitude range, then the longitude range;
      the first that fails gives the error. */
  function CheckCoordinates(latitude: Option<real>, longitude: Option<real>): (r: Result<Point>)
    ensures r.Ok? <==> latitude.Some? && longitude.Some? && ValidLatitude(latitude.value) && ValidLongitude(longitude.value)
    ensures r.Ok? ==> r.value == Point(latitude.value, longitude.value)
    ensures r.Err? ==> r.message in {MissingCoordinates, LatitudeOutOfRange, LongitudeOutOfRange}
  {
    if latitude.None? || longitude.None? then Err(MissingCoordinates)
    else if latitude.value < -90.0 || latitude.value > 90.0 then Err(LatitudeOutOfRange)
    else if longitude.value < -180.0 || longitude.value > 180.0 then Err(LongitudeOutOfRange)
    else Ok(Point(latitude.value, longitude.value))
  }

  /** Which error the coordinate checks report, in their order. */
  lemma CoordinateErrorOrder(latitude: Option<real>, longitude: Option<real>)
    ensures (latitude.None? || longitude.None?) ==> CheckCoordinates(latitude, longitude) == Err(MissingCoordinates)
    ensures latitude.Some? && longitude.Some? && !ValidLatitude(latitude.value) ==>
      CheckCoordinates(latitude, longitude) == Err(LatitudeOutOfRange)
    ensures latitude.Some? && longitude.Some? && ValidLatitude(latitude.value) && !ValidLongitude(longitude.value) ==>
      CheckCoordinates(latitude, longitude) == Err(LongitudeOutOfRange)
  {
  }
}
