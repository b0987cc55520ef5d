# MCP test server tools, modelled in Dafny

This project models the tools of a PHP Model Context Protocol server. Each tool
takes an array of arguments and returns a text result:

- `generate-uuid`: version-4 UUIDs from random bytes.
- `echo`: the message, with an optional prefix.
- `calculator`: add, subtract, multiply and divide on two floats.
- `add_numbers`, `subtract_numbers`, `multiply_numbers` and `calculate_power`
  (`CalculatorElements`).
- `get-weather`: a simulated weather report.
- Six tools that read the Olomouc Region PostgreSQL database:
  - `get-weather-near-location` (`MeteoDataTool`)
  - `find-nearby-meteostations` (`MeteoStationTool`)
  - `get_location_sentiment` (`SentimentDataTool`)
  - `recent-traffic` (`RecentTrafficTool`)
  - `list_olomouc_datasets` (`ListDatasetsTool`)
  - `get-meteostanice-nazev` (`PostgresMeteoTool`)
- `get-places-of-interest` (`MapyPlacesTool`): places of interest from the
  Mapy.cz geocoding API.

A tool's model is its `execute` written out:

- argument defaults and clamping;
- the checks, in their order, with their exact error texts;
- the query the tool would run;
- the report text it builds from the answer.

The database, the HTTP API, the random generator and PHP's float formatting
are parameters of the model:

- The database is a function `db` from the bound query values to the rows
  fetched or the exception raised. `get-meteostanice-nazev` runs one fixed
  query with nothing bound, so its model takes that query's outcome
  (`fetched`) directly.
- The Mapy.cz API is a function `fetch` from the key and query parameters to
  the response. The response is unreachable, malformed, or a decoded document.
- Random draws are plain inputs.
- `sprintf`'s `%.Nf` and a float's `(string)` cast form the `Printf` record.

Modules:

- `Text`: `.=` appends as `Concat`, `implode` as `Join`, splitting into lines,
  and `%d` as `Dec` with its read-back.
- `Php`: `??`, `empty()`, `min`/`max`, `strtolower`, `getenv` and `$_ENV`.
- `Postgres`: rows, the fetch outcome, the credential check and the coordinate
  checks shared by the database tools.
- One module per tool.

Where a tool builds its text step by step, the model has a method that does
the same. The loops are UUID generation, the report loops of the database
tools and of `get-places-of-interest`, and the `type` parameter loop. The
regional address fallback is a method with three conditional pushes. Each
method is proved equal to a specification function. The properties are then
proved about that function.

## Model

| member | source | states |
|---|---|---|
| `UuidTool.VersionByte` | src/Mcp/UuidTool.php:81 | the high nibble becomes 4 and the low nibble is kept |
| `UuidTool.VariantByte` | src/Mcp/UuidTool.php:83 | the top two bits become 10 and the low six bits are kept |
| `UuidTool.Stamp` | src/Mcp/UuidTool.php:78-83 | bytes 6 and 8 are stamped with the version and variant; every other byte of the 16 is unchanged |
| `UuidTool.StampInPlace` | src/Mcp/UuidTool.php:80-83 | updating the byte array in place leaves it equal to `Stamp` of its old contents |
| `UuidTool.Bin2Hex` | src/Mcp/UuidTool.php:85 | `bin2hex` gives two lower-case hex digits per byte, high nibble first |
| `UuidTool.Hex2BinBin2Hex` | src/Mcp/UuidTool.php:85 | hex encoding round-trips: decoding `bin2hex(data)` gives `data` back |
| `UuidTool.ChunksOf32` | src/Mcp/UuidTool.php:85 | `str_split` of 32 hex digits by 4 gives the eight 4-digit groups, in order |
| `UuidTool.FormatLayout` | src/Mcp/UuidTool.php:85 | the `vsprintf` layout is 36 characters: hyphens at 8, 13, 18 and 23, and hex digit j of `bin2hex` at its text position |
| `UuidTool.UuidIsV4` | src/Mcp/UuidTool.php:76-86 | every generated UUID has the 8-4-4-4-12 hex layout, version digit 4 and a variant digit in 8, 9, a or b |
| `UuidTool.UuidRoundTrip` | src/Mcp/UuidTool.php:76-86 | the UUID's bytes are the random bytes, except the version nibble and the two variant bits |
| `UuidTool.GenerateUuid` | src/Mcp/UuidTool.php:76-86 | stamps a copy of the random bytes in place and returns a well-formed v4 UUID |
| `UuidTool.EffectiveCount` | src/Mcp/UuidTool.php:59-60 | the count is clamped into 1..10 and defaults to 1 |
| `UuidTool.GenerateAll` | src/Mcp/UuidTool.php:62-65 | the loop produces one UUID per random draw, in draw order |
| `UuidTool.Execute` | src/Mcp/UuidTool.php:57-74 | the result is the report over the clamped number of generated UUIDs |
| `UuidTool.ReportSplit` | src/Mcp/UuidTool.php:71-73 | for several UUIDs, the text's lines are the header and then each UUID |
| `UuidTool.ReportLines` | src/Mcp/UuidTool.php:67-73 | one UUID is returned bare; for more, the first line is "Generated n UUIDs:" and the following lines are the UUIDs |
| `EchoTool.Execute` | src/Mcp/EchoTool.php:62-72 | the message (`""` when absent) ends the text; a present prefix, even `""`, opens it, followed by `": "` |
| `EchoTool.EchoRecoversArguments` | src/Mcp/EchoTool.php:67-71 | the message and the prefix can be read back from the text |
| `EchoTool.EmptyPrefixCounts` | src/Mcp/EchoTool.php:65-68 | an empty prefix differs from no prefix; no arguments echo `""` |
| `CalculatorElements.Add` | src/Mcp/CalculatorElements.php:12-20 | the sum less either operand is the other operand |
| `CalculatorElements.Subtract` | src/Mcp/CalculatorElements.php:22-30 | the difference plus b is a; it is zero exactly when a equals b |
| `CalculatorElements.Multiply` | src/Mcp/CalculatorElements.php:32-40 | zero annihilates and one is neutral |
| `CalculatorElements.SubtractUndoesAdd` | src/Mcp/CalculatorElements.php:12-30 | subtract undoes add and add undoes subtract |
| `CalculatorElements.MultiplyDistributes` | src/Mcp/CalculatorElements.php:12-40 | multiply distributes over add and over subtract |
| `CalculatorElements.Power` | src/Mcp/CalculatorElements.php:42-50 | `pow` for a whole exponent, in exact arithmetic: anything to the power 0 is 1 |
| `CalculatorElements.PowerBounds` | src/Mcp/CalculatorElements.php:42-50 | on the schema's domain the power is non-negative; it is at least 1 for a base of at least 1 and at most 1 for a base of at most 1 |
| `CalculatorElements.PowerStep` | src/Mcp/CalculatorElements.php:49 | raising the exponent by one multiplies by the base |
| `CalculatorElements.PowerSmallCases` | src/Mcp/CalculatorElements.php:49 | the power with exponent 1 is the base; zero to a positive power is zero |
| `CalculatorElements.PowerAdd` | src/Mcp/CalculatorElements.php:49 | exponents add: `pow(b, m + n) = pow(b, m) * pow(b, n)` for every base and whole exponents m, n |
| `CalculatorTool.Divide` | src/Mcp/CalculatorTool.php:88-95 | fails with "Division by zero is not allowed" exactly when b is 0; otherwise the quotient times b is a |
| `CalculatorTool.Calculate` | src/Mcp/CalculatorTool.php:75-81 | succeeds exactly for the four operation names (divide also needs b not 0); an unknown name fails with "Invalid operation: " and the name; each result inverts its operation |
| `CalculatorTool.MultiplyThenDivide` | src/Mcp/CalculatorTool.php:78-79 | multiplying then dividing by a non-zero b gives a back |
| `CalculatorTool.CalculateInverses` | src/Mcp/CalculatorTool.php:75-81 | subtract undoes add, and divide undoes multiply by a non-zero b |
| `CalculatorTool.Symbol` | src/Mcp/CalculatorTool.php:97-106 | one character per operation, and "?" exactly for an unknown operation |
| `CalculatorTool.SymbolsDistinct` | src/Mcp/CalculatorTool.php:97-106 | the four operations have four different symbols |
| `CalculatorTool.SymbolAsWritten` | src/Mcp/CalculatorTool.php:100-104 | the symbol table with its two-character multiply and divide entries; "?" exactly for an unknown operation |
| `CalculatorTool.SymbolAsWrittenIsGarbled` | src/Mcp/CalculatorTool.php:102-103 | the multiply and divide entries as stored are two characters each, share their first character, and are not × and ÷ |
| `CalculatorTool.Execute` | src/Mcp/CalculatorTool.php:69-86 | missing operands read as 0 and a missing operation as `""`; a failure of the calculation is the exception; otherwise the text is "a op b = result" with the symbol as the source stores it |
| `CalculatorTool.ExecuteIntended` | src/Mcp/CalculatorTool.php:69-106 | the same tool with the evidently intended symbols: it fails exactly when `Execute` fails, with the same error, and otherwise prints "a × b" / "a ÷ b" |
| `CalculatorTool.ExecuteAsWrittenDiffers` | src/Mcp/CalculatorTool.php:83-106 | for add and subtract the text as written is the intended one; for multiply and divide it is one character longer and different |
| `CalculatorTool.ExecuteErrors` | src/Mcp/CalculatorTool.php:71-80 | a missing or unknown operation and a division by a zero or missing b raise their exceptions |
| `WeatherTool.Temperature` | src/Mcp/WeatherTool.php:73-80 | converts to Fahrenheit exactly for "fahrenheit" (converting back gives the draw); otherwise the Celsius draw |
| `WeatherTool.TemperatureBounds` | src/Mcp/WeatherTool.php:73-80 | a draw in 15..30 shows as 59..86 °F or 15..30 °C |
| `WeatherTool.UnitsDefault` | src/Mcp/WeatherTool.php:67 | missing units and "Fahrenheit" (capital F) both give Celsius |
| `WeatherTool.Execute` | src/Mcp/WeatherTool.php:64-101 | the city defaults to "Unknown" and the units to "celsius"; the report is the seven lines (city, condition, temperature with unit, humidity, wind, a blank line, the note) joined by line breaks |
| `WeatherTool.ReportLines` | src/Mcp/WeatherTool.php:64-101 | split at line breaks, the report gives back exactly the city, condition, temperature, humidity and wind lines, a blank line and the note |
| `WeatherTool.ReportEndsWithNote` | src/Mcp/WeatherTool.php:91 | whatever the draws, the report ends with a line break and the simulated-data note |
| `Php.Getenv` | src/Mcp/MeteoDataTool.php:81-85 | `getenv(...) ?: ''` is `""` unless the variable is set to something other than `""` or `"0"` |
| `Php.EnvVar` | src/Mcp/PostgresMeteoTool.php:52-56 | `$_ENV[...] ?? ''` is the superglobal's value, or `""` when it is missing |
| `Php.Lower` | src/Mcp/SentimentDataTool.php:95 | `strtolower` keeps the length and changes only ASCII upper-case letters |
| `Php.LowerIdempotent` | src/Mcp/SentimentDataTool.php:95 | lower-casing twice is lower-casing once |
| `Php.NonEmptyOr` | src/Mcp/SentimentDataTool.php:205-210 | a value that is empty to PHP gives the placeholder; otherwise the value itself |
| `Postgres.ProcessCredentialsComplete` | src/Mcp/MeteoDataTool.php:81-89 | the credential check passes exactly when host, database and user name are all set to something other than `""` or `"0"` |
| `Postgres.CheckCoordinates` | src/Mcp/MeteoDataTool.php:97-109 | succeeds exactly when both coordinates are present and in range; otherwise one of the three coordinate errors |
| `Postgres.CoordinateErrorOrder` | src/Mcp/MeteoDataTool.php:97-109 | a missing coordinate is reported before a bad latitude, which is reported before a bad longitude |
| `Postgres.FailureText` | src/Mcp/MeteoDataTool.php:220-233 | a PDO exception gives "Database Error" with its message and code; any other exception gives "Unexpected Error" |
| `MeteoDataTool.Limit` | src/Mcp/MeteoDataTool.php:95 | the limit is clamped into 1..100 and defaults to 10 |
| `MeteoDataTool.Validate` | src/Mcp/MeteoDataTool.php:81-114 | passes exactly when the credentials, both coordinates and the distance (default 1.0, within 0.1..100) are valid; otherwise the error of the first failed check, in source order |
| `MeteoDataTool.AcceptedQuery` | src/Mcp/MeteoDataTool.php:92-114 | an accepted query has in-range coordinates, a distance in 0.1..100 and a limit in 1..100, with their defaults |
| `MeteoDataTool.RejectedWithoutQuery` | src/Mcp/MeteoDataTool.php:81-114 | a failed check returns its error text without asking the database |
| `MeteoDataTool.Execute` | src/Mcp/MeteoDataTool.php:78-234 | the result is the error text, the report of the fetched rows, or the failure text |
| `MeteoDataTool.WriteReport` | src/Mcp/MeteoDataTool.php:169-212 | the `.=` loop builds the report: the header, then each row's block |
| `MeteoDataTool.ReportBlocks` | src/Mcp/MeteoDataTool.php:177-212 | the report opens with the row count and holds the blocks in row order; block k opens with "Station #k+1" and the station name, or N/A |
| `MeteoDataTool.NoRowsNoBlocks` | src/Mcp/MeteoDataTool.php:169-175 | no rows give the no-data text |
| `MeteoStationTool.Validate` | src/Mcp/MeteoStationTool.php:74-106 | passes exactly when the credentials, both coordinates and `distance_km` (default 1.0, within 0.1..100) are valid; otherwise the first failed check's error |
| `MeteoStationTool.AcceptedQuery` | src/Mcp/MeteoStationTool.php:85-106 | an accepted query has in-range coordinates and a distance in 0.1..100, defaulting to 1.0 |
| `MeteoStationTool.RejectedWithoutQuery` | src/Mcp/MeteoStationTool.php:74-106 | a failed check returns its error text without asking the database |
| `MeteoStationTool.Execute` | src/Mcp/MeteoStationTool.php:71-204 | the result is the error text, the report of the fetched rows, or the failure text |
| `MeteoStationTool.WriteReport` | src/Mcp/MeteoStationTool.php:155-182 | the `.=` loop builds the report: the header, then each station's block |
| `MeteoStationTool.ReportBlocks` | src/Mcp/MeteoStationTool.php:163-182 | the report opens with the count and holds one block per row, in row order |
| `MeteoStationTool.NoRowsNoBlocks` | src/Mcp/MeteoStationTool.php:155-161 | no rows give the no-data text |
| `SentimentDataTool.SentimentType` | src/Mcp/SentimentDataTool.php:95 | the sentiment is lower-cased and defaults to "good" |
| `SentimentDataTool.Validate` | src/Mcp/SentimentDataTool.php:82-119 | passes exactly when the credentials, the coordinates, the lower-cased sentiment (good, bad or neutral) and a non-negative radius (default 1.0) are valid; otherwise the first failed check's error |
| `SentimentDataTool.AcceptedQuery` | src/Mcp/SentimentDataTool.php:93-119 | an accepted query has a lower-case valid sentiment and a non-negative radius, with their defaults |
| `SentimentDataTool.UpperCaseAccepted` | src/Mcp/SentimentDataTool.php:95-115 | "GOOD" is accepted and queries "good" |
| `SentimentDataTool.RejectedWithoutQuery` | src/Mcp/SentimentDataTool.php:82-119 | a failed check returns its error text without asking the database |
| `SentimentDataTool.Execute` | src/Mcp/SentimentDataTool.php:79-234 | the result is the error text, the report of the fetched rows, or the failure text |
| `SentimentDataTool.WriteReport` | src/Mcp/SentimentDataTool.php:171-212 | the `.=` loop builds the report: the header, then each row's block |
| `SentimentDataTool.ReportBlocks` | src/Mcp/SentimentDataTool.php:180-212 | the report opens with the count and the sentiment, and holds one block per row, in row order |
| `SentimentDataTool.EntryText` | src/Mcp/SentimentDataTool.php:189-211 | block k in full, field by field; a name, URL or comments that is missing, `""` or `"0"` shows as "(No name)", "(No URL)" or "(No comments)", the other fields as N/A or 0 when missing |
| `SentimentDataTool.NoRowsNoBlocks` | src/Mcp/SentimentDataTool.php:171-178 | no rows give the no-data text naming the sentiment |
| `RecentTrafficTool.Limit` | src/Mcp/RecentTrafficTool.php:76 | the limit is at least 1 and defaults to 5 |
| `RecentTrafficTool.Validate` | src/Mcp/RecentTrafficTool.php:74-102 | the coordinates are checked before the credentials; otherwise the query with the clamped limit |
| `RecentTrafficTool.ArgumentsBeforeCredentials` | src/Mcp/RecentTrafficTool.php:78-80 | a missing coordinate is reported even without credentials |
| `RecentTrafficTool.RejectedWithoutQuery` | src/Mcp/RecentTrafficTool.php:74-102 | a failed check returns its error text without asking the database |
| `RecentTrafficTool.Execute` | src/Mcp/RecentTrafficTool.php:71-205 | the result is the error text, the report of the fetched rows, or the failure text |
| `RecentTrafficTool.WriteReport` | src/Mcp/RecentTrafficTool.php:147-183 | the `.=` loop builds the report: the header from the first row, then each measurement |
| `RecentTrafficTool.ReportBlocks` | src/Mcp/RecentTrafficTool.php:155-183 | the report opens with the first row's station (or "Unknown") and holds one entry per row, in row order; entry k is "k+1. Time: …" then "   Intensity: " and the intensity or N/A |
| `RecentTrafficTool.ReportText` | src/Mcp/RecentTrafficTool.php:155-170 | the header in full: station name (or "Unknown"), station location from the first row at six decimals, the searched point, and the row count followed by " most recent traffic intensity measurements:" |
| `ListDatasetsTool.Limit` | src/Mcp/ListDatasetsTool.php:73 | the limit is at least 1 and defaults to 50 |
| `ListDatasetsTool.Validate` | src/Mcp/ListDatasetsTool.php:62-73 | passes exactly when the credentials are set, and then carries the limit |
| `ListDatasetsTool.RejectedWithoutQuery` | src/Mcp/ListDatasetsTool.php:62-70 | missing credentials give their error without asking the database |
| `ListDatasetsTool.FieldLine` | src/Mcp/ListDatasetsTool.php:115-147 | a field's line is absent exactly when the value is empty to PHP; otherwise "  Caption: " and the value, ending in a line break |
| `ListDatasetsTool.Execute` | src/Mcp/ListDatasetsTool.php:59-172 | the result is the error text, the report of the fetched rows, or the failure text |
| `ListDatasetsTool.WriteReport` | src/Mcp/ListDatasetsTool.php:106-151 | the nested `.=` loops build the report: the count, then per row its title, the non-empty fields in table order and a blank line |
| `ListDatasetsTool.ListingEmpty` | src/Mcp/ListDatasetsTool.php:115-147 | a row lists nothing exactly when every field is empty |
| `ListDatasetsTool.ListingEndsWithBreak` | src/Mcp/ListDatasetsTool.php:115-147 | a non-empty listing ends with a line break |
| `ListDatasetsTool.ListingPrefix` | src/Mcp/ListDatasetsTool.php:115-147 | the lines of earlier fields come first |
| `ListDatasetsTool.ListingOrder` | src/Mcp/ListDatasetsTool.php:115-147 | field j's line follows the lines of fields 0..j-1 |
| `ListDatasetsTool.EntryShape` | src/Mcp/ListDatasetsTool.php:112-149 | every block opens with "Dataset #n:" and ends with a blank line; a row with only empty fields is just its title and a blank line |
| `ListDatasetsTool.ReportBlocks` | src/Mcp/ListDatasetsTool.php:106-151 | the report opens with the row count and holds the blocks in row order |
| `PostgresMeteoTool.Values` | src/Mcp/PostgresMeteoTool.php:87 | `array_column` yields at most one value per row |
| `PostgresMeteoTool.ValuesOfFullRows` | src/Mcp/PostgresMeteoTool.php:87 | when every row has the column, the values are the rows' values, in order |
| `PostgresMeteoTool.Bullet` | src/Mcp/PostgresMeteoTool.php:91 | "- " then the value, or "(NULL)" for a null |
| `PostgresMeteoTool.Bullets` | src/Mcp/PostgresMeteoTool.php:91 | one bullet per value, in order |
| `PostgresMeteoTool.Execute` | src/Mcp/PostgresMeteoTool.php:50-113 | missing credentials give their error; otherwise the report of the rows or the failure text |
| `PostgresMeteoTool.ReadsSuperglobalOnly` | src/Mcp/PostgresMeteoTool.php:52-56 | the result does not depend on the variables `getenv` would see |
| `PostgresMeteoTool.ReportLines` | src/Mcp/PostgresMeteoTool.php:84-92 | the report's lines are the count line, a blank line and one bullet per value |
| `PostgresMeteoTool.CountIsValues` | src/Mcp/PostgresMeteoTool.php:88-90 | the count printed is the number of values, read back exactly |
| `MapyPlacesTool.Limit` | src/Mcp/MapyPlacesTool.php:81 | the limit is at least 1 and defaults to 10 |
| `MapyPlacesTool.Validate` | src/Mcp/MapyPlacesTool.php:70-96 | the API key is checked first, then the coordinates in order; otherwise the request with key, point and limit |
| `MapyPlacesTool.KindParams` | src/Mcp/MapyPlacesTool.php:110-125 | one `type` parameter per place kind, in the listed order |
| `MapyPlacesTool.BuildQuery` | src/Mcp/MapyPlacesTool.php:103-130 | the loop writes the query parameters in URL order |
| `MapyPlacesTool.QueryOrder` | src/Mcp/MapyPlacesTool.php:103-130 | fourteen parameters: query, lang and limit; the eight types; longitude before latitude; the 300 m precision |
| `MapyPlacesTool.LimitParam` | src/Mcp/MapyPlacesTool.php:81-106 | the limit parameter reads back as the clamped limit |
| `MapyPlacesTool.Present` | src/Mcp/MapyPlacesTool.php:194-202 | only values that are not empty to PHP are kept |
| `MapyPlacesTool.PresentNone` | src/Mcp/MapyPlacesTool.php:194-204 | nothing is kept exactly when every value is empty |
| `MapyPlacesTool.PresentAll` | src/Mcp/MapyPlacesTool.php:194-202 | when every value is set, all are kept, in order |
| `MapyPlacesTool.Fallback` | src/Mcp/MapyPlacesTool.php:190-205 | with no regional part set, the address is "N/A" |
| `MapyPlacesTool.RegionalAddress` | src/Mcp/MapyPlacesTool.php:191-204 | the conditional pushes and `implode` give the fallback address |
| `MapyPlacesTool.FallbackShape` | src/Mcp/MapyPlacesTool.php:191-204 | the fallback is never empty, and with all three parts set it is "address, city, zip" |
| `MapyPlacesTool.Address` | src/Mcp/MapyPlacesTool.php:187-205 | the location is used unless missing or "N/A"; then the regional fallback |
| `MapyPlacesTool.ItemAddress` | src/Mcp/MapyPlacesTool.php:187-205 | computes the address of an item as the loop body does |
| `MapyPlacesTool.LabelLine` | src/Mcp/MapyPlacesTool.php:220-222 | a label line is present exactly when the label is not empty |
| `MapyPlacesTool.Answer` | src/Mcp/MapyPlacesTool.php:146-225 | a failed connection, invalid JSON and an API error are reported in that order; otherwise the report of the items |
| `MapyPlacesTool.Execute` | src/Mcp/MapyPlacesTool.php:69-237 | the result is the validation error or the answer to the request built from the key, point and limit |
| `MapyPlacesTool.KeyCheckedFirst` | src/Mcp/MapyPlacesTool.php:72-76 | without a key the tool answers the key error; a failed check never reaches the API |
| `MapyPlacesTool.WriteReport` | src/Mcp/MapyPlacesTool.php:164-225 | the `.=` loop builds the report: the header, then each item's block |
| `MapyPlacesTool.AppendItem` | src/Mcp/MapyPlacesTool.php:207-224 | one loop iteration appends exactly the item's block |
| `MapyPlacesTool.EntryShape` | src/Mcp/MapyPlacesTool.php:207-224 | a block opens with its number, ends with a blank line, and has a Label line exactly when the label is not empty |
| `MapyPlacesTool.ReportBlocks` | src/Mcp/MapyPlacesTool.php:170-225 | the report opens with the item count and holds the blocks in item order |

## Left out

- HTTP handling, MCP framing and the tools' schema and annotation methods are not modelled: the controllers, the Roadrunner log handlers, `TimeTool`, `isStreaming` and `setProgressNotifier` are not part of this model.
- The PDO connection, the SQL text and the Haversine distance computed in SQL are not modelled. A query is the values it binds, and `db` gives the rows or the exception. The port and the password only go into the connection, so they are not modelled.
- The HTTP GET to Mapy.cz, its headers and timeout, `json_decode`, `urlencode` and `http_build_query` are not modelled. The query is the sequence of name/value pairs before encoding, and `fetch` gives the response.
- A non-array JSON body and the Mapy.cz catch-all "Unexpected Error" are not modelled. The API's `error` field is modelled as a string.
- PHP floats are modelled as reals. `sprintf`'s `%.Nf`, `%s` of a float and `(string)` of a float are abstract functions in `Printf`, so rounding and float display are not modelled.
- PHP's loose coercions (`(int)` and `(float)` of arbitrary argument values) are not modelled. Arguments arrive with their declared types, and database values are strings or null.
- CalculatorElements.Add: an overflowing `+` yields a float, which the `: int` return type rejects with a TypeError under `strict_types`; not modelled, because integers are unbounded here.
- CalculatorElements.Subtract: an overflowing `-` yields a float, which the `: int` return type rejects with a TypeError under `strict_types`; not modelled, because integers are unbounded here.
- CalculatorElements.Multiply: an overflowing `*` yields a float, which the `: int` return type rejects with a TypeError under `strict_types`; not modelled, because integers are unbounded here.
- CalculatorElements.Power: only `pow` with a whole exponent, in exact arithmetic, is modelled; floating-point rounding is not. The schema's bounds (base 0..1000, exponent 0..10) are declared on the parameters for the caller; `pow` itself does not check them, so they appear only as `PowerDomain` where a property needs them.
- `random_bytes`, `array_rand` and `rand` are inputs, and their distribution is not modelled.
- ListDatasetsTool.WriteReport: the eleven `if (!empty(...))` statements are modelled as a loop over the table of captions and columns. That table lists them in the source's order.
- MeteoDataTool.ReportBlocks: a station block's reading lines (`%.Nf` of the readings, N/A for a missing value) are stated only through the report's definition; the lemma states the count, the block order and each block's title line.
- MeteoStationTool.ReportBlocks: a station block's lines after its title are stated only through the report's definition; the lemma states the count, the block order and each block's title line.

## Findings

| source | as written | input that shows it | evidently intended | confidence | as-written member | corrected member |
|---|---|---|---|---|---|---|
| src/Mcp/CalculatorTool.php:102-103 | the multiply and divide symbols are stored as the UTF-8 bytes of × and ÷ read a second time as ISO-8859-11 (Thai): U+0E23 U+0097 and U+0E23 U+0E17 | operation "multiply" or "divide": the symbol printed is two characters, the same Thai letter first in both | "×" for multiply and "÷" for divide, one character each, all four symbols distinct | not executed | `CalculatorTool.SymbolAsWrittenIsGarbled` | `CalculatorTool.SymbolsDistinct` |
