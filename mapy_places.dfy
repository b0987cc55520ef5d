/** The `get-places-of-interest` tool: places of interest within 300 m of a point,
    asked of the Mapy.cz geocoding API. The HTTP request and the JSON
    decoding are the collaborator `fetch`, which receives the API key and
    the query parameters and answers with a `Response`. */
module MapyPlacesTool {
  import opened Php
  import opened Text
  import opened Postgres

  datatype Arguments = Arguments(latitude: Option<real>, longitude: Option<real>, limit: Option<int>)

  const KeyVariable := "MAPY_API_KEY"
  const MissingKey := "Error: Missing required environment variable MAPY_API_KEY"

  /** `max((int)($limit ?? 10), 1)`: at least 1, with no upper bound. */
  function Limit(limit: Option<int>): (n: int)
    ensures n >= 1
    ensures limit.None? ==> n == 10
    ensures limit.Some? && limit.value >= 1 ==> n == limit.value
    ensures limit.Some? && limit.value < 1 ==> n == 1
  {
    Max(OrElse(limit, 10), 1)
  }

  /** What the request is built from once the checks pass. */
  datatype Request = Request(key: string, point: Point, limit: nat)

  /** The API key is checked first, then the coordinates. */
  function Validate(env: Env, args: Arguments): (r: Result<Request>)
    ensures r.Ok? <==> Getenv(env, KeyVariable) != "" && CheckCoordinates(args.latitude, args.longitude).Ok?
    ensures Getenv(env, KeyVariable) == "" ==> r == Err(MissingKey)
    ensures Getenv(env, KeyVariable) != "" && CheckCoordinates(args.latitude, args.longitude).Err? ==>
      r == Err(CheckCoordinates(args.latitude, args.longitude).message)
    ensures r.Ok? ==> r.value == Request(Getenv(env, KeyVariable), Point(args.latitude.value, args.longitude.value), Limit(args.limit))
  {
    var key := Getenv(env, KeyVariable);
    if Falsy(key) then Err(MissingKey)
    else
      match CheckCoordinates(args.latitude, args.longitude)
      case Err(message) => Err(message)
      case Ok(point) => Ok(Request(key, point, Limit(args.limit)))
  }

  /** A query parameter, before percent-encoding: name and value. */
  type Param = (string, string)

  /** The place types asked for, one `type` parameter each, in this order. */
  const Kinds: seq<string> := [
    "regional", "regional.country", "regional.region", "regional.municipality",
    "regional.municipality_part", "regional.street", "regional.address", "poi"]

  function BaseParams(limit: nat): seq<Param>
  {
    [("query", "park, kostel"), ("lang", "cs"), ("limit", Dec(limit))]
  }

  function KindParams(n: nat): (params: seq<Param>)
    requires n <= |Kinds|
    ensures |params| == n
    ensures forall k :: 0 <= k < n ==> params[k] == ("type", Kinds[k])
  {
    seq(n, k requires 0 <= k < n => ("type", Kinds[k]))
  }

  /** The point as the API is told to prefer it: longitude first, then latitude. */
  function NearParams(point: Point, fmt: Printf): seq<Param>
  {
    [("preferNear", fmt.show(point.longitude)), ("preferNear", fmt.show(point.latitude)), ("preferNearPrecision", "300")]
  }

  /** The whole query, in the order it is written into the URL. */
  function QueryParams(limit: nat, point: Point, fmt: Printf): seq<Param>
  {
    BaseParams(limit) + KindParams(|Kinds|) + NearParams(point, fmt)
  }

  /** The query string as the tool appends to it: the three fixed
      parameters, a `type` parameter per kind in a loop, then the point. */
  method BuildQuery(limit: nat, point: Point, fmt: Printf) returns (params: seq<Param>)
    ensures params == QueryParams(limit, point, fmt)
  {
    params := BaseParams(limit);
    var i := 0;
    while i < |Kinds|
      invariant 0 <= i <= |Kinds|
      invariant params == BaseParams(limit) + KindParams(i)
    {
      params := params + [("type", Kinds[i])];
      assert KindParams(i + 1) == KindParams(i) + [("type", Kinds[i])];
      i := i + 1;
    }
    params := params + [("preferNear", fmt.show(point.longitude))];
    params := params + [("preferNear", fmt.show(point.latitude))];
    params := params + [("preferNearPrecision", "300")];
  }

  /** The query's fourteen parameters: query, lang and limit; the eight kinds
      in their listed order; the longitude, then the latitude; the precision. */
  lemma QueryOrder(limit: nat, point: Point, fmt: Printf)
    ensures var params := QueryParams(limit, point, fmt);
      && |params| == 14
      && params[0] == ("query", "park, kostel") && params[1] == ("lang", "cs") && params[2].0 == "limit"
      && (forall k :: 0 <= k < 8 ==> params[3 + k] == ("type", Kinds[k]))
      && params[11] == ("preferNear", fmt.show(point.longitude))
      && params[12] == ("preferNear", fmt.show(point.latitude))
      && params[13] == ("preferNearPrecision", "300")
  {
  }

  /** The limit parameter carries the clamped limit in decimal. */
  lemma LimitParam(args: Arguments, point: Point, fmt: Printf)
    ensures DecValue(QueryParams(Limit(args.limit), point, fmt)[2].1) == Limit(args.limit)
  {
    DecRoundTrip(Limit(args.limit));
  }

  /** The `regional` part of an item. */
  datatype Regional = Regional(address: Option<string>, city: Option<string>, zip: Option<string>)

  /** One entry of the response's `items`; every key may be missing. */
  datatype Item = Item(
    name: Option<string>,
    kind: Option<string>,
    lat: Option<real>,
    lon: Option<real>,
    labelText: Option<string>,
    location: Option<string>,
    regional: Regional)

  /** A decoded response body: `error` when set, and `items` (missing reads as none). */
  datatype Document = Document(error: Option<string>, items: seq<Item>)

  /** What the HTTP request and `json_decode` yield. */
  datatype Response = Unreachable | Malformed | Decoded(document: Document)

  const ConnectionFailed := "Error: Failed to connect to Mapy.cz API"
  const InvalidJson := "Error: Invalid JSON response from API"

  /** The values that are set, in order: the regional parts the fallback
      address is made of. */
  function Present(values: seq<Option<string>>): (parts: seq<string>)
    ensures |parts| <= |values|
    ensures forall i :: 0 <= i < |parts| ==> !Falsy(parts[i])
  {
    if values == [] then []
    else
      var init := Present(values[..|values| - 1]);
      var last := values[|values| - 1];
      if Empty(last) then init else init + [last.value]
  }

  lemma {:induction false} PresentNone(values: seq<Option<string>>)
    ensures Present(values) == [] <==> forall i :: 0 <= i < |values| ==> Empty(values[i])
  {
    if values != [] {
      var init := values[..|values| - 1];
      PresentNone(init);
      assert forall i :: 0 <= i < |init| ==> init[i] == values[i];
    }
  }

  /** One more value: appended when set, skipped when empty. */
  lemma PresentSnoc(values: seq<Option<string>>, n: nat)
    requires n < |values|
    ensures Present(values[..n + 1]) == Present(values[..n]) + (if Empty(values[n]) then [] else [values[n].value])
  {
    assert values[..n + 1][..n] == values[..n];
  }

  lemma {:induction false} PresentAll(values: seq<Option<string>>)
    requires forall i :: 0 <= i < |values| ==> !Empty(values[i])
    ensures |Present(values)| == |values|
    ensures forall i :: 0 <= i < |values| ==> Present(values)[i] == OrElse(values[i], "")
  {
    if values != [] {
      PresentAll(values[..|values| - 1]);
    }
  }

  /** The regional parts, in the order address, city, zip. */
  function RegionalValues(r: Regional): seq<Option<string>>
  {
    [r.address, r.city, r.zip]
  }

  /** The fallback: the set regional parts joined by ", ", or `N/A` when none is set. */
  function Fallback(r: Regional): (address: string)
    ensures Present(RegionalValues(r)) == [] ==> address == "N/A"
  {
    var parts := Present(RegionalValues(r));
    if parts == [] then "N/A" else Join(parts, ", ")
  }

  /** The address shown: `location`, unless it is missing or `N/A`, in which
      case the fallback. */
  function Address(item: Item): (address: string)
    ensures item.location.Some? && item.location.value != "N/A" ==> address == item.location.value
    ensures item.location.None? || item.location.value == "N/A" ==> address == Fallback(item.regional)
  {
    var location := OrElse(item.location, "N/A");
    if location == "N/A" then Fallback(item.regional) else location
  }

  /** The address shown for an item: `location`, or the fallback. */
  method ItemAddress(item: Item) returns (address: string)
    ensures address == Address(item)
  {
    address := OrElse(item.location, "N/A");
    if address == "N/A" {
      address := RegionalAddress(item.regional);
    }
  }

  /** The fallback by conditional pushes, as the tool builds it. */
  method RegionalAddress(r: Regional) returns (address: string)
    ensures address == Fallback(r)
  {
    ghost var values := RegionalValues(r);
    var parts: seq<string> := [];
    assert values[..0] == [];
    if !Empty(r.address) {
      parts := parts + [r.address.value];
    }
    PresentSnoc(values, 0);
    if !Empty(r.city) {
      parts := parts + [r.city.value];
    }
    PresentSnoc(values, 1);
    if !Empty(r.zip) {
      parts := parts + [r.zip.value];
    }
    PresentSnoc(values, 2);
    assert values[..3] == values;
    address := if parts != [] then Join(parts, ", ") else "N/A";
  }

  lemma {:induction false} JoinNonEmpty(parts: seq<string>, sep: string)
    requires |parts| >= 1
    requires forall i :: 0 <= i < |parts| ==> parts[i] != ""
    ensures Join(parts, sep) != ""
  {
    if |parts| > 1 {
      JoinNonEmpty(parts[..|parts| - 1], sep);
    }
  }

  /** The fallback has no part exactly when no regional part is set (and is
      then `N/A`), is never empty, and lists all three parts when all are set. */
  lemma FallbackShape(r: Regional)
    ensures Present(RegionalValues(r)) == [] <==> (Empty(r.address) && Empty(r.city) && Empty(r.zip))
    ensures Fallback(r) != ""
    ensures (!Empty(r.address) && !Empty(r.city) && !Empty(r.zip)) ==>
      Fallback(r) == Join([r.address.value, r.city.value, r.zip.value], ", ")
  {
    var values := RegionalValues(r);
    var parts := Present(values);
    PresentNone(values);
    assert values[0] == r.address && values[1] == r.city && values[2] == r.zip;
    if parts != [] {
      JoinNonEmpty(parts, ", ");
    }
    if !Empty(r.address) && !Empty(r.city) && !Empty(r.zip) {
      PresentAll(values);
      assert parts == [r.address.value, r.city.value, r.zip.value];
    }
  }

  /** `%.6f` of a coordinate, where a missing one is the string `N/A`. */
  function Coordinate(v: Option<real>, fmt: Printf): string
  {
    match v
    case Some(x) => fmt.fixed(x, 6)
    case None => fmt.fixedText("N/A", 6)
  }

  function Title(index: nat, item: Item): string
  {
    Dec(index + 1) + ". " + OrElse(item.name, "N/A") + "\n"
  }

  function Details(item: Item, address: string, fmt: Printf): string
  {
    "   Type: " + OrElse(item.kind, "N/A") + "\n" +
    "   Location: Lat " + Coordinate(item.lat, fmt) + ", Lon " + Coordinate(item.lon, fmt) + "\n" +
    "   Address: " + address + "\n"
  }

  /** The label line: present exactly when the label is not empty. */
  function LabelLine(item: Item): (line: string)
    ensures line == "" <==> Empty(item.labelText)
    ensures line != "" ==> StartsWith(line, "   Label: ") && line[|line| - 1] == '\n'
  {
    if Empty(item.labelText) then ""
    else
      StartsWithAppend("   Label: ", item.labelText.value + "\n");
      "   Label: " + item.labelText.value + "\n"
  }

  /** The block for the item at `index` (0-based). */
  function Entry(index: nat, item: Item, fmt: Printf): string
  {
    Title(index, item) + Details(item, Address(item), fmt) + LabelLine(item) + "\n"
  }

  function Entries(items: seq<Item>, fmt: Printf): (entries: seq<string>)
    ensures |entries| == |items|
    ensures forall k :: 0 <= k < |items| ==> entries[k] == Entry(k, items[k], fmt)
  {
    seq(|items|, k requires 0 <= k < |items| => Entry(k, items[k], fmt))
  }

  function Count(n: nat): string
  {
    "Found " + Dec(n) + " place(s) of interest"
  }

  function Near(point: Point, fmt: Printf): string
  {
    " near (" + fmt.fixed(point.latitude, 4) + ", " + fmt.fixed(point.longitude, 4) + ") within 300m radius:\n\n"
  }

  function Header(n: nat, point: Point, fmt: Printf): string
  {
    Count(n) + Near(point, fmt)
  }

  function NoData(point: Point, fmt: Printf): string
  {
    "No places of interest found near coordinates (" + fmt.fixed(point.latitude, 4) + ", " +
    fmt.fixed(point.longitude, 4) + ") within 300m radius."
  }

  function Report(point: Point, items: seq<Item>, fmt: Printf): string
  {
    if |items| == 0 then NoData(point, fmt) else Header(|items|, point, fmt) + Concat(Entries(items, fmt))
  }

  /** What a response gives, its three failures checked in order. */
  function Answer(point: Point, response: Response, fmt: Printf): (out: string)
    ensures response.Unreachable? ==> out == ConnectionFailed
    ensures response.Malformed? ==> out == InvalidJson
    ensures response.Decoded? && response.document.error.Some? ==> out == "API Error: " + response.document.error.value
    ensures response.Decoded? && response.document.error.None? ==> out == Report(point, response.document.items, fmt)
  {
    match response
    case Unreachable => ConnectionFailed
    case Malformed => InvalidJson
    case Decoded(document) =>
      if document.error.Some? then "API Error: " + document.error.value
      else Report(point, document.items, fmt)
  }

  /** `execute` as a whole. */
  function Run(env: Env, args: Arguments, fmt: Printf, fetch: (string, seq<Param>) -> Response): string
  {
    match Validate(env, args)
    case Err(message) => message
    case Ok(request) =>
      Answer(request.point, fetch(request.key, QueryParams(request.limit, request.point, fmt)), fmt)
  }

  /** `execute`: the checks, the query built by appends, the request, and
      the report built by appends in a `foreach` over the items. */
  method Execute(env: Env, args: Arguments, fmt: Printf, fetch: (string, seq<Param>) -> Response) returns (out: string)
    ensures out == Run(env, args, fmt, fetch)
  {
    var checked := Validate(env, args);
    if checked.Err? {
      return checked.message;
    }
    var request := checked.value;
    var params := BuildQuery(request.limit, request.point, fmt);
    var response := fetch(request.key, params);
    if response.Unreachable? {
      return ConnectionFailed;
    }
    if response.Malformed? {
      return InvalidJson;
    }
    if response.document.error.Some? {
      return "API Error: " + response.document.error.value;
    }
    out := WriteReport(request.point, response.document.items, fmt);
  }

  /** The report part of `execute`: the header, then one block per item. */
  method WriteReport(point: Point, items: seq<Item>, fmt: Printf) returns (out: string)
    ensures out == Report(point, items, fmt)
  {
    if |items| == 0 {
      return NoData(point, fmt);
    }
    var header := Header(|items|, point, fmt);
    ghost var entries := Entries(items, fmt);
    out := header;
    var i := 0;
    while i < |items|
      invariant 0 <= i <= |items|
      invariant out == header + Concat(entries[..i])
    {
      out := AppendItem(out, i, items[i], fmt);
      ConcatStep(header, entries, i);
      i := i + 1;
    }
    assert entries[..|items|] == entries;
  }

  /** The body of the `foreach`: the item's lines appended to the text so far. */
  method AppendItem(text: string, index: nat, item: Item, fmt: Printf) returns (out: string)
    ensures out == text + Entry(index, item, fmt)
  {
    var address := ItemAddress(item);
    out := text + (Title(index, item) + Details(item, address, fmt));
    if !Empty(item.labelText) {
      out := out + ("   Label: " + item.labelText.value + "\n");
    }
    out := out + "\n";
    EntryStep(text, index, item, fmt);
  }

  lemma EntryStep(prefix: string, index: nat, item: Item, fmt: Printf)
    ensures prefix + (Title(index, item) + Details(item, Address(item), fmt)) + LabelLine(item) + "\n" ==
      prefix + Entry(index, item, fmt)
  {
    var block := Title(index, item) + Details(item, Address(item), fmt);
    AppendAssoc(prefix, block, LabelLine(item));
    AppendAssoc(prefix, block + LabelLine(item), "\n");
  }

  /** A missing key is reported before the arguments are looked at, and no
      request is made after a failed check. */
  lemma KeyCheckedFirst(env: Env, args: Arguments, fmt: Printf, f1: (string, seq<Param>) -> Response, f2: (string, seq<Param>) -> Response)
    ensures Getenv(env, KeyVariable) == "" ==> Run(env, args, fmt, f1) == MissingKey
    ensures Validate(env, args).Err? ==> Run(env, args, fmt, f1) == Run(env, args, fmt, f2)
  {
  }

  /** Every block opens with its number and name, ends with a blank line,
      and has a Label line exactly when the label is not empty. */
  lemma EntryShape(index: nat, item: Item, fmt: Printf)
    ensures var e := Entry(index, item, fmt);
      && StartsWith(e, Dec(index + 1) + ". ")
      && EndsWith(e, "\n\n")
      && (Empty(item.labelText) <==> e == Title(index, item) + Details(item, Address(item), fmt) + "\n")
  {
    var block := Title(index, item) + Details(item, Address(item), fmt);
    var line := LabelLine(item);
    var e := Entry(index, item, fmt);
    var lead := Dec(index + 1) + ". ";
    assert Title(index, item) == lead + (OrElse(item.name, "N/A") + "\n");
    AppendAssoc(lead, OrElse(item.name, "N/A") + "\n", Details(item, Address(item), fmt));
    AppendAssoc(lead, (OrElse(item.name, "N/A") + "\n") + Details(item, Address(item), fmt), line);
    AppendAssoc(lead, ((OrElse(item.name, "N/A") + "\n") + Details(item, Address(item), fmt)) + line, "\n");
    StartsWithAppend(lead, (((OrElse(item.name, "N/A") + "\n") + Details(item, Address(item), fmt)) + line) + "\n");
    assert block[|block| - 1] == '\n';
    if line == "" {
      assert block + line == block;
      assert e[|e| - 2..] == [block[|block| - 1], '\n'];
    } else {
      assert e[|e| - 2..] == [line[|line| - 1], '\n'];
      assert |e| != |block + "\n"|;
    }
  }

  /** For items, the answer opens with their count and holds one block per
      item in order. */
  lemma ReportBlocks(point: Point, items: seq<Item>, fmt: Printf, k: nat)
    requires k < |items|
    ensures var entries := Entries(items, fmt);
      && StartsWith(Report(point, items, fmt), Count(|items|))
      && Report(point, items, fmt) == Header(|items|, point, fmt) + (Concat(entries[..k]) + entries[k] + Concat(entries[k + 1..]))
  {
    var entries := Entries(items, fmt);
    ConcatAt(entries, k);
    AppendAssoc(Count(|items|), Near(point, fmt), Concat(entries));
    StartsWithAppend(Count(|items|), Near(point, fmt) + Concat(entries));
  }
}
