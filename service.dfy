/** The request pipeline of the weather tools in src/service.rs: the status
    check of `make_request`, the choice of provider, the URLs requested and
    the mapping of every failure to the error returned to the tool caller.
    The network and JSON decoding are an oracle (`Upstream`) that answers
    each URL with a `Reply`; each tool is a function returning what it
    answers together with the URLs it requested, in order. */
module Service {
  import opened Wrappers
  import opened Text
  import opened Models
  import opened Formatters
  import opened Constants

  // =======================================================================
  // make_request
  // =======================================================================

  /** An HTTP status code as `reqwest::StatusCode` holds it. */
  type StatusCode = n: int | 100 <= n < 1000 witness 200

  /** `StatusCode::is_success`: the 2xx range. */
  predicate IsSuccess(status: StatusCode) {
    200 <= status < 300
  }

  /** What decoding the response body as JSON of the expected record produced. */
  datatype Body<T> = Decoded(value: T) | Undecodable(message: string)

  /** The answer to one GET: either no response (with the transport error's
      message), or a status code, the reason phrase that `StatusCode`'s
      `Display` writes after the number, and the outcome of decoding the body. */
  datatype Reply<T> = Unsent(message: string) | Received(status: StatusCode, reason: string, body: Body<T>)

  const StatusFailurePrefix: string := "Request failed with status: "

  /** The message of a request that came back with a non-success status. */
  function StatusFailure(status: StatusCode, reason: string): string {
    StatusFailurePrefix + NatToString(status) + " " + reason
  }

  /** `make_request`: the status is checked before the body is decoded. */
  function MakeRequest<T>(reply: Reply<T>): (r: Result<T, string>)
    ensures r.Ok? <==> reply.Received? && IsSuccess(reply.status) && reply.body.Decoded?
    ensures r.Ok? ==> r.value == reply.body.value
    ensures reply.Unsent? ==> r == Err(reply.message)
    ensures reply.Received? && IsSuccess(reply.status) && reply.body.Undecodable? ==> r == Err(reply.body.message)
  {
    match reply
    case Unsent(message) => Err(message)
    case Received(status, reason, body) =>
      if !IsSuccess(status) then Err(StatusFailure(status, reason))
      else
        match body
        case Decoded(value) => Ok(value)
        case Undecodable(message) => Err(message)
  }

  /** A failed status decides the outcome whatever the body holds: the body
      is never decoded. */
  lemma StatusCheckedFirst<T>(status: StatusCode, reason: string, body: Body<T>, other: Body<T>)
    requires !IsSuccess(status)
    ensures MakeRequest(Received(status, reason, body)) == MakeRequest(Received(status, reason, other))
    ensures MakeRequest(Received(status, reason, body)) == Err(StatusFailure(status, reason))
  {
  }

  /** The status code read back from a status failure message. */
  function StatusOf(message: string): Option<int> {
    match StripPrefix(StatusFailurePrefix, message)
    case None => None
    case Some(rest) => if |rest| < 3 then None else ParseInt(rest[..3])
  }

  /** The message of a failed status carries the status code: it can be read back. */
  lemma StatusFailureRoundTrip(status: StatusCode, reason: string)
    ensures StatusOf(StatusFailure(status, reason)) == Some(status as int)
  {
    var digits := NatToString(status);
    var rest := digits + " " + reason;
    assert StatusFailure(status, reason) == StatusFailurePrefix + rest;
    StripPrefixOf(StatusFailurePrefix, rest);
    ThreeDigits(status);
    assert rest[..3] == digits;
    NatToStringRoundTrip(status);
  }

  // =======================================================================
  // Provider choice
  // =======================================================================

  /** `is_us_location`: a closed box of latitudes and longitudes. */
  predicate IsUsLocation(latitude: real, longitude: real) {
    24.0 <= latitude <= 72.0 && -180.0 <= longitude <= -60.0
  }

  /** The bounds belong to the box: its corners are inside, and a latitude
      just south of 24 is outside. Honolulu lies south of the box, while
      Kure Atoll, in the north-west of the Hawaiian chain, lies inside it. */
  lemma UsBoxBounds()
    ensures IsUsLocation(24.0, -60.0) && IsUsLocation(72.0, -180.0)
    ensures !IsUsLocation(23.999, -100.0) && !IsUsLocation(72.001, -100.0)
    ensures !IsUsLocation(40.0, -59.999) && !IsUsLocation(40.0, -180.001)
    ensures !IsUsLocation(52.52, 13.41) && IsUsLocation(40.7128, -74.0060)
    ensures !IsUsLocation(21.3, -157.8) && IsUsLocation(28.4, -178.3)
  {
  }

  // =======================================================================
  // URLs
  // =======================================================================

  const PointsPath: string := "/points/"
  const GridPointsPath: string := "/gridpoints/"
  const AlertsPath: string := "/alerts/active?area="
  const OpenMeteoQuery: string := "/forecast?latitude="
  const OpenMeteoDaily: string :=
    "&daily=temperature_2m_max,temperature_2m_min,weather_code,wind_speed_10m_max,precipitation_sum&timezone=auto"

  /** The grid point lookup for a coordinate, written with f64 `Display`. */
  function PointsUrl(fmt: FloatFormat, latitude: real, longitude: real): string {
    NwsApiBase + PointsPath + fmt.display(latitude) + "," + fmt.display(longitude)
  }

  /** The forecast of a grid cell, as named by the grid point lookup. */
  function GridForecastUrl(p: PointsProperties): string {
    NwsApiBase + GridPointsPath + p.gridId + "/" + IntToString(p.gridX) + "," + IntToString(p.gridY) + "/forecast"
  }

  function OpenMeteoUrl(fmt: FloatFormat, latitude: real, longitude: real): string {
    OpenMeteoApiBase + OpenMeteoQuery + fmt.display(latitude) + "&longitude=" + fmt.display(longitude)
    + OpenMeteoDaily
  }

  /** The active alerts of a state; the state code is not validated. */
  function AlertsUrl(state: string): string {
    NwsApiBase + AlertsPath + state
  }

  /** The two coordinates read back from a grid point lookup URL. */
  function ParsePointsUrl(url: string): Option<(string, string)> {
    match StripPrefix(NwsApiBase + PointsPath, url)
    case None => None
    case Some(rest) =>
      var k := IndexOf(rest, ',');
      if k == |rest| then None else Some((rest[..k], rest[k + 1..]))
  }

  lemma PointsUrlRoundTrip(fmt: FloatFormat, latitude: real, longitude: real)
    requires ',' !in fmt.display(latitude)
    ensures ParsePointsUrl(PointsUrl(fmt, latitude, longitude))
         == Some((fmt.display(latitude), fmt.display(longitude)))
  {
    var lat, lon := fmt.display(latitude), fmt.display(longitude);
    var rest := lat + [','] + lon;
    assert PointsUrl(fmt, latitude, longitude) == (NwsApiBase + PointsPath) + rest;
    StripPrefixOf(NwsApiBase + PointsPath, rest);
    IndexOfSplit(lat, ',', lon);
  }

  const ForecastSuffix: string := "/forecast"

  /** The grid cell read back from `id/x,y`, splitting from the end: y
      follows the last ',', x the last '/' before it, and the identifier is
      everything before that '/'. */
  function ParseGridCell(cell: string): Option<PointsProperties> {
    var c := LastIndexOf(cell, ',');
    if c < 0 then None
    else
      var head := cell[..c];
      var k := LastIndexOf(head, '/');
      if k < 0 then None
      else
        match (ParseInt(head[k + 1..]), ParseInt(cell[c + 1..]))
        case (Some(x), Some(y)) =>
          if -0x8000_0000 <= x < 0x8000_0000 && -0x8000_0000 <= y < 0x8000_0000
          then Some(PointsProperties(head[..k], x, y))
          else None
        case _ => None
  }

  /** The grid identifier and coordinates read back from a forecast URL. */
  function ParseGridForecastUrl(url: string): Option<PointsProperties> {
    match StripPrefix(NwsApiBase + GridPointsPath, url)
    case None => None
    case Some(rest) =>
      if |rest| < |ForecastSuffix| || rest[|rest| - |ForecastSuffix|..] != ForecastSuffix then None
      else ParseGridCell(rest[..|rest| - |ForecastSuffix|])
  }

  /** A rendered integer holds neither of the separators of a grid cell. */
  lemma NoSeparators(i: int)
    ensures ',' !in IntToString(i) && '/' !in IntToString(i)
  {
    var s := IntToString(i);
    forall k | 0 <= k < |s|
      ensures s[k] != ',' && s[k] != '/'
    {
    }
  }

  lemma GridCellRoundTrip(p: PointsProperties)
    ensures ParseGridCell(p.gridId + "/" + IntToString(p.gridX) + "," + IntToString(p.gridY)) == Some(p)
  {
    var xs, ys := IntToString(p.gridX), IntToString(p.gridY);
    var head := p.gridId + ['/'] + xs;
    assert p.gridId + "/" + xs + "," + ys == head + [','] + ys;
    NoSeparators(p.gridX);
    NoSeparators(p.gridY);
    LastIndexOfSplit(head, ',', ys);
    LastIndexOfSplit(p.gridId, '/', xs);
    IntToStringRoundTrip(p.gridX);
    IntToStringRoundTrip(p.gridY);
  }

  /** The forecast URL names exactly the grid cell the lookup returned,
      whatever characters its identifier holds. */
  lemma GridForecastUrlRoundTrip(p: PointsProperties)
    ensures ParseGridForecastUrl(GridForecastUrl(p)) == Some(p)
  {
    var cell := p.gridId + "/" + IntToString(p.gridX) + "," + IntToString(p.gridY);
    var rest := cell + ForecastSuffix;
    assert GridForecastUrl(p) == (NwsApiBase + GridPointsPath) + rest;
    StripPrefixOf(NwsApiBase + GridPointsPath, rest);
    assert rest[|rest| - |ForecastSuffix|..] == ForecastSuffix;
    assert rest[..|rest| - |ForecastSuffix|] == cell;
    GridCellRoundTrip(p);
  }

  /** Different grid cells are fetched from different URLs. */
  lemma GridForecastUrlInjective(p: PointsProperties, q: PointsProperties)
    requires GridForecastUrl(p) == GridForecastUrl(q)
    ensures p == q
  {
    GridForecastUrlRoundTrip(p);
    GridForecastUrlRoundTrip(q);
  }

  lemma AlertsUrlRoundTrip(state: string)
    ensures StripPrefix(NwsApiBase + AlertsPath, AlertsUrl(state)) == Some(state)
  {
    StripPrefixOf(NwsApiBase + AlertsPath, state);
  }

  /** Which provider a URL addresses. */
  predicate AtNws(url: string) {
    NwsApiBase <= url
  }

  predicate AtOpenMeteo(url: string) {
    OpenMeteoApiBase <= url
  }

  /** No URL addresses both providers: the hosts differ in their first letter. */
  lemma OneProvider(url: string)
    ensures !(AtNws(url) && AtOpenMeteo(url))
  {
    if AtNws(url) {
      assert url[12] == NwsApiBase[12] == 'w';
      assert OpenMeteoApiBase[12] == 'o';
    }
  }

  lemma NwsUrls(fmt: FloatFormat, latitude: real, longitude: real, p: PointsProperties, state: string)
    ensures AtNws(PointsUrl(fmt, latitude, longitude))
    ensures AtNws(GridForecastUrl(p))
    ensures AtNws(AlertsUrl(state))
  {
    assert PointsUrl(fmt, latitude, longitude)
        == NwsApiBase + (PointsPath + fmt.display(latitude) + "," + fmt.display(longitude));
    assert GridForecastUrl(p) == NwsApiBase + (GridPointsPath + p.gridId + "/" + IntToString(p.gridX) + ","
                                               + IntToString(p.gridY) + "/forecast");
  }

  lemma OpenMeteoUrlAt(fmt: FloatFormat, latitude: real, longitude: real)
    ensures AtOpenMeteo(OpenMeteoUrl(fmt, latitude, longitude))
  {
    var u0 := OpenMeteoApiBase + OpenMeteoQuery;
    var u1 := u0 + fmt.display(latitude);
    var u2 := u1 + "&longitude=";
    var u3 := u2 + fmt.display(longitude);
    PrefixExtended(OpenMeteoApiBase, OpenMeteoApiBase, OpenMeteoQuery);
    PrefixExtended(OpenMeteoApiBase, u0, fmt.display(latitude));
    PrefixExtended(OpenMeteoApiBase, u1, "&longitude=");
    PrefixExtended(OpenMeteoApiBase, u2, fmt.display(longitude));
    PrefixExtended(OpenMeteoApiBase, u3, OpenMeteoDaily);
  }

  // =======================================================================
  // The tools
  // =======================================================================

  /** What a tool call answers: a single text content, or an MCP error of
      kind invalid-params or internal-error, or a panic of the formatter. */
  datatype ToolResult =
    | Success(text: string)
    | InvalidParams(message: string)
    | InternalError(message: string)
    | Panicked

  /** A tool's answer and the URLs it requested, in order. */
  datatype Call = Call(result: ToolResult, requests: seq<string>)

  /** The upstream services, as seen through fetch and decode. */
  datatype Upstream = Upstream(
    points: string -> Reply<PointsResponse>,
    gridForecast: string -> Reply<ForecastResponse>,
    openMeteo: string -> Reply<OpenMeteoResponse>,
    alerts: string -> Reply<AlertResponse>)

  const NotCoveredMessage: string :=
    "Location not found in NWS coverage area. This location may be in US waters not covered by the grid system."
  const GridPointsFailure: string := "Failed to fetch grid points: "
  const ForecastFailure: string := "Failed to fetch forecast: "
  const OpenMeteoFailure: string := "Failed to fetch Open-Meteo forecast: "
  const AlertsFailure: string := "Failed to fetch alerts: "

  /** The error of a failed grid point lookup: decided by whether the
      message text contains "404". */
  function PointsError(e: string): ToolResult {
    if Contains(e, "404") then InvalidParams(NotCoveredMessage) else InternalError(GridPointsFailure + e)
  }

  /** `get_forecast_nws`: the grid point lookup, then the forecast of that grid cell. */
  function ForecastNws(fmt: FloatFormat, up: Upstream, latitude: real, longitude: real): Call {
    var pointsUrl := PointsUrl(fmt, latitude, longitude);
    match MakeRequest(up.points(pointsUrl))
    case Err(e) => Call(PointsError(e), [pointsUrl])
    case Ok(points) =>
      var forecastUrl := GridForecastUrl(points.properties);
      match MakeRequest(up.gridForecast(forecastUrl))
      case Err(e) => Call(InternalError(ForecastFailure + e), [pointsUrl, forecastUrl])
      case Ok(forecast) => Call(Success(ForecastReport(forecast.properties.periods)), [pointsUrl, forecastUrl])
  }

  /** `get_forecast_open_meteo`: one request; formatting panics on a response
      whose series are too short for the days it lists. */
  function ForecastOpenMeteo(fmt: FloatFormat, up: Upstream, latitude: real, longitude: real): Call {
    var url := OpenMeteoUrl(fmt, latitude, longitude);
    match MakeRequest(up.openMeteo(url))
    case Err(e) => Call(InternalError(OpenMeteoFailure + e), [url])
    case Ok(forecast) =>
      Call(if Indexable(forecast.daily) then Success(OpenMeteoReport(fmt, forecast)) else Panicked, [url])
  }

  /** `get_forecast`: NWS inside the US box, Open-Meteo everywhere else. */
  function GetForecast(fmt: FloatFormat, up: Upstream, latitude: real, longitude: real): Call {
    if IsUsLocation(latitude, longitude) then ForecastNws(fmt, up, latitude, longitude)
    else ForecastOpenMeteo(fmt, up, latitude, longitude)
  }

  /** `get_alerts`. */
  function GetAlerts(up: Upstream, state: string): Call {
    var url := AlertsUrl(state);
    match MakeRequest(up.alerts(url))
    case Err(e) => Call(InternalError(AlertsFailure + e), [url])
    case Ok(alerts) => Call(Success(AlertsReport(alerts.features)), [url])
  }

  // =======================================================================
  // Properties of the tools
  // =======================================================================

  /** Exactly one provider is consulted: every URL requested addresses NWS
      when the location is in the US box and Open-Meteo otherwise. */
  lemma ForecastRouting(fmt: FloatFormat, up: Upstream, latitude: real, longitude: real)
    ensures var c := GetForecast(fmt, up, latitude, longitude);
      |c.requests| > 0
      && (forall k :: 0 <= k < |c.requests| ==>
            (AtNws(c.requests[k]) <==> IsUsLocation(latitude, longitude))
            && (AtOpenMeteo(c.requests[k]) <==> !IsUsLocation(latitude, longitude)))
  {
    var c := GetForecast(fmt, up, latitude, longitude);
    if IsUsLocation(latitude, longitude) {
      forall k | 0 <= k < |c.requests|
        ensures AtNws(c.requests[k]) && !AtOpenMeteo(c.requests[k])
      {
        OneProvider(c.requests[k]);
        match MakeRequest(up.points(PointsUrl(fmt, latitude, longitude)))
        case Err(_) =>
          NwsUrls(fmt, latitude, longitude, PointsProperties("", 0, 0), "");
        case Ok(points) =>
          NwsUrls(fmt, latitude, longitude, points.properties, "");
      }
    } else {
      OpenMeteoUrlAt(fmt, latitude, longitude);
      OneProvider(c.requests[0]);
    }
  }

  /** Outside the US box the answer never reports a location outside NWS coverage. */
  lemma NoCoverageErrorAbroad(fmt: FloatFormat, up: Upstream, latitude: real, longitude: real)
    requires !IsUsLocation(latitude, longitude)
    ensures !GetForecast(fmt, up, latitude, longitude).result.InvalidParams?
  {
  }

  /** The forecast of the grid cell is requested if and only if the lookup
      succeeded, and then from the cell the lookup named. */
  lemma ForecastAfterLookup(fmt: FloatFormat, up: Upstream, latitude: real, longitude: real)
    ensures var c := ForecastNws(fmt, up, latitude, longitude);
      var lookup := MakeRequest(up.points(PointsUrl(fmt, latitude, longitude)));
      c.requests[0] == PointsUrl(fmt, latitude, longitude)
      && (|c.requests| == 2 <==> lookup.Ok?)
      && (|c.requests| == 1 <==> lookup.Err?)
      && (lookup.Ok? ==> c.requests[1] == GridForecastUrl(lookup.value.properties))
  {
  }

  /** How the NWS path answers: invalid-params exactly when the lookup failed
      with a message containing "404"; success exactly when both requests
      succeeded, with the formatted forecast; every other failure an internal
      error naming the request that failed. */
  lemma ForecastNwsOutcome(fmt: FloatFormat, up: Upstream, latitude: real, longitude: real)
    ensures var c := ForecastNws(fmt, up, latitude, longitude);
      var lookup := MakeRequest(up.points(PointsUrl(fmt, latitude, longitude)));
      (c.result.InvalidParams? <==> lookup.Err? && Contains(lookup.error, "404"))
      && (c.result.InvalidParams? ==> c.result.message == NotCoveredMessage)
      && (lookup.Err? && !Contains(lookup.error, "404") ==> c.result == InternalError(GridPointsFailure + lookup.error))
      && (lookup.Ok? ==>
            var forecast := MakeRequest(up.gridForecast(GridForecastUrl(lookup.value.properties)));
            (forecast.Err? ==> c.result == InternalError(ForecastFailure + forecast.error))
            && (forecast.Ok? ==> c.result == Success(ForecastReport(forecast.value.properties.periods))))
      && !c.result.Panicked?
  {
  }

  /** "404" occurs in a status failure message only where the status is written. */
  lemma NotFoundOnlyAtStatus(status: StatusCode, reason: string)
    requires NoDigits(reason)
    ensures Contains(StatusFailure(status, reason), "404") <==> status == 404
  {
    var digits := NatToString(status);
    var m := StatusFailure(status, reason);
    ThreeDigits(status);
    assert |StatusFailurePrefix| == 28;
    assert m[28..31] == digits;
    assert m[31] == ' ';
    assert NatToString(404) == "404";
    NatToStringRoundTrip(status);
    NatToStringRoundTrip(404);
    if status == 404 {
      ContainsAt(m, "404", 28);
    } else {
      assert digits != "404";
      forall i | 0 <= i <= |m|
        ensures !("404" <= m[i..])
      {
        if i < 28 {
          assert m[i] == StatusFailurePrefix[i];
          assert !IsDigit(StatusFailurePrefix[i]);
        } else if i == 28 {
          assert m[i..i + 3] == digits;
        } else if i < 32 {
          assert i + 3 > |m| || m[31] != "404"[31 - i];
        } else if i < |m| {
          assert m[i] == reason[i - 32];
        }
      }
      ContainsNowhere(m, "404");
    }
  }

  /** A lookup answered with status 404 ends in invalid-params, without a
      second request. */
  lemma LookupNotFound(fmt: FloatFormat, up: Upstream, latitude: real, longitude: real,
                       reason: string, body: Body<PointsResponse>)
    requires IsUsLocation(latitude, longitude)
    requires up.points(PointsUrl(fmt, latitude, longitude)) == Received(404, reason, body)
    ensures GetForecast(fmt, up, latitude, longitude)
         == Call(InvalidParams(NotCoveredMessage), [PointsUrl(fmt, latitude, longitude)])
  {
    var m := StatusFailure(404, reason);
    assert NatToString(404) == "404";
    assert |StatusFailurePrefix| == 28;
    assert m[28..][..3] == "404";
    ContainsAt(m, "404", 28);
  }

  /** Any other failed status of the lookup ends in an internal error whose
      message carries that status. */
  lemma LookupFailedStatus(fmt: FloatFormat, up: Upstream, latitude: real, longitude: real,
                           status: StatusCode, reason: string, body: Body<PointsResponse>)
    requires IsUsLocation(latitude, longitude)
    requires !IsSuccess(status) && status != 404 && NoDigits(reason)
    requires up.points(PointsUrl(fmt, latitude, longitude)) == Received(status, reason, body)
    ensures var c := GetForecast(fmt, up, latitude, longitude);
      c.result == InternalError(GridPointsFailure + StatusFailure(status, reason))
      && StatusOf(c.result.message[|GridPointsFailure|..]) == Some(status as int)
  {
    NotFoundOnlyAtStatus(status, reason);
    StatusFailureRoundTrip(status, reason);
    var m := GridPointsFailure + StatusFailure(status, reason);
    assert m[|GridPointsFailure|..] == StatusFailure(status, reason);
  }

  /** The text test also fires on a transport failure whose message holds
      "404", for instance one quoting a URL with 40.404 in a coordinate. */
  lemma LookupTransportMentioning404(fmt: FloatFormat, up: Upstream, latitude: real, longitude: real, message: string)
    requires IsUsLocation(latitude, longitude)
    requires up.points(PointsUrl(fmt, latitude, longitude)) == Unsent(message)
    requires Contains(message, "404")
    ensures GetForecast(fmt, up, latitude, longitude).result == InvalidParams(NotCoveredMessage)
  {
  }

  /** The Open-Meteo path: one request; its failure is an internal error;
      a response is formatted unless it is too short to index. */
  lemma ForecastOpenMeteoOutcome(fmt: FloatFormat, up: Upstream, latitude: real, longitude: real)
    ensures var c := ForecastOpenMeteo(fmt, up, latitude, longitude);
      var reply := MakeRequest(up.openMeteo(OpenMeteoUrl(fmt, latitude, longitude)));
      c.requests == [OpenMeteoUrl(fmt, latitude, longitude)]
      && (reply.Err? ==> c.result == InternalError(OpenMeteoFailure + reply.error))
      && (reply.Ok? && Indexable(reply.value.daily) ==> c.result == Success(OpenMeteoReport(fmt, reply.value)))
      && (c.result.Panicked? <==> reply.Ok? && !Indexable(reply.value.daily))
      && !c.result.InvalidParams?
  {
  }

  /** The alerts tool: one request for the state; its failure is an internal
      error; on success the text is the alerts report of the response. */
  lemma GetAlertsOutcome(up: Upstream, state: string)
    ensures var c := GetAlerts(up, state);
      var reply := MakeRequest(up.alerts(AlertsUrl(state)));
      c.requests == [AlertsUrl(state)]
      && (c.result.Success? <==> reply.Ok?)
      && (reply.Ok? ==> c.result.text == AlertsReport(reply.value.features))
      && (reply.Err? ==> c.result == InternalError(AlertsFailure + reply.error))
  {
  }
}
