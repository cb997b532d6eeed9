# mcp-weather-server in Dafny

A model of the core of a Rust weather server. The server offers two tools over the Model Context Protocol:

- **`get_alerts`** takes a two-letter US state code. It fetches the active alerts from the National Weather Service (NWS) API and returns them as text.
- **`get_forecast`** takes a latitude and a longitude:
  - Inside a bounding box that stands for the United States, it looks up the NWS grid point. It then fetches that grid cell's forecast.
  - Everywhere else it fetches a seven-day daily forecast from Open-Meteo.

  Either way the forecast comes back as text.

The model covers two parts of the server:

- **The formatters of `src/formatters.rs`.** These turn a decoded response into the text the tool returns.
- **The request pipeline of `src/service.rs`.** This covers:
  - the status check of `make_request`;
  - the choice of provider;
  - the URLs requested;
  - the mapping of every failure to the error returned to the caller.

## Layout

| file | module | what it holds |
|---|---|---|
| `wrappers.dfy` | `Wrappers` | `Option` and `Result` |
| `models.dfy` | `Models` | the decoded records of `src/models.rs` |
| `constants.dfy` | `Constants` | the two API base URLs |
| `text.dfy` | `Text` | decimal rendering of integers and its parse, lines joined by `'\n'` and split back, `str::contains`, and the float-rendering parameter |
| `formatters.dfy` | `Formatters` | the three formatters as methods with loops, the functions that specify them, and the weather-code table |
| `report_decoding.dfy` | `ReportDecoding` | readers for the three report texts and the round-trip lemmas |
| `service.dfy` | `Service` | `make_request`, `is_us_location`, the URL builders and the four tool handlers as functions |

### Formatters

Each formatter builds its text by appending to a `String` in a loop. Each is therefore a `method` with a `for` loop, and the loop keeps two invariants:

- A ghost list of lines equals the header followed by the blocks of the items handled so far.
- The text equals those lines, each followed by `'\n'`.

Each method is proved equal to a specification function (`AlertsReport`, `ForecastReport`, `OpenMeteoReport`). The specification functions have two kinds of partners:

- lemmas about where each block sits and what it holds;
- a reader for each report, in `ReportDecoding`, with a lemma proving that reading the report gives back the items it was made from.

The readers need every field to be a single line, because a field holding a `'\n'` would split its line in two and change the line structure.

### Service

The handlers hold straight-line code around awaits, so each one is a function. The network and JSON decoding are an oracle, `Upstream`:

- It answers each URL with a `Reply`.
- A `Reply` is either a transport failure with its message, or a status code, a reason phrase and the outcome of decoding.

Each tool function returns a `Call`: its `ToolResult` together with the URLs it requested, in order.

On success a handler returns the report function of its formatter. The formatter's method is proved equal to that function.

`format_open_meteo_forecast` indexes every daily series up to `min(|time|, 7)` and panics when one is shorter. The formatter therefore requires `Indexable`, and the tool answers `Panicked` for such a response.

### Matching on error text

`make_request` returns an `anyhow` error. The only thing the grid point handler sees of it is its text, and it checks whether that text contains `"404"`. The model does the same:

- `MakeRequest` yields the message text.
- `PointsError` tests it with `Contains`.

Two consequences are proved:

- **`NotFoundOnlyAtStatus`.** Take a status failure whose reason phrase has no digits. Its message contains `"404"` exactly when the status is 404.
- **`LookupTransportMentioning404`.** A transport failure whose message happens to contain `"404"` also becomes the "not in coverage" answer. For example, the message may quote a URL with a coordinate like `40.404`.

### The US box and Hawaii

The comment on `is_us_location` mentions Hawaii. The main Hawaiian islands lie south of 24° N (Honolulu at about 21.3° N), so they are routed to Open-Meteo. The north-western islands, from Laysan to Kure Atoll, lie inside the box and go to NWS. `UsBoxBounds` states both. The model keeps the box exactly as written.

## Model

| member | source | states |
|---|---|---|
| Formatters.AlertsReport | src/formatters.rs:4-28 | the alerts text: "No active weather alerts." for no alerts, otherwise the header, then one block per alert numbered from 1, each ending in a blank line; its properties are the lemmas below |
| Formatters.FormatAlerts | src/formatters.rs:4-28 | the text built equals the alerts report; for no alerts it is exactly "No active weather alerts.", otherwise it starts with "Active Weather Alerts:\n\n" |
| Formatters.NoAlertsOnlyWhenEmpty | src/formatters.rs:5-9 | the no-alerts text is produced for the empty list and for no other list |
| Formatters.AlertsReportHeader | src/formatters.rs:9 | a non-empty alerts report starts with its header and blank line |
| Formatters.AlertBlockAt | src/formatters.rs:10-18 | the k-th alert is rendered as block number k+1, between the blocks of the alerts before and after it |
| Formatters.AlertsLinesAppend | src/formatters.rs:10-26 | the blocks of a concatenated list are the blocks of each part, the numbering of the second part continuing from the first |
| Formatters.AlertBlockOptionalLines | src/formatters.rs:19-24 | a block has a Headline line iff the alert has a headline and a Description line iff it has a description, each carrying that field's text |
| Formatters.ForecastReport | src/formatters.rs:31-46 | the forecast text: the header, then a six-line block per period in order; its properties are the lemmas below |
| Formatters.FormatForecast | src/formatters.rs:31-46 | the text built equals the forecast report; with no periods it is just the header "Weather Forecast:\n\n" |
| Formatters.PeriodBlockAt | src/formatters.rs:33-44 | every period is rendered, in order: the k-th period's block sits between the blocks of the periods before and after it |
| Formatters.PeriodsLinesAppend | src/formatters.rs:33-44 | the blocks of a concatenated list of periods are the blocks of each part |
| Formatters.OpenMeteoReport | src/formatters.rs:49-72 | the Open-Meteo text: the four header lines, then a six-line block for each of the first min(7, number of dates) days; its properties are the lemmas below |
| Formatters.FormatOpenMeteoForecast | src/formatters.rs:49-72 | the text built equals the Open-Meteo report of the response |
| Formatters.OnlyFirstWeekRendered | src/formatters.rs:55 | at most 7 days are shown (7, or all when fewer): the report equals the report of the response cut to those days |
| Formatters.DaysLinesAgree | src/formatters.rs:55-69 | the day blocks depend only on the values at the indices shown and the units |
| Formatters.WeatherCodeToDescription | src/formatters.rs:75-92 | the description of a WMO code, arm by arm as the match writes it; `WeatherCodeTable` relates it to the table |
| Formatters.RowDescribes | src/formatters.rs:77-89 | every code a row of the weather-code table lists is described by that row's text |
| Formatters.Unlisted | src/formatters.rs:90 | a code no row lists is "Unknown" |
| Formatters.WeatherCodeTable | src/formatters.rs:75-92 | the description agrees with the table, and it is "Unknown" exactly for the codes the table does not list |
| Formatters.DescriptionIsOneLine | src/formatters.rs:75-92 | every description is a non-empty single line |
| Text.IntToStringRoundTrip | src/formatters.rs:35-37 | the decimal rendering of a temperature reads back as the same integer |
| ReportDecoding.ParseAlertBlockOf | src/formatters.rs:12-25 | one alert block, followed by anything, reads back as that alert's properties and the rest |
| ReportDecoding.AlertsReportRoundTrip | src/formatters.rs:4-28 | reading the alerts report gives back every alert's properties, in order; the empty list reads back as empty |
| ReportDecoding.ParseTemperatureOf | src/formatters.rs:35-38 | the temperature line reads back as the integer and the unit |
| ReportDecoding.ParsePeriodOf | src/formatters.rs:34-43 | one period block reads back as that period's name, temperature, unit, wind, and short and detailed forecasts |
| ReportDecoding.ForecastReportRoundTrip | src/formatters.rs:31-46 | reading the forecast report gives back every period, in order |
| ReportDecoding.ParseDayOf | src/formatters.rs:56-69 | one day block reads back as that day's date, temperature range, conditions, wind speed and precipitation |
| ReportDecoding.DayViewsOfAt | src/formatters.rs:55-69 | entry i of the days read back is the day written for index i |
| ReportDecoding.OpenMeteoReportRoundTrip | src/formatters.rs:49-72 | reading the Open-Meteo report gives back the location, the time zone and exactly the first min(|time|, 7) days, in order |
| ReportDecoding.OpenMeteoConditions | src/formatters.rs:55-58 | the report reads back, and the conditions read back for day k equal the weather-code description of that day's code, which is the text of every table row listing it, and are "Unknown" exactly for unlisted codes; the date is that day's date |
| Service.MakeRequest | src/service.rs:38-47 | a request succeeds iff a response arrived with a 2xx status and a body that decoded, and then yields the decoded value; a transport or decoding failure passes its message on unchanged |
| Service.StatusCheckedFirst | src/service.rs:41-45 | a non-2xx status fails with "Request failed with status: …" whatever the body holds, since the body is not decoded |
| Service.StatusFailure | src/service.rs:42 | the message of a non-2xx reply: "Request failed with status: ", the three digits, a space and the reason phrase; `StatusFailureRoundTrip` reads the status back |
| Service.StatusFailureRoundTrip | src/service.rs:42 | the status code can be read back from the failure message |
| Service.IsUsLocation | src/service.rs:50-53 | the closed box 24 ≤ latitude ≤ 72, -180 ≤ longitude ≤ -60; `UsBoxBounds` and `ForecastRouting` state its consequences |
| Service.UsBoxBounds | src/service.rs:50-53 | the box is closed: its corners (24, -60) and (72, -180) are inside; (23.999, -100) and points just past the other bounds are outside |
| Service.ForecastRouting | src/service.rs:180-195 | exactly one provider is consulted: every URL requested is an NWS URL when the location is in the box and an Open-Meteo URL otherwise |
| Service.NoCoverageErrorAbroad | src/service.rs:190-194 | outside the box the answer is never invalid-params |
| Service.OneProvider | src/constants.rs:5-8 | no URL lies under both API bases |
| Service.PointsUrl | src/service.rs:62-65 | the NWS base, "/points/", the latitude, a comma and the longitude as `Display` writes them; `PointsUrlRoundTrip` reads them back |
| Service.GridForecastUrl | src/service.rs:84-90 | the NWS base, "/gridpoints/", the grid id, "/", x, ",", y and "/forecast"; `GridForecastUrlRoundTrip` reads them back |
| Service.OpenMeteoUrl | src/service.rs:111-114 | the Open-Meteo base with the latitude, the longitude, the five daily series and `timezone=auto` as query; `ForecastRouting` shows it is an Open-Meteo URL |
| Service.AlertsUrl | src/service.rs:164 | the NWS base, "/alerts/active?area=" and the state; `AlertsUrlRoundTrip` reads the state back |
| Service.PointsUrlRoundTrip | src/service.rs:62-65 | the grid point URL carries the latitude and the longitude as written, separated by a comma |
| Service.GridForecastUrlRoundTrip | src/service.rs:84-90 | for every grid identifier, the forecast URL names exactly the identifier and coordinates the lookup returned, reading from the end: y after the last comma, x after the last slash before it |
| Service.GridForecastUrlInjective | src/service.rs:84-90 | different grid cells, whatever their identifiers, are fetched from different URLs |
| Service.AlertsUrlRoundTrip | src/service.rs:164 | the alerts URL is the alerts endpoint followed by the state, unchanged |
| Service.PointsError | src/service.rs:70-81 | invalid-params with the coverage message when the error text contains "404", otherwise internal error "Failed to fetch grid points: " and the text |
| Service.ForecastNws | src/service.rs:56-102 | the grid point lookup, then the forecast of the cell it named; its outcomes are stated by `ForecastAfterLookup` and `ForecastNwsOutcome` |
| Service.ForecastOpenMeteo | src/service.rs:105-129 | one Open-Meteo request, formatted on success; its outcomes are stated by `ForecastOpenMeteoOutcome` |
| Service.GetForecast | src/service.rs:180-195 | NWS inside the box, Open-Meteo outside it; stated by `ForecastRouting` and `NoCoverageErrorAbroad` |
| Service.GetAlerts | src/service.rs:158-176 | one request for the state's alerts, formatted on success; stated by `GetAlertsOutcome` |
| Service.ForecastAfterLookup | src/service.rs:67-97 | the grid point URL is requested first; the forecast is requested iff the lookup succeeded, and then from the cell the lookup named |
| Service.ForecastNwsOutcome | src/service.rs:56-102 | invalid-params iff the lookup failed with a message containing "404"; other lookup failures are "Failed to fetch grid points: …"; a forecast failure is "Failed to fetch forecast: …"; success carries the forecast report; never a panic |
| Service.NotFoundOnlyAtStatus | src/service.rs:70-81 | with a digit-free reason phrase, a status failure's message contains "404" iff the status is 404 |
| Service.LookupNotFound | src/service.rs:67-82 | a 404 on the grid point lookup, whatever its reason phrase, answers invalid-params with the coverage message and requests nothing more |
| Service.LookupFailedStatus | src/service.rs:76-81 | any other failed status of the lookup answers an internal error whose message carries that status |
| Service.LookupTransportMentioning404 | src/service.rs:70-75 | a transport failure whose message contains "404" is also answered as outside coverage |
| Service.ForecastOpenMeteoOutcome | src/service.rs:105-129 | one request; a failure is "Failed to fetch Open-Meteo forecast: …"; an indexable response is formatted; it panics iff a series is too short; never invalid-params |
| Service.GetAlertsOutcome | src/service.rs:158-176 | one request, for the state's URL; success iff the request succeeded, carrying the alerts report; a failure is "Failed to fetch alerts: …" |

## Left out

- `src/main.rs` is not part of this model. It sets up tracing and serves the tools over standard input and output.
- Other parts of `src/service.rs` that are not modelled:
  - `get_info`;
  - the `#[tool]` / `#[tool_router]` / `#[tool_handler]` registration;
  - the `tracing::info!` calls.
- The HTTP client is not modelled:
  - building it with `USER_AGENT`;
  - sending the request;
  - decoding JSON with serde and its field renames.

  All of this is the `Upstream` oracle. A `Reply` carries the transport error's message, the status, the reason phrase and the decoding outcome.
- The text of transport and decoding errors comes from `reqwest`. The model treats it as an arbitrary string.
- Rendering of `f64` is a parameter, `FloatFormat`: `{}` in URLs, and `{:.4}` and `{:.1}` in the Open-Meteo report. Its digits are not modelled. Coordinates and measurements are `real`, so NaN and infinities are out of scope.
- `async` execution, concurrency and the shared `Arc<Client>` are not modelled.
- Formatters.FormatOpenMeteoForecast: requires `Indexable`, because the source panics on a series shorter than the days shown. The tool answers `Panicked` in that case, but what a panic does to the server is not modelled.
- ReportDecoding.AlertsReportRoundTrip: holds only for alerts whose text fields have no `'\n'`. A field holding one changes the line structure the reader relies on.
- ReportDecoding.ForecastReportRoundTrip: holds only for periods whose text fields have no `'\n'`, for the same reason.
- ReportDecoding.OpenMeteoReportRoundTrip: holds only for responses whose dates, time zone and units have no `'\n'` and for float renderings that write none.
- Service.NotFoundOnlyAtStatus: assumes a reason phrase without digits, as the standard reason phrases are.
