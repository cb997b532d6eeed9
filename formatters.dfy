/** The three report builders and the WMO weather-code table. Each builder
    appends to a growing `output` string in a loop, as the source does; the
    text it must reach is stated by a specification function as a list of
    lines (every line the source writes ends in '\n'), and the lemmas say
    what that text is made of. The source pushes one `format!` string per
    record; the loops here push the same text one line at a time. */
module Formatters {
  import opened Wrappers
  import opened Text
  import opened Models

  const Degree: string := "\U{00B0}"

  /** Appends one line and its '\n' to the text, keeping a ghost record of
      the lines written so far in step with it. */
  method PushLine(text: string, ghost lines: seq<string>, line: string) returns (text': string, ghost lines': seq<string>)
    requires text == Unlines(lines)
    ensures text' == text + line + "\n"
    ensures lines' == lines + [line] && text' == Unlines(lines')
  {
    text' := text + line + "\n";
    lines' := lines + [line];
    UnlinesSnoc(lines, line);
  }

  // =======================================================================
  // Alerts
  // =======================================================================

  const NoAlertsText: string := "No active weather alerts."
  const AlertsHeaderLines: seq<string> := ["Active Weather Alerts:", ""]

  /** The line for an optional field: one line when present, none when absent. */
  function OptionalLines(prefix: string, field: Option<string>): seq<string> {
    match field
    case Some(v) => [prefix + v]
    case None => []
  }

  /** The lines of the block for the alert numbered n (1-based), ending in a blank line. */
  function AlertBlockLines(n: nat, p: AlertProperties): seq<string> {
    ["Alert " + NatToString(n) + ":", "  Event: " + p.event, "  Severity: " + p.severity, "  Area: " + p.areaDesc]
    + OptionalLines("  Headline: ", p.headline)
    + OptionalLines("  Description: ", p.description)
    + [""]
  }

  /** The blocks of fs, numbered from `first` on, in input order. */
  function AlertsLines(fs: seq<AlertFeature>, first: nat): seq<string> {
    if fs == [] then []
    else AlertsLines(fs[..|fs| - 1], first) + AlertBlockLines(first + |fs| - 1, fs[|fs| - 1].properties)
  }

  function AlertsReport(fs: seq<AlertFeature>): string {
    if |fs| == 0 then NoAlertsText else Unlines(AlertsHeaderLines + AlertsLines(fs, 1))
  }

  method FormatAlerts(alerts: AlertResponse) returns (output: string)
    ensures output == AlertsReport(alerts.features)
    ensures |alerts.features| == 0 ==> output == NoAlertsText
    ensures |alerts.features| > 0 ==> "Active Weather Alerts:\n\n" <= output
  {
    var features := alerts.features;
    if |features| == 0 {
      return NoAlertsText;
    }
    output := "Active Weather Alerts:\n\n";
    ghost var lines := AlertsHeaderLines;
    AlertsHeaderText();
    assert features[..0] == [];
    for i := 0 to |features|
      invariant lines == AlertsHeaderLines + AlertsLines(features[..i], 1)
      invariant output == Unlines(lines)
    {
      output, lines := PushAlert(output, lines, i + 1, features[i].properties);
      AlertsLinesSnoc(features, i, 1);
      Assoc(AlertsHeaderLines, AlertsLines(features[..i], 1), AlertBlockLines(i + 1, features[i].properties));
    }
    assert features[..|features|] == features;
    AlertsReportHeader(features);
  }

  /** One more alert adds its block, numbered after the ones before it. */
  lemma AlertsLinesSnoc(fs: seq<AlertFeature>, i: nat, first: nat)
    requires i < |fs|
    ensures AlertsLines(fs[..i + 1], first) == AlertsLines(fs[..i], first) + AlertBlockLines(i + first, fs[i].properties)
  {
    assert fs[..i + 1][..i] == fs[..i];
    assert fs[..i + 1][i] == fs[i];
  }

  lemma AlertsHeaderText()
    ensures Unlines(AlertsHeaderLines) == "Active Weather Alerts:\n\n"
  {
    var lines := AlertsHeaderLines;
    assert lines[..1] == ["Active Weather Alerts:"];
    assert lines[..1][..0] == [];
  }

  /** A non-empty report starts with its header. */
  lemma AlertsReportHeader(fs: seq<AlertFeature>)
    requires |fs| > 0
    ensures "Active Weather Alerts:\n\n" <= AlertsReport(fs)
  {
    AlertsHeaderText();
    UnlinesAppend(AlertsHeaderLines, AlertsLines(fs, 1));
  }

  /** The pushes for one alert: the four fixed lines, the optional ones, and
      the blank line that ends the block. */
  method PushAlert(text: string, ghost lines: seq<string>, n: nat, props: AlertProperties) returns (text': string, ghost lines': seq<string>)
    requires text == Unlines(lines)
    ensures lines' == lines + AlertBlockLines(n, props) && text' == Unlines(lines')
  {
    var title, event, severity, area := "Alert " + NatToString(n) + ":", "  Event: " + props.event, "  Severity: " + props.severity, "  Area: " + props.areaDesc;
    ghost var head := [title, event, severity, area];
    ghost var h, d := OptionalLines("  Headline: ", props.headline), OptionalLines("  Description: ", props.description);
    text', lines' := PushLine(text, lines, title);
    text', lines' := PushLine(text', lines', event);
    text', lines' := PushLine(text', lines', severity);
    text', lines' := PushLine(text', lines', area);
    Snoc4(lines, title, event, severity, area);
    if props.headline.Some? {
      text', lines' := PushLine(text', lines', "  Headline: " + props.headline.value);
    }
    assert lines' == lines + head + h;
    if props.description.Some? {
      text', lines' := PushLine(text', lines', "  Description: " + props.description.value);
    }
    assert lines' == lines + head + h + d;
    text', lines' := PushLine(text', lines', "");
    Assoc(lines, head + h + d, [""]);
    Assoc(lines, head + h, d);
    Assoc(lines, head, h);
  }

  /** Splitting the alert list splits the lines: the second part's blocks
      continue the numbering where the first part's stop. */
  lemma {:induction false} AlertsLinesAppend(a: seq<AlertFeature>, b: seq<AlertFeature>, first: nat)
    ensures AlertsLines(a + b, first) == AlertsLines(a, first) + AlertsLines(b, first + |a|)
  {
    if b == [] {
      assert a + b == a;
    } else {
      var c := b[..|b| - 1];
      assert (a + b)[..|a + b| - 1] == a + c;
      assert (a + b)[|a + b| - 1] == b[|b| - 1];
      var last := AlertBlockLines(first + |a| + |b| - 1, b[|b| - 1].properties);
      assert AlertsLines(a + b, first) == AlertsLines(a + c, first) + last;
      assert AlertsLines(b, first + |a|) == AlertsLines(c, first + |a|) + last;
      AlertsLinesAppend(a, c, first);
      Assoc(AlertsLines(a, first), AlertsLines(c, first + |a|), last);
    }
  }

  /** The k-th alert (0-based) is rendered as the block numbered k + 1,
      after the blocks of the alerts before it and before those after it. */
  lemma AlertBlockAt(fs: seq<AlertFeature>, k: nat)
    requires k < |fs|
    ensures AlertsReport(fs)
         == Unlines(AlertsHeaderLines + AlertsLines(fs[..k], 1))
          + Unlines(AlertBlockLines(k + 1, fs[k].properties))
          + Unlines(AlertsLines(fs[k + 1..], k + 2))
  {
    var rest := [fs[k]] + fs[k + 1..];
    assert fs == fs[..k] + rest;
    var a, b, c := AlertsLines(fs[..k], 1), AlertBlockLines(k + 1, fs[k].properties), AlertsLines(fs[k + 1..], k + 2);
    AlertsLinesAppend(fs[..k], rest, 1);
    AlertsLinesAppend([fs[k]], fs[k + 1..], k + 1);
    assert [fs[k]][..0] == [];
    assert AlertsLines([fs[k]], k + 1) == b;
    assert AlertsLines(fs, 1) == a + (b + c);
    Assoc(a, b, c);
    Assoc(AlertsHeaderLines, a, b + c);
    Assoc(AlertsHeaderLines + a, b, c);
    UnlinesAppend((AlertsHeaderLines + a) + b, c);
    UnlinesAppend(AlertsHeaderLines + a, b);
  }

  /** The no-alerts text is produced for the empty list and for nothing else. */
  lemma NoAlertsOnlyWhenEmpty(fs: seq<AlertFeature>)
    ensures AlertsReport(fs) == NoAlertsText <==> fs == []
  {
    if fs != [] {
      AlertsReportHeader(fs);
      PrefixChar("Active Weather Alerts:\n\n", AlertsReport(fs), 0);
      assert AlertsReport(fs)[0] != NoAlertsText[0];
    }
  }

  lemma PrefixChar(p: string, s: string, j: nat)
    requires p <= s && j < |p|
    ensures s[j] == p[j]
  {
  }

  predicate HasLineStarting(ls: seq<string>, prefix: string) {
    exists i :: 0 <= i < |ls| && prefix <= ls[i]
  }

  /** A block has a Headline line exactly when the alert has a headline, and
      a Description line exactly when it has a description; such a line
      carries the field's text. Absent fields leave no line at all. */
  lemma AlertBlockOptionalLines(n: nat, p: AlertProperties)
    ensures var ls := AlertBlockLines(n, p);
      && (HasLineStarting(ls, "  Headline: ") <==> p.headline.Some?)
      && (HasLineStarting(ls, "  Description: ") <==> p.description.Some?)
      && (forall i :: 0 <= i < |ls| && "  Headline: " <= ls[i] ==> ls[i] == "  Headline: " + p.headline.value)
      && (forall i :: 0 <= i < |ls| && "  Description: " <= ls[i] ==> ls[i] == "  Description: " + p.description.value)
  {
    var ls := AlertBlockLines(n, p);
    var head := ["Alert " + NatToString(n) + ":", "  Event: " + p.event, "  Severity: " + p.severity, "  Area: " + p.areaDesc];
    var h, d := OptionalLines("  Headline: ", p.headline), OptionalLines("  Description: ", p.description);
    assert ls == head + h + d + [""];
    forall i | 0 <= i < |ls|
      ensures "  Headline: " <= ls[i] ==> p.headline.Some? && ls[i] == "  Headline: " + p.headline.value
      ensures "  Description: " <= ls[i] ==> p.description.Some? && ls[i] == "  Description: " + p.description.value
    {
      if "  Headline: " <= ls[i] {
        PrefixChar("  Headline: ", ls[i], 2);
      }
      if "  Description: " <= ls[i] {
        PrefixChar("  Description: ", ls[i], 2);
      }
      if i < 4 {
        assert ls[i] == head[i];
        assert ls[i][2] in {'e', 'E', 'S', 'A'};
      } else if i < 4 + |h| {
        assert ls[i] == h[i - 4];
      } else if i < 4 + |h| + |d| {
        assert ls[i] == d[i - 4 - |h|];
      } else {
        assert ls[i] == "";
      }
    }
    if p.headline.Some? {
      assert "  Headline: " <= ls[4];
    }
    if p.description.Some? {
      assert "  Description: " <= ls[4 + |h|];
    }
  }

  // =======================================================================
  // National Weather Service forecast
  // =======================================================================

  const ForecastHeaderLines: seq<string> := ["Weather Forecast:", ""]

  function PeriodLines(p: ForecastPeriod): seq<string> {
    [ p.name + ":",
      "  Temperature: " + (IntToString(p.temperature) + Degree + p.temperatureUnit),
      "  Wind: " + (p.windSpeed + " " + p.windDirection),
      "  Conditions: " + p.shortForecast,
      "  Details: " + p.detailedForecast,
      "" ]
  }

  function PeriodsLines(ps: seq<ForecastPeriod>): seq<string> {
    if ps == [] then [] else PeriodsLines(ps[..|ps| - 1]) + PeriodLines(ps[|ps| - 1])
  }

  function ForecastReport(ps: seq<ForecastPeriod>): string {
    Unlines(ForecastHeaderLines + PeriodsLines(ps))
  }

  lemma ForecastHeaderText()
    ensures Unlines(ForecastHeaderLines) == "Weather Forecast:\n\n"
  {
    var lines := ForecastHeaderLines;
    assert lines[..1] == ["Weather Forecast:"];
    assert lines[..1][..0] == [];
  }

  method FormatForecast(forecast: ForecastResponse) returns (output: string)
    ensures output == ForecastReport(forecast.properties.periods)
    ensures forecast.properties.periods == [] ==> output == "Weather Forecast:\n\n"
  {
    var periods := forecast.properties.periods;
    output := "Weather Forecast:\n\n";
    ghost var lines := ForecastHeaderLines;
    ForecastHeaderText();
    assert periods[..0] == [];
    assert lines == ForecastHeaderLines + PeriodsLines(periods[..0]);
    for i := 0 to |periods|
      invariant lines == ForecastHeaderLines + PeriodsLines(periods[..i])
      invariant output == Unlines(lines)
    {
      output, lines := PushPeriod(output, lines, periods[i]);
      PeriodsLinesSnoc(periods, i);
      Assoc(ForecastHeaderLines, PeriodsLines(periods[..i]), PeriodLines(periods[i]));
    }
    assert periods[..|periods|] == periods;
  }

  /** The `push_str(&format!(..))` of one period: its six lines. */
  method PushPeriod(text: string, ghost lines: seq<string>, period: ForecastPeriod) returns (text': string, ghost lines': seq<string>)
    requires text == Unlines(lines)
    ensures lines' == lines + PeriodLines(period) && text' == Unlines(lines')
  {
    var name := period.name + ":";
    var temperature := "  Temperature: " + (IntToString(period.temperature) + Degree + period.temperatureUnit);
    var wind := "  Wind: " + (period.windSpeed + " " + period.windDirection);
    var conditions := "  Conditions: " + period.shortForecast;
    var details := "  Details: " + period.detailedForecast;
    text', lines' := PushLine(text, lines, name);
    text', lines' := PushLine(text', lines', temperature);
    text', lines' := PushLine(text', lines', wind);
    text', lines' := PushLine(text', lines', conditions);
    text', lines' := PushLine(text', lines', details);
    text', lines' := PushLine(text', lines', "");
    Snoc6(lines, name, temperature, wind, conditions, details, "");
  }

  lemma PeriodsLinesSnoc(ps: seq<ForecastPeriod>, i: nat)
    requires i < |ps|
    ensures PeriodsLines(ps[..i + 1]) == PeriodsLines(ps[..i]) + PeriodLines(ps[i])
  {
    assert ps[..i + 1][..i] == ps[..i];
    assert ps[..i + 1][i] == ps[i];
  }

  lemma {:induction false} PeriodsLinesAppend(a: seq<ForecastPeriod>, b: seq<ForecastPeriod>)
    ensures PeriodsLines(a + b) == PeriodsLines(a) + PeriodsLines(b)
  {
    if b == [] {
      assert a + b == a;
    } else {
      var c := b[..|b| - 1];
      assert (a + b)[..|a + b| - 1] == a + c;
      assert (a + b)[|a + b| - 1] == b[|b| - 1];
      var last := PeriodLines(b[|b| - 1]);
      assert PeriodsLines(a + b) == PeriodsLines(a + c) + last;
      assert PeriodsLines(b) == PeriodsLines(c) + last;
      PeriodsLinesAppend(a, c);
      Assoc(PeriodsLines(a), PeriodsLines(c), last);
    }
  }

  /** Every period is rendered and none is dropped: the k-th period's block
      sits between the blocks of the periods before and after it. */
  lemma PeriodBlockAt(ps: seq<ForecastPeriod>, k: nat)
    requires k < |ps|
    ensures ForecastReport(ps)
         == Unlines(ForecastHeaderLines + PeriodsLines(ps[..k])) + Unlines(PeriodLines(ps[k])) + Unlines(PeriodsLines(ps[k + 1..]))
  {
    var rest := [ps[k]] + ps[k + 1..];
    assert ps == ps[..k] + rest;
    var a, b, c := PeriodsLines(ps[..k]), PeriodLines(ps[k]), PeriodsLines(ps[k + 1..]);
    PeriodsLinesAppend(ps[..k], rest);
    PeriodsLinesAppend([ps[k]], ps[k + 1..]);
    assert [ps[k]][..0] == [];
    assert PeriodsLines([ps[k]]) == b;
    assert PeriodsLines(ps) == a + (b + c);
    Assoc(a, b, c);
    Assoc(ForecastHeaderLines, a, b + c);
    Assoc(ForecastHeaderLines + a, b, c);
    UnlinesAppend((ForecastHeaderLines + a) + b, c);
    UnlinesAppend(ForecastHeaderLines + a, b);
  }

  // =======================================================================
  // Open-Meteo forecast
  // =======================================================================

  const MaxDays: nat := 7

  /** min(|time|, 7): the number of days that are rendered. */
  function DaysShown(d: DailyData): nat {
    if |d.time| < MaxDays then |d.time| else MaxDays
  }

  /** Every series the loop indexes is long enough for the days rendered;
      otherwise the source's indexing panics. */
  predicate Indexable(d: DailyData) {
    var n := DaysShown(d);
    n <= |d.weatherCode| && n <= |d.temperatureMin| && n <= |d.temperatureMax|
    && n <= |d.windSpeedMax| && n <= |d.precipitationSum|
  }

  function OpenMeteoHeaderLines(fmt: FloatFormat, r: OpenMeteoResponse): seq<string> {
    [ "Weather Forecast (Open-Meteo)",
      "Location: " + (fmt.fixed(r.latitude, 4) + ", " + fmt.fixed(r.longitude, 4)),
      "Timezone: " + r.timezone,
      "" ]
  }

  /** The lines of day i; the minimum temperature is written with the unit
      of the maximum temperature series. */
  function DayLines(fmt: FloatFormat, r: OpenMeteoResponse, i: nat): seq<string>
    requires Indexable(r.daily) && i < DaysShown(r.daily)
  {
    var d := r.daily;
    DayBlock(fmt, r.dailyUnits, d.time[i], d.temperatureMin[i], d.temperatureMax[i], d.weatherCode[i],
             d.windSpeedMax[i], d.precipitationSum[i])
  }

  /** The six lines of one day, from that day's values. */
  function DayBlock(fmt: FloatFormat, u: DailyUnits, date: string, tempMin: real, tempMax: real, code: Int32,
                    windSpeed: real, precipitation: real): (ls: seq<string>)
    ensures |ls| == 6
  {
    [ date + ":",
      "  Temperature: " + (fmt.fixed(tempMin, 1) + Degree + u.temperatureMax
                           + " - " + fmt.fixed(tempMax, 1) + Degree + u.temperatureMax),
      "  Conditions: " + WeatherCodeToDescription(code),
      "  Wind Speed: " + (fmt.fixed(windSpeed, 1) + " " + u.windSpeedMax),
      "  Precipitation: " + (fmt.fixed(precipitation, 1) + " " + u.precipitationSum),
      "" ]
  }

  /** The blocks of days 0 .. n-1, in index order. */
  function DaysLines(fmt: FloatFormat, r: OpenMeteoResponse, n: nat): seq<string>
    requires Indexable(r.daily) && n <= DaysShown(r.daily)
  {
    if n == 0 then [] else DaysLines(fmt, r, n - 1) + DayLines(fmt, r, n - 1)
  }

  function OpenMeteoReport(fmt: FloatFormat, r: OpenMeteoResponse): string
    requires Indexable(r.daily)
  {
    Unlines(OpenMeteoHeaderLines(fmt, r) + DaysLines(fmt, r, DaysShown(r.daily)))
  }

  method FormatOpenMeteoForecast(fmt: FloatFormat, forecast: OpenMeteoResponse) returns (output: string)
    requires Indexable(forecast.daily)
    ensures output == OpenMeteoReport(fmt, forecast)
  {
    ghost var lines;
    output, lines := PushOpenMeteoHeader(fmt, forecast);
    assert lines == OpenMeteoHeaderLines(fmt, forecast) + DaysLines(fmt, forecast, 0);
    var n := if |forecast.daily.time| < MaxDays then |forecast.daily.time| else MaxDays;
    for i := 0 to n
      invariant lines == OpenMeteoHeaderLines(fmt, forecast) + DaysLines(fmt, forecast, i)
      invariant output == Unlines(lines)
    {
      output, lines := PushDay(fmt, output, lines, forecast, i);
    }
  }

  /** The four header lines written before the first day. */
  method PushOpenMeteoHeader(fmt: FloatFormat, forecast: OpenMeteoResponse) returns (text: string, ghost lines: seq<string>)
    ensures lines == OpenMeteoHeaderLines(fmt, forecast) && text == Unlines(lines)
  {
    var location := "Location: " + (fmt.fixed(forecast.latitude, 4) + ", " + fmt.fixed(forecast.longitude, 4));
    var timezone := "Timezone: " + forecast.timezone;
    text, lines := PushLine("", [], "Weather Forecast (Open-Meteo)");
    text, lines := PushLine(text, lines, location);
    text, lines := PushLine(text, lines, timezone);
    text, lines := PushLine(text, lines, "");
    Snoc4([], "Weather Forecast (Open-Meteo)", location, timezone, "");
  }

  /** The push for day i: its six lines extend the report by one day. */
  method PushDay(fmt: FloatFormat, text: string, ghost lines: seq<string>, forecast: OpenMeteoResponse, i: nat)
    returns (text': string, ghost lines': seq<string>)
    requires Indexable(forecast.daily) && i < DaysShown(forecast.daily)
    requires text == Unlines(lines) && lines == OpenMeteoHeaderLines(fmt, forecast) + DaysLines(fmt, forecast, i)
    ensures lines' == OpenMeteoHeaderLines(fmt, forecast) + DaysLines(fmt, forecast, i + 1) && text' == Unlines(lines')
  {
    var d, u := forecast.daily, forecast.dailyUnits;
    var weatherDesc := WeatherCodeToDescription(d.weatherCode[i]);
    var date := d.time[i] + ":";
    var temperature := "  Temperature: " + (fmt.fixed(d.temperatureMin[i], 1) + Degree + u.temperatureMax
                                            + " - " + fmt.fixed(d.temperatureMax[i], 1) + Degree + u.temperatureMax);
    var conditions := "  Conditions: " + weatherDesc;
    var wind := "  Wind Speed: " + (fmt.fixed(d.windSpeedMax[i], 1) + " " + u.windSpeedMax);
    var precipitation := "  Precipitation: " + (fmt.fixed(d.precipitationSum[i], 1) + " " + u.precipitationSum);
    text', lines' := PushLine(text, lines, date);
    text', lines' := PushLine(text', lines', temperature);
    text', lines' := PushLine(text', lines', conditions);
    text', lines' := PushLine(text', lines', wind);
    text', lines' := PushLine(text', lines', precipitation);
    text', lines' := PushLine(text', lines', "");
    Snoc6(lines, date, temperature, conditions, wind, precipitation, "");
    Assoc(OpenMeteoHeaderLines(fmt, forecast), DaysLines(fmt, forecast, i), DayLines(fmt, forecast, i));
  }

  /** The first n entries of every daily series. */
  function FirstDays(d: DailyData, n: nat): DailyData
    requires n <= |d.time| && n <= |d.weatherCode| && n <= |d.temperatureMin| && n <= |d.temperatureMax|
    requires n <= |d.windSpeedMax| && n <= |d.precipitationSum|
  {
    DailyData(d.time[..n], d.temperatureMax[..n], d.temperatureMin[..n], d.weatherCode[..n],
              d.windSpeedMax[..n], d.precipitationSum[..n])
  }

  /** r and s hold the same values at day i. */
  predicate SameDay(r: DailyData, s: DailyData, i: nat) {
    && i < |r.time| && i < |s.time| && r.time[i] == s.time[i]
    && i < |r.temperatureMin| && i < |s.temperatureMin| && r.temperatureMin[i] == s.temperatureMin[i]
    && i < |r.temperatureMax| && i < |s.temperatureMax| && r.temperatureMax[i] == s.temperatureMax[i]
    && i < |r.weatherCode| && i < |s.weatherCode| && r.weatherCode[i] == s.weatherCode[i]
    && i < |r.windSpeedMax| && i < |s.windSpeedMax| && r.windSpeedMax[i] == s.windSpeedMax[i]
    && i < |r.precipitationSum| && i < |s.precipitationSum| && r.precipitationSum[i] == s.precipitationSum[i]
  }

  lemma {:induction false} DaysLinesAgree(fmt: FloatFormat, r: OpenMeteoResponse, s: OpenMeteoResponse, n: nat)
    requires Indexable(r.daily) && Indexable(s.daily) && n <= DaysShown(r.daily) && n <= DaysShown(s.daily)
    requires r.dailyUnits == s.dailyUnits
    requires forall i :: 0 <= i < n ==> SameDay(r.daily, s.daily, i)
    ensures DaysLines(fmt, r, n) == DaysLines(fmt, s, n)
  {
    if n > 0 {
      DaysLinesAgree(fmt, r, s, n - 1);
      assert SameDay(r.daily, s.daily, n - 1);
      assert DayLines(fmt, r, n - 1) == DayLines(fmt, s, n - 1);
    }
  }

  /** Days after the seventh never reach the text: the report of a response
      equals the report of the same response cut down to its first
      min(7, |time|) days. */
  lemma OnlyFirstWeekRendered(fmt: FloatFormat, r: OpenMeteoResponse)
    requires Indexable(r.daily)
    ensures var n := DaysShown(r.daily);
      n <= 7 && (n == 7 || n == |r.daily.time|) &&
      OpenMeteoReport(fmt, r) == OpenMeteoReport(fmt, r.(daily := FirstDays(r.daily, n)))
  {
    var n := DaysShown(r.daily);
    var s := r.(daily := FirstDays(r.daily, n));
    assert DaysShown(s.daily) == n;
    assert forall i :: 0 <= i < n ==> SameDay(r.daily, s.daily, i);
    DaysLinesAgree(fmt, r, s, n);
  }

  // =======================================================================
  // WMO weather interpretation codes (code table 4677, as Open-Meteo serves them)
  // =======================================================================

  /** One row of the code table: a description and the codes it covers. */
  datatype WmoGroup = WmoGroup(description: string, codes: set<int>)

  /** The codes the table names, grouped by the description they get. */
  const WmoTable: seq<WmoGroup> := [
    WmoGroup("Clear sky", {0}),
    WmoGroup("Mainly clear", {1}),
    WmoGroup("Partly cloudy", {2}),
    WmoGroup("Overcast", {3}),
    WmoGroup("Foggy", {45, 48}),
    WmoGroup("Drizzle", {51, 53, 55}),
    WmoGroup("Rain", {61, 63, 65}),
    WmoGroup("Snow", {71, 73, 75}),
    WmoGroup("Snow grains", {77}),
    WmoGroup("Rain showers", {80, 81, 82}),
    WmoGroup("Snow showers", {85, 86}),
    WmoGroup("Thunderstorm", {95}),
    WmoGroup("Thunderstorm with hail", {96, 99})]

  /** Some row of the table lists the code. */
  predicate Listed(code: int) {
    exists k :: 0 <= k < |WmoTable| && code in WmoTable[k].codes
  }

  /** The description of a WMO weather code; the facts relating it to the
      table above are stated by the lemmas after it. */
  function WeatherCodeToDescription(code: Int32): string {
    match code
    case 0 => "Clear sky"
    case 1 => "Mainly clear"
    case 2 => "Partly cloudy"
    case 3 => "Overcast"
    case 45 | 48 => "Foggy"
    case 51 | 53 | 55 => "Drizzle"
    case 61 | 63 | 65 => "Rain"
    case 71 | 73 | 75 => "Snow"
    case 77 => "Snow grains"
    case 80 | 81 | 82 => "Rain showers"
    case 85 | 86 => "Snow showers"
    case 95 => "Thunderstorm"
    case 96 | 99 => "Thunderstorm with hail"
    case _ => "Unknown"
  }

  /** Each row's codes get that row's description, a single line other
      than "Unknown". */
  lemma RowDescribes(k: nat, code: Int32)
    requires k < |WmoTable| && code in WmoTable[k].codes
    ensures WeatherCodeToDescription(code) == WmoTable[k].description
  {
    var t := WmoTable;
    match k
    case 0 => assert t[0] == WmoGroup("Clear sky", {0});
    case 1 => assert t[1] == WmoGroup("Mainly clear", {1});
    case 2 => assert t[2] == WmoGroup("Partly cloudy", {2});
    case 3 => assert t[3] == WmoGroup("Overcast", {3});
    case 4 => assert t[4] == WmoGroup("Foggy", {45, 48});
    case 5 => assert t[5] == WmoGroup("Drizzle", {51, 53, 55});
    case 6 => assert t[6] == WmoGroup("Rain", {61, 63, 65});
    case 7 => assert t[7] == WmoGroup("Snow", {71, 73, 75});
    case 8 => assert t[8] == WmoGroup("Snow grains", {77});
    case 9 => assert t[9] == WmoGroup("Rain showers", {80, 81, 82});
    case 10 => assert t[10] == WmoGroup("Snow showers", {85, 86});
    case 11 => assert t[11] == WmoGroup("Thunderstorm", {95});
    case 12 => assert t[12] == WmoGroup("Thunderstorm with hail", {96, 99});
  }

  lemma RowText(k: nat)
    requires k < |WmoTable|
    ensures WmoTable[k].description != "Unknown" && WmoTable[k].description != "" && NoNewline(WmoTable[k].description)
  {
    var d := WmoTable[k].description;
    assert d[0] != '\n';
  }

  /** A code no row lists is "Unknown". */
  lemma Unlisted(code: Int32)
    requires !Listed(code)
    ensures WeatherCodeToDescription(code) == "Unknown"
  {
    var t := WmoTable;
    assert code !in t[0].codes && code !in t[1].codes && code !in t[2].codes && code !in t[3].codes;
    assert code !in t[4].codes && code !in t[5].codes && code !in t[6].codes && code !in t[7].codes;
    assert code !in t[8].codes && code !in t[9].codes && code !in t[10].codes && code !in t[11].codes;
    assert code !in t[12].codes;
  }

  /** The function agrees with the table: a listed code gets its row's
      description, and exactly the unlisted codes are "Unknown". */
  lemma WeatherCodeTable(code: Int32)
    ensures forall k :: 0 <= k < |WmoTable| && code in WmoTable[k].codes ==> WeatherCodeToDescription(code) == WmoTable[k].description
    ensures WeatherCodeToDescription(code) == "Unknown" <==> !Listed(code)
  {
    forall k | 0 <= k < |WmoTable| && code in WmoTable[k].codes
      ensures WeatherCodeToDescription(code) == WmoTable[k].description
    {
      RowDescribes(k, code);
    }
    if Listed(code) {
      var k :| 0 <= k < |WmoTable| && code in WmoTable[k].codes;
      RowDescribes(k, code);
      RowText(k);
    } else {
      Unlisted(code);
    }
  }

  /** A description is one non-empty line. */
  lemma DescriptionIsOneLine(code: Int32)
    ensures WeatherCodeToDescription(code) != "" && NoNewline(WeatherCodeToDescription(code))
  {
    if Listed(code) {
      var k :| 0 <= k < |WmoTable| && code in WmoTable[k].codes;
      RowDescribes(k, code);
      RowText(k);
    } else {
      Unlisted(code);
    }
  }
}
