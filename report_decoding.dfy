/*
  Readers of the three reports. Each one takes a report's text back to the
  values it was rendered from, and each round-trip lemma shows that the
  renderer in Formatters loses nothing a reader of the text needs: every
  alert or period or day is rendered, in order, with its own fields, and
  with nothing else in between. Fields are required to be single lines,
  since a newline inside a field cannot be told apart from a line break.
*/
module ReportDecoding {
  import opened Wrappers
  import opened Text
  import opened Models
  import opened Formatters

  /** A line "<name>:" gives back the name. */
  function StripColon(s: string): (r: Option<string>)
    ensures r.Some? ==> s == r.value + ":"
  {
    if |s| > 0 && s[|s| - 1] == ':' then Some(s[..|s| - 1]) else None
  }

  lemma StripColonOf(x: string)
    ensures StripColon(x + ":") == Some(x)
  {
    assert (x + ":")[..|x|] == x;
  }

  lemma AllNoNewlineAppend(a: seq<string>, b: seq<string>)
    requires AllNoNewline(a) && AllNoNewline(b)
    ensures AllNoNewline(a + b)
  {
    forall i | 0 <= i < |a + b|
      ensures NoNewline((a + b)[i])
    {
      if i < |a| {
        assert (a + b)[i] == a[i];
      } else {
        assert (a + b)[i] == b[i - |a|];
      }
    }
  }

  // =======================================================================
  // Alerts
  // =======================================================================

  predicate AlertIsOneLine(p: AlertProperties) {
    NoNewline(p.event) && NoNewline(p.severity) && NoNewline(p.areaDesc)
    && (p.headline.Some? ==> NoNewline(p.headline.value))
    && (p.description.Some? ==> NoNewline(p.description.value))
  }

  /** The properties of the features, in order. */
  function PropertiesOf(fs: seq<AlertFeature>): (ps: seq<AlertProperties>)
    ensures |ps| == |fs|
    ensures forall i :: 0 <= i < |fs| ==> ps[i] == fs[i].properties
  {
    if fs == [] then [] else [fs[0].properties] + PropertiesOf(fs[1..])
  }

  /** An optional labelled line: present when the next line carries the label. */
  function ParseOptional(prefix: string, ls: seq<string>): (r: (Option<string>, seq<string>))
    ensures |r.1| <= |ls|
  {
    if |ls| > 0 && prefix <= ls[0] then (Some(ls[0][|prefix|..]), ls[1..]) else (None, ls)
  }

  /** One block "Alert <n>:" .. "", and the lines after it. */
  function ParseAlertBlock(ls: seq<string>, n: nat): (r: Option<(AlertProperties, seq<string>)>)
    ensures r.Some? ==> |r.value.1| < |ls|
  {
    if |ls| < 4 || ls[0] != "Alert " + NatToString(n) + ":" then None
    else
      var event, severity, area := StripPrefix("  Event: ", ls[1]), StripPrefix("  Severity: ", ls[2]), StripPrefix("  Area: ", ls[3]);
      var (headline, afterHeadline) := ParseOptional("  Headline: ", ls[4..]);
      var (description, afterDescription) := ParseOptional("  Description: ", afterHeadline);
      if event.None? || severity.None? || area.None? || afterDescription == [] || afterDescription[0] != "" then None
      else Some((AlertProperties(event.value, headline, description, severity.value, area.value), afterDescription[1..]))
  }

  /** Consecutive blocks numbered n, n+1, ..., up to the end of the lines. */
  function ParseAlertBlocks(ls: seq<string>, n: nat): Option<seq<AlertProperties>>
    decreases |ls|
  {
    if ls == [] then Some([])
    else match ParseAlertBlock(ls, n)
      case None => None
      case Some((p, rest)) =>
        match ParseAlertBlocks(rest, n + 1)
        case None => None
        case Some(ps) => Some([p] + ps)
  }

  function DecodeAlertsReport(text: string): Option<seq<AlertProperties>> {
    if text == NoAlertsText then Some([])
    else
      var ls := SplitLines(text);
      if |ls| >= 2 && ls[..2] == AlertsHeaderLines then ParseAlertBlocks(ls[2..], 1) else None
  }

  lemma ParseOptionalOf(prefix: string, field: Option<string>, rest: seq<string>)
    requires |rest| > 0 ==> !(prefix <= rest[0])
    requires field.None? || |prefix| > 0
    ensures ParseOptional(prefix, OptionalLines(prefix, field) + rest) == (field, rest)
  {
    if field.Some? {
      var l := prefix + field.value;
      assert OptionalLines(prefix, field) + rest == [l] + rest;
      assert l[..|prefix|] == prefix;
      assert l[|prefix|..] == field.value;
      assert ([l] + rest)[1..] == rest;
    } else {
      assert OptionalLines(prefix, field) + rest == rest;
    }
  }

  lemma ParseAlertBlockOf(n: nat, p: AlertProperties, rest: seq<string>)
    ensures ParseAlertBlock(AlertBlockLines(n, p) + rest, n) == Some((p, rest))
  {
    var h, d := OptionalLines("  Headline: ", p.headline), OptionalLines("  Description: ", p.description);
    var head := ["Alert " + NatToString(n) + ":", "  Event: " + p.event, "  Severity: " + p.severity, "  Area: " + p.areaDesc];
    var ls := AlertBlockLines(n, p) + rest;
    assert ls == head + (h + (d + ([""] + rest)));
    assert ls[4..] == h + (d + ([""] + rest));
    StripPrefixOf("  Event: ", p.event);
    StripPrefixOf("  Severity: ", p.severity);
    StripPrefixOf("  Area: ", p.areaDesc);
    assert ls[1] == "  Event: " + p.event;
    assert ls[2] == "  Severity: " + p.severity;
    assert ls[3] == "  Area: " + p.areaDesc;
    var afterH := d + ([""] + rest);
    assert |afterH| > 0 ==> !("  Headline: " <= afterH[0]) by {
      if |d| > 0 {
        assert afterH[0] == "  Description: " + p.description.value;
        assert afterH[0][2] == 'D';
      } else {
        assert afterH[0] == "";
      }
    }
    ParseOptionalOf("  Headline: ", p.headline, afterH);
    ParseOptionalOf("  Description: ", p.description, [""] + rest);
    assert ([""] + rest)[1..] == rest;
  }

  /** The front block of a run of alerts. */
  lemma AlertsLinesCons(fs: seq<AlertFeature>, first: nat)
    requires |fs| > 0
    ensures AlertsLines(fs, first) == AlertBlockLines(first, fs[0].properties) + AlertsLines(fs[1..], first + 1)
  {
    assert fs == [fs[0]] + fs[1..];
    AlertsLinesAppend([fs[0]], fs[1..], first);
    assert [fs[0]][..0] == [];
  }

  lemma {:induction false} ParseAlertsLines(fs: seq<AlertFeature>, first: nat)
    ensures ParseAlertBlocks(AlertsLines(fs, first), first) == Some(PropertiesOf(fs))
    decreases |fs|
  {
    if fs != [] {
      AlertsLinesCons(fs, first);
      ParseAlertBlockOf(first, fs[0].properties, AlertsLines(fs[1..], first + 1));
      ParseAlertsLines(fs[1..], first + 1);
      assert AlertBlockLines(first, fs[0].properties) != [];
    }
  }

  lemma AlertBlockOneLine(n: nat, p: AlertProperties)
    requires AlertIsOneLine(p)
    ensures AllNoNewline(AlertBlockLines(n, p))
  {
    var ls := AlertBlockLines(n, p);
    assert NoNewline(NatToString(n)) by {
      var s := NatToString(n);
      forall i | 0 <= i < |s| ensures s[i] != '\n' {
        assert IsDigit(s[i]);
      }
    }
    forall i | 0 <= i < |ls| ensures NoNewline(ls[i]) {
    }
  }

  lemma {:induction false} AlertsLinesOneLine(fs: seq<AlertFeature>, first: nat)
    requires forall i :: 0 <= i < |fs| ==> AlertIsOneLine(fs[i].properties)
    ensures AllNoNewline(AlertsLines(fs, first))
  {
    if fs != [] {
      AlertsLinesOneLine(fs[..|fs| - 1], first);
      AlertBlockOneLine(first + |fs| - 1, fs[|fs| - 1].properties);
      AllNoNewlineAppend(AlertsLines(fs[..|fs| - 1], first), AlertBlockLines(first + |fs| - 1, fs[|fs| - 1].properties));
    }
  }

  lemma AlertsHeaderOneLine()
    ensures AllNoNewline(AlertsHeaderLines)
  {
    var h := AlertsHeaderLines;
    assert NoNewline(h[0]) by {
      forall i | 0 <= i < |h[0]| ensures h[0][i] != '\n' {
        assert h[0][i] in "Active Weather Alerts:";
      }
    }
  }

  /** Reading the alerts report gives back every alert's properties, in
      order, numbered from 1; an empty alert list reads back as empty. */
  lemma {:induction false} AlertsReportRoundTrip(fs: seq<AlertFeature>)
    requires forall i :: 0 <= i < |fs| ==> AlertIsOneLine(fs[i].properties)
    ensures DecodeAlertsReport(AlertsReport(fs)) == Some(PropertiesOf(fs))
  {
    if fs != [] {
      NoAlertsOnlyWhenEmpty(fs);
      var ls := AlertsHeaderLines + AlertsLines(fs, 1);
      AlertsLinesOneLine(fs, 1);
      AlertsHeaderOneLine();
      AllNoNewlineAppend(AlertsHeaderLines, AlertsLines(fs, 1));
      SplitUnlines(ls);
      assert ls[..2] == AlertsHeaderLines;
      assert ls[2..] == AlertsLines(fs, 1);
      ParseAlertsLines(fs, 1);
    }
  }

  // =======================================================================
  // NWS forecast
  // =======================================================================

  /** What a reader of the forecast sees of one period; the wind speed and
      direction appear joined on one line. */
  datatype PeriodView = PeriodView(name: string, temperature: int, temperatureUnit: string, wind: string,
                                   shortForecast: string, detailedForecast: string)

  function ViewOf(p: ForecastPeriod): PeriodView {
    PeriodView(p.name, p.temperature, p.temperatureUnit, p.windSpeed + " " + p.windDirection,
               p.shortForecast, p.detailedForecast)
  }

  function ViewsOf(ps: seq<ForecastPeriod>): (vs: seq<PeriodView>)
    ensures |vs| == |ps|
    ensures forall i :: 0 <= i < |ps| ==> vs[i] == ViewOf(ps[i])
  {
    if ps == [] then [] else ViewsOf(ps[..|ps| - 1]) + [ViewOf(ps[|ps| - 1])]
  }

  predicate PeriodIsOneLine(p: ForecastPeriod) {
    NoNewline(p.name) && NoNewline(p.temperatureUnit) && NoNewline(p.windSpeed) && NoNewline(p.windDirection)
    && NoNewline(p.shortForecast) && NoNewline(p.detailedForecast)
  }

  /** "<integer>°<unit>": the integer and the unit. */
  function ParseTemperature(s: string): Option<(int, string)> {
    var k := IndexOf(s, Degree[0]);
    if k == |s| then None
    else match ParseInt(s[..k])
      case None => None
      case Some(t) => Some((t, s[k + 1..]))
  }

  function ParsePeriod(ls: seq<string>): Option<PeriodView>
    requires |ls| == 6
  {
    var name, temperature := StripColon(ls[0]), StripPrefix("  Temperature: ", ls[1]);
    var wind, conditions, details := StripPrefix("  Wind: ", ls[2]), StripPrefix("  Conditions: ", ls[3]), StripPrefix("  Details: ", ls[4]);
    if name.None? || temperature.None? || wind.None? || conditions.None? || details.None? || ls[5] != "" then None
    else match ParseTemperature(temperature.value)
      case None => None
      case Some((t, unit)) => Some(PeriodView(name.value, t, unit, wind.value, conditions.value, details.value))
  }

  /** Six-line blocks, read from the back. */
  function ParsePeriods(ls: seq<string>): Option<seq<PeriodView>>
    decreases |ls|
  {
    if ls == [] then Some([])
    else if |ls| < 6 then None
    else match (ParsePeriods(ls[..|ls| - 6]), ParsePeriod(ls[|ls| - 6..]))
      case (Some(vs), Some(v)) => Some(vs + [v])
      case _ => None
  }

  function DecodeForecastReport(text: string): Option<seq<PeriodView>> {
    var ls := SplitLines(text);
    if |ls| >= 2 && ls[..2] == ForecastHeaderLines then ParsePeriods(ls[2..]) else None
  }

  lemma ParseTemperatureOf(t: int, unit: string)
    ensures ParseTemperature(IntToString(t) + Degree + unit) == Some((t, unit))
  {
    var a := IntToString(t);
    var s := a + Degree + unit;
    assert Degree[0] !in a by {
      forall i | 0 <= i < |a| ensures a[i] != Degree[0] {
        assert a[i] == '-' || IsDigit(a[i]);
      }
    }
    assert Degree == [Degree[0]];
    IndexOfSplit(a, Degree[0], unit);
    assert s[..|a|] == a;
    assert s[|a| + 1..] == unit;
    IntToStringRoundTrip(t);
  }

  lemma ParsePeriodOf(p: ForecastPeriod)
    ensures ParsePeriod(PeriodLines(p)) == Some(ViewOf(p))
  {
    StripColonOf(p.name);
    StripPrefixOf("  Temperature: ", IntToString(p.temperature) + Degree + p.temperatureUnit);
    StripPrefixOf("  Wind: ", p.windSpeed + " " + p.windDirection);
    StripPrefixOf("  Conditions: ", p.shortForecast);
    StripPrefixOf("  Details: ", p.detailedForecast);
    ParseTemperatureOf(p.temperature, p.temperatureUnit);
  }

  lemma ParsePeriodsSnoc(init: seq<string>, period: seq<string>)
    requires |period| == 6
    ensures ParsePeriods(init + period)
         == if ParsePeriods(init).Some? && ParsePeriod(period).Some? then Some(ParsePeriods(init).value + [ParsePeriod(period).value]) else None
  {
    var ls := init + period;
    assert ls[..|ls| - 6] == init;
    assert ls[|ls| - 6..] == period;
  }

  lemma {:induction false} ParsePeriodsLines(ps: seq<ForecastPeriod>)
    ensures ParsePeriods(PeriodsLines(ps)) == Some(ViewsOf(ps))
  {
    if ps != [] {
      var init, last := PeriodsLines(ps[..|ps| - 1]), PeriodLines(ps[|ps| - 1]);
      assert PeriodsLines(ps) == init + last;
      ParsePeriodsLines(ps[..|ps| - 1]);
      ParsePeriodOf(ps[|ps| - 1]);
      ParsePeriodsSnoc(init, last);
    }
  }

  lemma {:induction false} PeriodsLinesOneLine(ps: seq<ForecastPeriod>)
    requires forall i :: 0 <= i < |ps| ==> PeriodIsOneLine(ps[i])
    ensures AllNoNewline(PeriodsLines(ps))
  {
    if ps != [] {
      var p := ps[|ps| - 1];
      PeriodsLinesOneLine(ps[..|ps| - 1]);
      var a := IntToString(p.temperature);
      assert NoNewline(a) by {
        forall i | 0 <= i < |a| ensures a[i] != '\n' {
          assert a[i] == '-' || IsDigit(a[i]);
        }
      }
      var ls := PeriodLines(p);
      forall i | 0 <= i < |ls| ensures NoNewline(ls[i]) {
      }
      AllNoNewlineAppend(PeriodsLines(ps[..|ps| - 1]), ls);
    }
  }

  lemma ForecastHeaderOneLine()
    ensures AllNoNewline(ForecastHeaderLines)
  {
    var h := ForecastHeaderLines;
    assert NoNewline(h[0]) by {
      forall i | 0 <= i < |h[0]| ensures h[0][i] != '\n' {
        assert h[0][i] in "Weather Forecast:";
      }
    }
  }

  /** Reading the forecast report gives back every period, in order, with
      its name, its temperature as the same integer, its unit, its wind and
      both forecasts. */
  lemma ForecastReportRoundTrip(ps: seq<ForecastPeriod>)
    requires forall i :: 0 <= i < |ps| ==> PeriodIsOneLine(ps[i])
    ensures DecodeForecastReport(ForecastReport(ps)) == Some(ViewsOf(ps))
  {
    var ls := ForecastHeaderLines + PeriodsLines(ps);
    PeriodsLinesOneLine(ps);
    ForecastHeaderOneLine();
    AllNoNewlineAppend(ForecastHeaderLines, PeriodsLines(ps));
    SplitUnlines(ls);
    assert ls[..2] == ForecastHeaderLines;
    assert ls[2..] == PeriodsLines(ps);
    ParsePeriodsLines(ps);
  }

  // =======================================================================
  // Open-Meteo forecast
  // =======================================================================

  /** What a reader of the Open-Meteo report sees of one day. */
  datatype DayView = DayView(date: string, temperature: string, conditions: string, windSpeed: string, precipitation: string)

  datatype DailyView = DailyView(location: string, timezone: string, days: seq<DayView>)

  /** The day the renderer writes for index i of the series. */
  function DayViewOf(fmt: FloatFormat, r: OpenMeteoResponse, i: nat): DayView
    requires Indexable(r.daily) && i < DaysShown(r.daily)
  {
    var d, u := r.daily, r.dailyUnits;
    DayView(d.time[i],
            fmt.fixed(d.temperatureMin[i], 1) + Degree + u.temperatureMax + " - " + fmt.fixed(d.temperatureMax[i], 1) + Degree + u.temperatureMax,
            WeatherCodeToDescription(d.weatherCode[i]),
            fmt.fixed(d.windSpeedMax[i], 1) + " " + u.windSpeedMax,
            fmt.fixed(d.precipitationSum[i], 1) + " " + u.precipitationSum)
  }

  function DayViewsOf(fmt: FloatFormat, r: OpenMeteoResponse, n: nat): (vs: seq<DayView>)
    requires Indexable(r.daily) && n <= DaysShown(r.daily)
    ensures |vs| == n
  {
    if n == 0 then [] else DayViewsOf(fmt, r, n - 1) + [DayViewOf(fmt, r, n - 1)]
  }

  /** Entry i of the views of the first n days is the view of day i. */
  lemma {:induction false} DayViewsOfAt(fmt: FloatFormat, r: OpenMeteoResponse, n: nat, i: nat)
    requires Indexable(r.daily) && i < n <= DaysShown(r.daily)
    ensures DayViewsOf(fmt, r, n)[i] == DayViewOf(fmt, r, i)
  {
    if i < n - 1 {
      DayViewsOfAt(fmt, r, n - 1, i);
    }
  }

  function ParseDay(ls: seq<string>): Option<DayView>
    requires |ls| == 6
  {
    var date, temperature := StripColon(ls[0]), StripPrefix("  Temperature: ", ls[1]);
    var conditions, wind, precipitation := StripPrefix("  Conditions: ", ls[2]), StripPrefix("  Wind Speed: ", ls[3]), StripPrefix("  Precipitation: ", ls[4]);
    if date.None? || temperature.None? || conditions.None? || wind.None? || precipitation.None? || ls[5] != "" then None
    else Some(DayView(date.value, temperature.value, conditions.value, wind.value, precipitation.value))
  }

  function ParseDays(ls: seq<string>): Option<seq<DayView>>
    decreases |ls|
  {
    if ls == [] then Some([])
    else if |ls| < 6 then None
    else match (ParseDays(ls[..|ls| - 6]), ParseDay(ls[|ls| - 6..]))
      case (Some(vs), Some(v)) => Some(vs + [v])
      case _ => None
  }

  function DecodeOpenMeteoReport(text: string): Option<DailyView> {
    var ls := SplitLines(text);
    if |ls| < 4 || ls[0] != "Weather Forecast (Open-Meteo)" || ls[3] != "" then None
    else
      var location, timezone := StripPrefix("Location: ", ls[1]), StripPrefix("Timezone: ", ls[2]);
      if location.None? || timezone.None? then None
      else match ParseDays(ls[4..])
        case None => None
        case Some(days) => Some(DailyView(location.value, timezone.value, days))
  }

  /** The fields an Open-Meteo report writes verbatim hold no line break. */
  ghost predicate OpenMeteoIsOneLine(fmt: FloatFormat, r: OpenMeteoResponse) {
    FixedIsOneLine(fmt) && NoNewline(r.timezone)
    && NoNewline(r.dailyUnits.temperatureMax) && NoNewline(r.dailyUnits.windSpeedMax) && NoNewline(r.dailyUnits.precipitationSum)
    && forall i :: 0 <= i < |r.daily.time| ==> NoNewline(r.daily.time[i])
  }

  lemma ParseDayOf(fmt: FloatFormat, r: OpenMeteoResponse, i: nat)
    requires Indexable(r.daily) && i < DaysShown(r.daily)
    ensures ParseDay(DayLines(fmt, r, i)) == Some(DayViewOf(fmt, r, i))
  {
    var d, u := r.daily, r.dailyUnits;
    StripColonOf(d.time[i]);
    StripPrefixOf("  Temperature: ", fmt.fixed(d.temperatureMin[i], 1) + Degree + u.temperatureMax
                                     + " - " + fmt.fixed(d.temperatureMax[i], 1) + Degree + u.temperatureMax);
    StripPrefixOf("  Conditions: ", WeatherCodeToDescription(d.weatherCode[i]));
    StripPrefixOf("  Wind Speed: ", fmt.fixed(d.windSpeedMax[i], 1) + " " + u.windSpeedMax);
    StripPrefixOf("  Precipitation: ", fmt.fixed(d.precipitationSum[i], 1) + " " + u.precipitationSum);
  }

  /** Parsing days that end in one more block parses that block last. */
  lemma ParseDaysSnoc(init: seq<string>, day: seq<string>, vs: seq<DayView>, v: DayView)
    requires |day| == 6 && ParseDays(init) == Some(vs) && ParseDay(day) == Some(v)
    ensures ParseDays(init + day) == Some(vs + [v])
  {
    var ls := init + day;
    assert ls[..|ls| - 6] == init;
    assert ls[|ls| - 6..] == day;
  }

  lemma {:induction false} ParseDaysLines(fmt: FloatFormat, r: OpenMeteoResponse, n: nat)
    requires Indexable(r.daily) && n <= DaysShown(r.daily)
    ensures ParseDays(DaysLines(fmt, r, n)) == Some(DayViewsOf(fmt, r, n))
  {
    if n > 0 {
      var init, day := DaysLines(fmt, r, n - 1), DayLines(fmt, r, n - 1);
      var vs, v := DayViewsOf(fmt, r, n - 1), DayViewOf(fmt, r, n - 1);
      assert DaysLines(fmt, r, n) == init + day;
      ParseDaysLines(fmt, r, n - 1);
      ParseDayOf(fmt, r, n - 1);
      ParseDaysSnoc(init, day, vs, v);
      assert DayViewsOf(fmt, r, n) == vs + [v];
    }
  }

  lemma DayBlockOneLine(fmt: FloatFormat, u: DailyUnits, date: string, tempMin: real, tempMax: real, code: Int32,
                        windSpeed: real, precipitation: real)
    requires FixedIsOneLine(fmt) && NoNewline(date)
    requires NoNewline(u.temperatureMax) && NoNewline(u.windSpeedMax) && NoNewline(u.precipitationSum)
    ensures AllNoNewline(DayBlock(fmt, u, date, tempMin, tempMax, code, windSpeed, precipitation))
  {
    FixedOneLine(fmt, tempMin, 1);
    FixedOneLine(fmt, tempMax, 1);
    FixedOneLine(fmt, windSpeed, 1);
    FixedOneLine(fmt, precipitation, 1);
    DescriptionIsOneLine(code);
    var ls := DayBlock(fmt, u, date, tempMin, tempMax, code, windSpeed, precipitation);
    forall j | 0 <= j < |ls| ensures NoNewline(ls[j]) {
    }
  }

  lemma {:induction false} DaysLinesOneLine(fmt: FloatFormat, r: OpenMeteoResponse, n: nat)
    requires Indexable(r.daily) && n <= DaysShown(r.daily) && OpenMeteoIsOneLine(fmt, r)
    ensures AllNoNewline(DaysLines(fmt, r, n))
  {
    if n > 0 {
      var d, i := r.daily, n - 1;
      DaysLinesOneLine(fmt, r, i);
      DayBlockOneLine(fmt, r.dailyUnits, d.time[i], d.temperatureMin[i], d.temperatureMax[i], d.weatherCode[i],
                      d.windSpeedMax[i], d.precipitationSum[i]);
      AllNoNewlineAppend(DaysLines(fmt, r, i), DayLines(fmt, r, i));
    }
  }

  lemma OpenMeteoLinesOneLine(fmt: FloatFormat, r: OpenMeteoResponse)
    requires Indexable(r.daily) && OpenMeteoIsOneLine(fmt, r)
    ensures AllNoNewline(OpenMeteoHeaderLines(fmt, r) + DaysLines(fmt, r, DaysShown(r.daily)))
  {
    var header := OpenMeteoHeaderLines(fmt, r);
    FixedOneLine(fmt, r.latitude, 4);
    FixedOneLine(fmt, r.longitude, 4);
    forall j | 0 <= j < |header| ensures NoNewline(header[j]) {
    }
    DaysLinesOneLine(fmt, r, DaysShown(r.daily));
    AllNoNewlineAppend(header, DaysLines(fmt, r, DaysShown(r.daily)));
  }

  /** Reading the Open-Meteo report gives back its location and time zone
      and exactly the first min(|time|, 7) days, in order: each with its
      date, the minimum and maximum temperature (both written with the
      maximum temperature's unit), the description the weather-code table
      gives for its code, its wind speed and its precipitation. */
  lemma OpenMeteoReportRoundTrip(fmt: FloatFormat, r: OpenMeteoResponse)
    requires Indexable(r.daily) && OpenMeteoIsOneLine(fmt, r)
    ensures DecodeOpenMeteoReport(OpenMeteoReport(fmt, r))
         == Some(DailyView(fmt.fixed(r.latitude, 4) + ", " + fmt.fixed(r.longitude, 4), r.timezone,
                           DayViewsOf(fmt, r, DaysShown(r.daily))))
  {
    var header := OpenMeteoHeaderLines(fmt, r);
    var days := DaysLines(fmt, r, DaysShown(r.daily));
    var ls := header + days;
    OpenMeteoLinesOneLine(fmt, r);
    SplitUnlines(ls);
    assert ls[4..] == days;
    StripPrefixOf("Location: ", fmt.fixed(r.latitude, 4) + ", " + fmt.fixed(r.longitude, 4));
    StripPrefixOf("Timezone: ", r.timezone);
    ParseDaysLines(fmt, r, DaysShown(r.daily));
  }

  /** The conditions line of day k names the weather-code table's entry
      for that day's code, "Unknown" exactly for codes outside the table. */
  lemma OpenMeteoConditions(fmt: FloatFormat, r: OpenMeteoResponse, k: nat)
    requires Indexable(r.daily) && OpenMeteoIsOneLine(fmt, r) && k < DaysShown(r.daily)
    ensures var v := DecodeOpenMeteoReport(OpenMeteoReport(fmt, r));
            v.Some? && |v.value.days| == DaysShown(r.daily) && v.value.days[k].date == r.daily.time[k]
            && v.value.days[k].conditions == WeatherCodeToDescription(r.daily.weatherCode[k])
            && (forall j :: 0 <= j < |WmoTable| && r.daily.weatherCode[k] in WmoTable[j].codes
                  ==> v.value.days[k].conditions == WmoTable[j].description)
            && (v.value.days[k].conditions == "Unknown" <==> !Listed(r.daily.weatherCode[k]))
  {
    OpenMeteoReportRoundTrip(fmt, r);
    DayViewsOfAt(fmt, r, DaysShown(r.daily), k);
    WeatherCodeTable(r.daily.weatherCode[k]);
  }
}
