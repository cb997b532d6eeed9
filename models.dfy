/** The decoded upstream records, one datatype per Rust struct. JSON field
    renaming and the serde decoding itself are not part of the model: a
    record here is what decoding produced. */
module Models {
  import opened Wrappers

  /** Rust `i32`. */
  type Int32 = x: int | -0x8000_0000 <= x < 0x8000_0000

  // Open-Meteo daily forecast.

  datatype DailyData = DailyData(
    time: seq<string>,
    temperatureMax: seq<real>,
    temperatureMin: seq<real>,
    weatherCode: seq<Int32>,
    windSpeedMax: seq<real>,
    precipitationSum: seq<real>)

  /** Unit strings of the daily series; there is no separate unit for the minimum temperature. */
  datatype DailyUnits = DailyUnits(
    temperatureMax: string,
    windSpeedMax: string,
    precipitationSum: string)

  datatype OpenMeteoResponse = OpenMeteoResponse(
    latitude: real,
    longitude: real,
    timezone: string,
    daily: DailyData,
    dailyUnits: DailyUnits)

  // National Weather Service alerts.

  datatype AlertProperties = AlertProperties(
    event: string,
    headline: Option<string>,
    description: Option<string>,
    severity: string,
    areaDesc: string)

  datatype AlertFeature = AlertFeature(properties: AlertProperties)

  datatype AlertResponse = AlertResponse(features: seq<AlertFeature>)

  // National Weather Service grid point lookup.

  datatype PointsProperties = PointsProperties(gridId: string, gridX: Int32, gridY: Int32)

  datatype PointsResponse = PointsResponse(properties: PointsProperties)

  // National Weather Service gridpoint forecast.

  datatype ForecastPeriod = ForecastPeriod(
    name: string,
    temperature: Int32,
    temperatureUnit: string,
    windSpeed: string,
    windDirection: string,
    shortForecast: string,
    detailedForecast: string)

  datatype ForecastProperties = ForecastProperties(periods: seq<ForecastPeriod>)

  datatype ForecastResponse = ForecastResponse(properties: ForecastProperties)
}
