/** The fixed strings of src/constants.rs. */
module Constants {
  /** Base URL of the National Weather Service API. */
  const NwsApiBase: string := "https://api.weather.gov"

  /** Base URL of the Open-Meteo API. */
  const OpenMeteoApiBase: string := "https://api.open-meteo.com/v1"
}
