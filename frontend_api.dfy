// EcoScope_Frontend/app/src/main/java/com/mansi/ecoscope_frontend/network/:
// the replies and form fields of the Frontend app's two services, and the
// loading/error/result precedence its screens display them with.

module FrontendApi {
  import opened Wrappers

  /** `SatelliteCompareResponse`: every field may be null. */
  datatype SatelliteCompareResponse = SatelliteCompareResponse(
    beforeImageUrl: Option<string>,
    afterImageUrl: Option<string>,
    impactImageUrl: Option<string>,
    aiAnalysis: Option<string>,
    location: Option<string>,
    dateRange: Option<string>,
    changeDetection: Option<string>,
    timestamp: Option<string>)

  /** The form body `compareSatellite` posts to `/satellite/compare`. */
  datatype CompareFields = CompareFields(latitude: real, longitude: real, startDate: string, endDate: string)

  datatype WeatherCondition = WeatherCondition(main: string, description: string)

  /** `WeatherResponse`, its nested `main` and `wind` flattened. */
  datatype WeatherResponse = WeatherResponse(temp: real, humidity: int, weather: seq<WeatherCondition>,
                                             windSpeed: real)

  /** The query `getCurrentWeather` sends; `units` defaults to "metric". */
  datatype WeatherQuery = WeatherQuery(lat: real, lon: real, appid: string, units: string)

  const DefaultUnits := "metric"
}

module Display {
  import opened Wrappers

  /** What a panel fed by a fetching view-model shows. */
  datatype Shown<T> = Spinner | ErrorLine(text: string) | Data(value: T) | Placeholder

  /** The spinner wins over the error, the error over the data, the data over the placeholder. */
  function Precedence<T>(loading: bool, error: Option<string>, data: Option<T>): (s: Shown<T>)
    ensures s.Spinner? <==> loading
    ensures s.ErrorLine? <==> !loading && error.Some?
    ensures s.ErrorLine? ==> s.text == "Error: " + error.value
    ensures s.Data? <==> !loading && error.None? && data.Some?
    ensures s.Data? ==> s.value == data.value
    ensures s.Placeholder? <==> !loading && error.None? && data.None?
  {
    if loading then Spinner
    else if error.Some? then ErrorLine("Error: " + error.value)
    else if data.Some? then Data(data.value)
    else Placeholder
  }
}
