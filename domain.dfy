/**
  The domain records: saved locations, weather data, place-search candidates and
  the application error record. Kotlin `Double` values (coordinates, temperatures,
  speeds) are modelled as mathematical reals compared by equality; no rounding.
 */
module Domain {
  import opened Wrappers
  import opened Kotlin

  type Double = real

  /** A saved or current location. `addedAt` defaults to the wall clock in the source. */
  datatype SavedLocation = SavedLocation(
    id: string,
    name: string,
    latitude: Double,
    longitude: Double,
    country: Option<string>,
    state: Option<string>,
    isCurrentLocation: bool,
    addedAt: Long)

  datatype CurrentWeather = CurrentWeather(
    temperature: Double,
    description: string,
    iconCode: string,
    humidity: Int,
    windSpeed: Double,
    feelsLike: Double,
    pressure: Double,
    visibility: Double,
    uvIndex: Double,
    lastUpdated: Long)

  /** One forecast sample; `date` is "YYYY-MM-DD HH:MM:SS" as the weather service sends it. */
  datatype WeatherForecast = WeatherForecast(
    date: string,
    maxTemp: Double,
    minTemp: Double,
    description: string,
    iconCode: string,
    humidity: Int,
    windSpeed: Double)

  datatype WeatherData = WeatherData(
    location: SavedLocation,
    currentWeather: CurrentWeather,
    forecast: seq<WeatherForecast>)

  datatype ErrorType =
    | UNKNOWN
    | NETWORK_ERROR
    | LOCATION_MAX_EXCEEDED
    | LOCATION_ALREADY_EXISTS
    | LOCATION_SAVE_FAILED
    | LOCATION_LOAD_FAILED
    | LOCATION_DATA_NULL
    | LOCATION_GET_FAILED
    | WEATHER_LOAD_FAILED
    | FORECAST_LOAD_FAILED
    | PERMISSION_DENIED
    | PERMISSION_PERMANENTLY_DENIED

  /** A thrown exception, reduced to what the domain layer reads of it: its nullable message. */
  datatype Throwable = Throwable(message: Option<string>)

  /** `params` holds the interpolation arguments of the message; only integers occur. */
  datatype AppError = AppError(
    errorType: ErrorType,
    message: string,
    code: Option<Int>,
    throwable: Option<Throwable>,
    params: seq<int>)

  /** An `AppError` with every field at its default except the type. */
  function ErrorOfType(t: ErrorType): (e: AppError)
    ensures e.errorType == t && e.message == "" && e.code.None? && e.throwable.None? && e.params == []
  {
    AppError(t, "", None, None, [])
  }

  /** `Throwable.toAppError()`: an UNKNOWN error carrying the message ("" when it is null). */
  function ToAppError(t: Throwable): (e: AppError)
    ensures e.errorType == UNKNOWN && e.throwable == Some(t) && e.code.None? && e.params == []
    ensures t.message.Some? ==> e.message == t.message.value
    ensures t.message.None? ==> e.message == ""
  {
    AppError(UNKNOWN, t.message.GetOr(""), None, Some(t), [])
  }

  /** A candidate returned by the place search. */
  datatype PlaceSearchResult = PlaceSearchResult(
    placeId: string,
    name: string,
    address: string,
    latitude: Double,
    longitude: Double,
    country: Option<string>,
    state: Option<string>)

  /**
    `PlaceSearchResult.toSavedLocation()`. The source lets `addedAt` default to the
    clock; here the clock reading is the parameter `now`.
   */
  function ToSavedLocation(p: PlaceSearchResult, now: Long): (l: SavedLocation)
    ensures l.id == p.placeId
    ensures l.name == p.name && l.latitude == p.latitude && l.longitude == p.longitude
    ensures l.country == p.country && l.state == p.state
    ensures !l.isCurrentLocation && l.addedAt == now
  {
    SavedLocation(p.placeId, p.name, p.latitude, p.longitude, p.country, p.state, false, now)
  }

  /** Only the address of a place is lost when it becomes a saved location. */
  lemma ToSavedLocationKeepsAllButAddress(p: PlaceSearchResult, q: PlaceSearchResult, now: Long)
    requires ToSavedLocation(p, now) == ToSavedLocation(q, now)
    ensures p == q.(address := p.address)
  {
  }
}
