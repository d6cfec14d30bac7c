/**
  The mappers from the weather service's response records to the domain records.
  `System.currentTimeMillis()`, the default of `SavedLocation.addedAt` and of
  `CurrentWeather.lastUpdated`, is the parameter `now`.
 */
module Mapper {
  import opened Wrappers
  import opened Kotlin
  import opened Domain
  import opened ForecastWindow
  import opened Results
  import opened LocationUseCases

  // ---------------------------------------------------------------------------
  // The response records

  datatype Coord = Coord(lat: Double, lon: Double)
  datatype Weather = Weather(description: string, icon: string)
  datatype Wind = Wind(speed: Double)

  datatype CurrentMain = CurrentMain(temp: Double, feelsLike: Double, pressure: Int, humidity: Int)
  datatype Sys = Sys(country: string)

  datatype CurrentWeatherResponse = CurrentWeatherResponse(
    coord: Coord,
    weather: seq<Weather>,
    main: CurrentMain,
    visibility: Int,
    wind: Wind,
    dt: Long,
    sys: Sys,
    id: Int,
    name: string)

  datatype MainWeatherData = MainWeatherData(
    temp: Double,
    feelsLike: Double,
    tempMin: Double,
    tempMax: Double,
    pressure: Int,
    humidity: Int)

  datatype ForecastItem = ForecastItem(
    dt: Long,
    main: MainWeatherData,
    weather: seq<Weather>,
    wind: Wind,
    visibility: Int,
    dtTxt: string)

  datatype City = City(id: Int, name: string, coord: Coord, country: string)

  datatype ForecastWeatherResponse = ForecastWeatherResponse(list: seq<ForecastItem>, city: City)

  // ---------------------------------------------------------------------------
  // Shared pieces

  /** `weather.firstOrNull()?.description ?: ""` */
  function FirstDescription(ws: seq<Weather>): (d: string)
    ensures ws == [] ==> d == ""
    ensures ws != [] ==> d == ws[0].description
  {
    if ws == [] then "" else ws[0].description
  }

  /** `weather.firstOrNull()?.icon ?: ""` */
  function FirstIcon(ws: seq<Weather>): (i: string)
    ensures ws == [] ==> i == ""
    ensures ws != [] ==> i == ws[0].icon
  {
    if ws == [] then "" else ws[0].icon
  }

  /** `dt * 1000` on a Kotlin `Long`: seconds to milliseconds, wrapping on overflow. */
  function Millis(dt: Long): (ms: Long)
    ensures LONG_MIN <= dt * 1000 <= LONG_MAX ==> ms == dt * 1000 && ms / 1000 == dt
  {
    WrapLong(dt * 1000)
  }

  /** The location of a response: the numeric id rendered in decimal, no state, not current. */
  function ResponseLocation(id: Int, name: string, coord: Coord, country: string, now: Long): (l: SavedLocation)
    ensures l.id == IntToString(id) && ParseInt(l.id) == Some(id as int)
    ensures l.name == name && l.latitude == coord.lat && l.longitude == coord.lon
    ensures l.country == Some(country) && l.state.None? && !l.isCurrentLocation && l.addedAt == now
  {
    IntToStringRoundTrip(id);
    SavedLocation(IntToString(id), name, coord.lat, coord.lon, Some(country), None, false, now)
  }

  /** Responses about different cities give locations with different ids. */
  lemma DistinctIdsGiveDistinctLocationIds(a: Int, b: Int)
    requires a != b
    ensures IntToString(a) != IntToString(b)
  {
    if IntToString(a) == IntToString(b) {
      IntToStringInjective(a, b);
    }
  }

  // ---------------------------------------------------------------------------
  // CurrentWeatherResponse.toWeatherData()

  function CurrentResponseToWeatherData(r: CurrentWeatherResponse, now: Long): (d: WeatherData)
    ensures d.location == ResponseLocation(r.id, r.name, r.coord, r.sys.country, now)
    ensures d.currentWeather.temperature == r.main.temp && d.currentWeather.feelsLike == r.main.feelsLike
    ensures d.currentWeather.humidity == r.main.humidity && d.currentWeather.windSpeed == r.wind.speed
    ensures d.currentWeather.pressure == r.main.pressure as real && d.currentWeather.visibility == r.visibility as real
    ensures d.currentWeather.description == FirstDescription(r.weather) && d.currentWeather.iconCode == FirstIcon(r.weather)
    ensures d.currentWeather.uvIndex == 0.0
    ensures d.currentWeather.lastUpdated == Millis(r.dt)
    ensures d.forecast == []
  {
    WeatherData(
      ResponseLocation(r.id, r.name, r.coord, r.sys.country, now),
      CurrentWeather(r.main.temp, FirstDescription(r.weather), FirstIcon(r.weather), r.main.humidity,
                     r.wind.speed, r.main.feelsLike, r.main.pressure as real, r.visibility as real,
                     0.0, Millis(r.dt)),
      [])
  }

  // ---------------------------------------------------------------------------
  // ForecastItem.toCurrentWeather() and ForecastItem.toWeatherForecast()

  function ItemToCurrentWeather(item: ForecastItem): (c: CurrentWeather)
    ensures c.temperature == item.main.temp && c.feelsLike == item.main.feelsLike
    ensures c.humidity == item.main.humidity && c.windSpeed == item.wind.speed
    ensures c.pressure == item.main.pressure as real && c.visibility == item.visibility as real
    ensures c.description == FirstDescription(item.weather) && c.iconCode == FirstIcon(item.weather)
    ensures c.uvIndex == 0.0 && c.lastUpdated == Millis(item.dt)
  {
    CurrentWeather(item.main.temp, FirstDescription(item.weather), FirstIcon(item.weather), item.main.humidity,
                   item.wind.speed, item.main.feelsLike, item.main.pressure as real, item.visibility as real,
                   0.0, Millis(item.dt))
  }

  function ItemToWeatherForecast(item: ForecastItem): (f: WeatherForecast)
    ensures f.date == item.dtTxt && f.maxTemp == item.main.tempMax && f.minTemp == item.main.tempMin
    ensures f.description == FirstDescription(item.weather) && f.iconCode == FirstIcon(item.weather)
    ensures f.humidity == item.main.humidity && f.windSpeed == item.wind.speed
  {
    WeatherForecast(item.dtTxt, item.main.tempMax, item.main.tempMin, FirstDescription(item.weather),
                    FirstIcon(item.weather), item.main.humidity, item.wind.speed)
  }

  /** The current weather of an empty forecast: zeros and empty strings, stamped with the clock. */
  function EmptyCurrentWeather(now: Long): CurrentWeather {
    CurrentWeather(0.0, "", "", 0, 0.0, 0.0, 0.0, 0.0, 0.0, now)
  }

  // ---------------------------------------------------------------------------
  // ForecastWeatherResponse.toWeatherData()

  function ForecastResponseToWeatherData(r: ForecastWeatherResponse, now: Long): (d: WeatherData)
    ensures d.location == ResponseLocation(r.city.id, r.city.name, r.city.coord, r.city.country, now)
    ensures r.list == [] ==> d.currentWeather == EmptyCurrentWeather(now)
    ensures r.list != [] ==> d.currentWeather == ItemToCurrentWeather(r.list[0])
    ensures |d.forecast| == |r.list|
    ensures forall i :: 0 <= i < |r.list| ==> d.forecast[i] == ItemToWeatherForecast(r.list[i])
  {
    WeatherData(
      ResponseLocation(r.city.id, r.city.name, r.city.coord, r.city.country, now),
      if r.list == [] then EmptyCurrentWeather(now) else ItemToCurrentWeather(r.list[0]),
      seq(|r.list|, i requires 0 <= i < |r.list| => ItemToWeatherForecast(r.list[i])))
  }

  /** The samples keep their timestamps, in order, so the day keys the forecast window sees are those of the response. */
  lemma ForecastKeepsDayKeys(r: ForecastWeatherResponse, now: Long, i: nat)
    requires i < |r.list|
    ensures Key(ForecastResponseToWeatherData(r, now).forecast[i]) == DayKey(r.list[i].dtTxt)
  {
  }

  // ---------------------------------------------------------------------------
  // SavedLocation.toCoordinates()

  function ToCoordinates(l: SavedLocation): (p: (Double, Double))
    ensures p.0 == l.latitude && p.1 == l.longitude
  {
    (l.latitude, l.longitude)
  }

  /**
    The duplicate test of the save use case, read through `toCoordinates`: a saved
    location conflicts with a new one exactly when they share the id or the coordinate pair.
   */
  lemma ConflictsByIdOrCoordinates(existing: SavedLocation, l: SavedLocation)
    ensures Conflicts(existing, l) <==> existing.id == l.id || ToCoordinates(existing) == ToCoordinates(l)
  {
  }

  /**
    A location at the coordinate pair of a saved one is rejected whatever its id: the
    save emits Loading and the rejection, and the write never runs.
   */
  lemma SameCoordinatesRejected(list: seq<SavedLocation>, l: SavedLocation, i: nat, written: bool)
    requires i < |list| && ToCoordinates(list[i]) == ToCoordinates(l)
    ensures SaveRejection(list, l).Some?
    ensures SaveNewLocationResults(list, l, None, written) == [Loading, Error(SaveRejection(list, l).value)]
  {
    assert Conflicts(list[i], l);
    assert !CanSave(list, l);
  }

  /** A list below the cap accepts a location whose id and coordinate pair are both new to it. */
  lemma NewIdAndCoordinatesAccepted(list: seq<SavedLocation>, l: SavedLocation, written: bool)
    requires |list| < MAX_SAVED_LOCATIONS
    requires forall i :: 0 <= i < |list| ==> list[i].id != l.id && ToCoordinates(list[i]) != ToCoordinates(l)
    ensures SaveRejection(list, l).None?
    ensures SaveNewLocationResults(list, l, None, written) == [Loading, Loading, Success(written)]
  {
    forall i | 0 <= i < |list| ensures !Conflicts(list[i], l) {
      ConflictsByIdOrCoordinates(list[i], l);
    }
  }
}
