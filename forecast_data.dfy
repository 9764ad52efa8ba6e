/**
 * The coordinator snapshot the next-hour sensor reads. Python dictionaries become
 * datatypes; a key that may be missing becomes an `Option` field, and keys the
 * sensor never looks at are summarised by a `hasOtherKeys` flag, which only
 * matters for Python's "an empty dict is falsy" tests.
 */
module ForecastData {
  import opened Wrappers

  /** One element of the `minutes` list of the next-hour forecast. */
  datatype Minute = Minute(
    startTime: Option<string>,
    precipitationIntensity: Option<real>,
    precipitationChance: Option<real>,
    precipitationType: Option<string>)

  /** `minute.get("precipitationIntensity", 0.0)` */
  function IntensityOf(m: Minute): real {
    m.precipitationIntensity.GetOr(0.0)
  }

  /** `minute.get("precipitationType", "clear")` */
  function TypeOf(m: Minute): string {
    m.precipitationType.GetOr("clear")
  }

  /** The value stored under the `forecastNextHour` key. */
  datatype NextHourData = NextHourData(
    forecastStart: Option<string>,
    forecastEnd: Option<string>,
    minutes: Option<seq<Minute>>,
    hasOtherKeys: bool)
  {
    /** `not next_hour_data`: the dictionary has no key at all. */
    predicate IsEmpty() {
      forecastStart.None? && forecastEnd.None? && minutes.None? && !hasOtherKeys
    }

    /** `next_hour_data.get("minutes", [])` */
    function MinuteList(): seq<Minute> {
      minutes.GetOr([])
    }
  }

  /** The value stored under the `currentWeather` key (only `daylight` is read). */
  datatype CurrentWeather = CurrentWeather(daylight: Option<bool>, hasOtherKeys: bool)

  /** `coordinator.data`: the data sets of the last successful refresh. */
  datatype WeatherData = WeatherData(
    currentWeather: Option<CurrentWeather>,
    forecastNextHour: Option<NextHourData>,
    hasOtherKeys: bool)
  {
    predicate IsEmpty() {
      currentWeather.None? && forecastNextHour.None? && !hasOtherKeys
    }
  }

  /** What the sensor sees of its update coordinator. */
  datatype Coordinator = Coordinator(lastUpdateSuccess: bool, data: Option<WeatherData>)

  /** `not coordinator.data`: no data yet, or an empty dictionary. */
  predicate NoData(data: Option<WeatherData>) {
    data.None? || data.value.IsEmpty()
  }

  /** `not data or "forecastNextHour" not in data` */
  predicate NoNextHour(data: Option<WeatherData>) {
    NoData(data) || data.value.forecastNextHour.None?
  }
}
