/**
 * The `icon` property: partly cloudy without next-hour data, the sun or the moon
 * when no precipitation period is found, and otherwise an icon chosen from the
 * first period's type and peak intensity alone. The whole minute list is scanned,
 * without the 60-minute cut the summary applies.
 */
module IconSelector {
  import opened Wrappers
  import opened ForecastData
  import opened Segmenter
  import opened Classifier

  const PartlyCloudy := "mdi:weather-partly-cloudy"
  const Sunny := "mdi:weather-sunny"
  const Night := "mdi:weather-night"
  const Rainy := "mdi:weather-rainy"
  const Pouring := "mdi:weather-pouring"
  const Snowy := "mdi:weather-snowy"
  const SnowyHeavy := "mdi:weather-snowy-heavy"
  const SnowyRainy := "mdi:weather-snowy-rainy"
  const HailIcon := "mdi:weather-hail"

  /** The icons shown for a precipitation period. */
  const PrecipitationIcons := {Rainy, Pouring, Snowy, SnowyHeavy, SnowyRainy, HailIcon}

  /** `current_weather.get("daylight", True)`, with `{}` for a missing current-weather entry. */
  function IsDaylight(w: WeatherData): bool {
    match w.currentWeather
    case None => true
    case Some(cw) => cw.daylight.GetOr(true)
  }

  /** The sun by day, the moon by night. */
  function ClearSkyIcon(isDaylight: bool): string {
    if isDaylight then Sunny else Night
  }

  /** The decision table on the first period's type and peak intensity. */
  function PeriodIcon(ptype: string, maxIntensity: real): (icon: string)
    ensures icon in PrecipitationIcons
  {
    if ptype == "rain" then
      if maxIntensity < 2.5 then Rainy else Pouring
    else if ptype == "snow" then
      if maxIntensity < 2.5 then Snowy else SnowyHeavy
    else if ptype == "sleet" then SnowyRainy
    else if ptype == "hail" then HailIcon
    else Rainy
  }

  /** The icon of a kind of precipitation, given whether its peak is in the light tier. */
  function KindIcon(k: Kind, light: bool): string {
    match k
    case Rain => if light then Rainy else Pouring
    case Snow => if light then Snowy else SnowyHeavy
    case Sleet => SnowyRainy
    case Hail => HailIcon
    case OtherPrecipitation => Rainy
  }

  /**
   * The icon agrees with the description key's classes: it depends on the type only
   * through its kind and on the peak only through whether it is light.
   */
  lemma PeriodIconByClass(ptype: string, maxIntensity: real)
    ensures PeriodIcon(ptype, maxIntensity) == KindIcon(KindOf(ptype), TierOf(maxIntensity) == Light)
  {
  }

  /** The icon for a coordinator snapshot. */
  function IconOf(data: Option<WeatherData>): (icon: string)
    ensures icon == PartlyCloudy <==> NoNextHour(data)
    ensures !NoNextHour(data) ==>
      var periods := Periods(data.value.forecastNextHour.value.MinuteList());
      (icon == ClearSkyIcon(IsDaylight(data.value)) <==> periods == [])
    ensures !NoNextHour(data) && Periods(data.value.forecastNextHour.value.MinuteList()) != [] ==>
      var first := Periods(data.value.forecastNextHour.value.MinuteList())[0];
      icon == PeriodIcon(first.ptype, first.maxIntensity)
  {
    if NoNextHour(data) then PartlyCloudy
    else
      var w := data.value;
      var minutes := w.forecastNextHour.value.MinuteList();
      var periods := Periods(minutes);
      if periods == [] then ClearSkyIcon(IsDaylight(w))
      else PeriodIcon(periods[0].ptype, periods[0].maxIntensity)
  }

  /** `icon`: the guards, the segmentation loop, and the table for the first period. */
  method Icon(data: Option<WeatherData>) returns (icon: string)
    ensures icon == IconOf(data)
  {
    if NoNextHour(data) {
      return PartlyCloudy;
    }
    var isDaylight := IsDaylight(data.value);
    var minutes := data.value.forecastNextHour.value.MinuteList();
    if minutes == [] {
      return if isDaylight then Sunny else Night;
    }
    var periods := FindPeriods(minutes);
    if periods == [] {
      return if isDaylight then Sunny else Night;
    }
    var first := periods[0];
    icon := PeriodIcon(first.ptype, first.maxIntensity);
  }

  /** The sun or the moon is shown exactly when no minute of the whole list has positive intensity. */
  lemma ClearSkyIffDry(data: Option<WeatherData>)
    requires !NoNextHour(data)
    ensures var ms := data.value.forecastNextHour.value.MinuteList();
      IconOf(data) in {Sunny, Night} <==> forall j :: 0 <= j < |ms| ==> IntensityOf(ms[j]) <= 0.0
  {
    var ms := data.value.forecastNextHour.value.MinuteList();
    NoPeriodsIffDry(ms);
    if Periods(ms) != [] {
      assert IconOf(data) in PrecipitationIcons;
    }
  }
}
