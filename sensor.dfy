/**
 * The next-hour forecast sensor's state and attributes, read from a snapshot of
 * the update coordinator: `native_value` guards against a failed update and
 * missing data and summarises at most the first 60 minutes; `extra_state_attributes`
 * passes the minute list through unchanged.
 */
module NextHourSensor {
  import opened Wrappers
  import opened ForecastData
  import opened Segmenter
  import opened Translation
  import opened Summary
  import opened IconSelector

  /** The summary looks at no more than this many minutes. */
  const SummaryHorizon := 60

  /** `minutes[:n]` */
  function Take(minutes: seq<Minute>, n: nat): (prefix: seq<Minute>)
    ensures |prefix| == if |minutes| < n then |minutes| else n
    ensures prefix == minutes[..|prefix|]
  {
    if |minutes| <= n then minutes else minutes[..n]
  }

  /** The state for a snapshot: `None` when the sensor is unavailable or has no data. */
  function NativeValue(c: Coordinator, translations: map<string, string>): (r: Option<string>)
    ensures r.None? <==> !c.lastUpdateSuccess || NoNextHour(c.data)
    ensures r.Some? && (c.data.value.forecastNextHour.value.IsEmpty()
                        || c.data.value.forecastNextHour.value.MinuteList() == []) ==>
      r.value == TranslateState(translations, NoPrecipitationKey)
    ensures r.Some? && c.data.value.forecastNextHour.value.MinuteList() != [] ==>
      r.value == ForecastSummary(translations,
        Take(c.data.value.forecastNextHour.value.MinuteList(), SummaryHorizon))
  {
    if !c.lastUpdateSuccess then None
    else if NoData(c.data) then None
    else if c.data.value.forecastNextHour.None? then None
    else
      var nextHour := c.data.value.forecastNextHour.value;
      if nextHour.IsEmpty() then Some(TranslateState(translations, NoPrecipitationKey))
      else
        var minutes := nextHour.MinuteList();
        if minutes == [] then Some(TranslateState(translations, NoPrecipitationKey))
        else Some(ForecastSummary(translations, Take(minutes, SummaryHorizon)))
  }

  /** `native_value`: the guards, then the summary loop on the first 60 minutes. */
  method ReadNativeValue(c: Coordinator, translations: map<string, string>) returns (r: Option<string>)
    ensures r == NativeValue(c, translations)
  {
    if !c.lastUpdateSuccess {
      return None;
    }
    if NoData(c.data) {
      return None;
    }
    if c.data.value.forecastNextHour.None? {
      return None;
    }
    var nextHour := c.data.value.forecastNextHour.value;
    if nextHour.IsEmpty() {
      return Some(TranslateState(translations, NoPrecipitationKey));
    }
    var minutes := nextHour.MinuteList();
    if minutes == [] {
      return Some(TranslateState(translations, NoPrecipitationKey));
    }
    minutes := Take(minutes, SummaryHorizon);
    var summary := GenerateForecastSummary(translations, minutes);
    r := Some(summary);
  }

  /** Two snapshots whose minute lists agree on the first 60 minutes have the same state. */
  lemma StateIgnoresLaterMinutes(c1: Coordinator, c2: Coordinator, translations: map<string, string>)
    requires c1.lastUpdateSuccess == c2.lastUpdateSuccess
    requires !NoNextHour(c1.data) && !NoNextHour(c2.data)
    requires c1.data.value.forecastNextHour.value.IsEmpty() == c2.data.value.forecastNextHour.value.IsEmpty()
    requires var m1, m2 := c1.data.value.forecastNextHour.value.MinuteList(),
                           c2.data.value.forecastNextHour.value.MinuteList();
      (m1 == [] <==> m2 == []) && Take(m1, SummaryHorizon) == Take(m2, SummaryHorizon)
    ensures NativeValue(c1, translations) == NativeValue(c2, translations)
  {
  }

  /**
   * The state and the icon can disagree: rain after the first hour leaves the state
   * at no precipitation while the icon, which scans every minute, already shows
   * precipitation.
   */
  lemma IconLooksPastTheHour(c: Coordinator, translations: map<string, string>, j: nat)
    requires c.lastUpdateSuccess && !NoNextHour(c.data)
    requires var ms := c.data.value.forecastNextHour.value.MinuteList();
      SummaryHorizon <= j < |ms| && IntensityOf(ms[j]) > 0.0
      && forall i :: 0 <= i < SummaryHorizon ==> IntensityOf(ms[i]) <= 0.0
    ensures NativeValue(c, translations) == Some(TranslateState(translations, NoPrecipitationKey))
    ensures IconOf(c.data) in PrecipitationIcons
  {
    var ms := c.data.value.forecastNextHour.value.MinuteList();
    var head := Take(ms, SummaryHorizon);
    assert forall i :: 0 <= i < |head| ==> IntensityOf(head[i]) <= 0.0;
    NoPeriodsIffDry(head);
    NoPeriodsIffDry(ms);
    assert Periods(ms) != [];
  }

  // ---------------------------------------------------------------------------
  // extra_state_attributes

  /** One entry of the `minutes` attribute; a key missing from the minute reads as `None`. */
  datatype MinuteRecord = MinuteRecord(
    startTime: Option<string>,
    precipitationIntensity: Option<real>,
    precipitationChance: Option<real>,
    precipitationType: Option<string>)

  /** The attribute dictionary; a `None` field is a key that is not set. */
  datatype Attributes = Attributes(
    forecastStart: Option<string>,
    forecastEnd: Option<string>,
    minutes: Option<seq<MinuteRecord>>,
    minuteCount: Option<nat>)

  const NoAttributes := Attributes(None, None, None, None)

  function RecordOf(m: Minute): MinuteRecord {
    MinuteRecord(m.startTime, m.precipitationIntensity, m.precipitationChance, m.precipitationType)
  }

  /** The minute a record was made from. */
  function MinuteOfRecord(r: MinuteRecord): Minute {
    Minute(r.startTime, r.precipitationIntensity, r.precipitationChance, r.precipitationType)
  }

  /** `extra_state_attributes` */
  function ExtraStateAttributes(data: Option<WeatherData>): (a: Attributes)
    ensures NoNextHour(data) ==> a == NoAttributes
    ensures !NoNextHour(data) ==>
      var nextHour := data.value.forecastNextHour.value;
      var ms := nextHour.MinuteList();
      a.forecastStart == nextHour.forecastStart && a.forecastEnd == nextHour.forecastEnd
      && (a.minuteCount.Some? <==> ms != [])
      && (a.minutes.Some? <==> ms != [])
      && (ms != [] ==>
            a.minuteCount.value == |ms| == |a.minutes.value|
            && forall i :: 0 <= i < |ms| ==> MinuteOfRecord(a.minutes.value[i]) == ms[i])
  {
    if NoNextHour(data) then NoAttributes
    else
      var nextHour := data.value.forecastNextHour.value;
      var ms := nextHour.MinuteList();
      if ms == [] then Attributes(nextHour.forecastStart, nextHour.forecastEnd, None, None)
      else
        Attributes(nextHour.forecastStart, nextHour.forecastEnd,
          Some(seq(|ms|, i requires 0 <= i < |ms| => RecordOf(ms[i]))), Some(|ms|))
  }
}
