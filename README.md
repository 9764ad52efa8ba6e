# Next-hour precipitation sensor of the WeatherKit integration

This project models the next-hour forecast sensor of the Home Assistant WeatherKit
integration. The sensor turns Apple WeatherKit's minute-by-minute precipitation
forecast into three things:

- a sentence such as "Light Rain in 5 minutes; Moderate Snow starting in 20 minutes, lasting 12 minutes";
- an icon;
- an attribute dictionary.

The model consists of these modules:

- `Wrappers`: an `Option` type.
- `ForecastData`: the coordinator snapshot, with the parts of the WeatherKit JSON the sensor reads. A missing key is `None`. `dict.get` defaults are written out: intensity `0.0` and type `"clear"`.
- `Segmenter`: the scan that groups minutes into precipitation periods. It is modelled once and used by both the summary and the icon.
  - `Scan`/`Periods` specify the scan as a left fold.
  - `FindPeriods` is the loop, proved equal to that fold.
  - `IsSegmentation` is an independent declarative description: maximal runs, peak intensity, and the last-labelled type. It is proved to hold of the fold.
- `Strings`: the Python string operations the sensor uses.
  - `str(int)`, `replace("_", " ")`, ASCII `title()` and `"; ".join`.
  - `str.format` for templates whose fields are plain names, with its `KeyError` and `ValueError` outcomes.
- `Translation`: the `_translate_state` fallback and `_translate_forecast`. The translation cache is a map parameter.
- `Classifier`: `_get_precipitation_description_key` and its fifteen keys.
- `Summary`: `_generate_forecast_summary`. The summary is a function `ForecastSummary`, and the method `GenerateForecastSummary` is proved equal to it. Its loop over the periods, `RenderParts`, appends one part per period through the generic `AppendEach`, so the proof of the loop does not depend on how a part is worded.
- `IconSelector`: the `icon` property. The function `IconOf` is the specification, and the method `Icon` is proved equal to it.
- `NextHourSensor`: `native_value` (the function `NativeValue` and the method `ReadNativeValue`) and `extra_state_attributes`.

Intensities are Dafny `real`s. The code only compares them with `0.0`, `2.5` and `10.0` and takes their `max`, so reals model it exactly.

Behaviour of the code that the model reproduces as written:

- **Period type.** A period's type may be `"clear"`. The scan records the first minute's type and only later non-clear types overwrite it (sensor.py:153, 160-161). Only the classifier and the icon table map `"clear"` to the generic case. `Segmenter.RunTypeIsLastLabel` states the rule.
- **Missing next-hour data.** `native_value` returns `None` when the data is empty or the next-hour key is absent (sensor.py:107-122). It returns the no-precipitation text only for an empty next-hour entry or an empty minute list (sensor.py:124-131).
- **Truncation.** Only `native_value` truncates the minute list to 60 minutes (sensor.py:134). The icon scans the whole list (sensor.py:316). `NextHourSensor.IconLooksPastTheHour` shows the consequence.
- **Negative intensities.** A negative intensity matches none of the scan's three branches (sensor.py:150-170). It leaves an open period open, or leaves a closed state closed. The maximal-run corollaries assume non-negative intensities.

## Model

| member | source | states |
|---|---|---|
| Segmenter.FindPeriods | sensor.py:141-185 | the scanning loop returns exactly the fold `Periods(minutes)`, whose results `PeriodsAreSegmentation` describes |
| Segmenter.PeriodsAreSegmentation | sensor.py:146-185 | every period lies in range with `start <= end`; its first minute has positive intensity and the minute before (if any) intensity `<= 0`; every minute inside has non-zero intensity and the minute after (if any) intensity 0; periods are ordered and separated by at least one minute; every minute outside all periods has intensity `<= 0`; each period's peak is `MaxOver` its minutes and its type `RunType` |
| Segmenter.MaxOverIsMaximum | sensor.py:151-158 | a period's recorded maximum bounds every intensity in the period and is attained by one of its minutes |
| Segmenter.RunTypeIsLastLabel | sensor.py:150-161 | a period's type is that of its last minute with a non-clear type and positive intensity, or the first minute's type (possibly "clear") when no later minute has one |
| Segmenter.PeriodsAreWetRuns | sensor.py:146-185 | for non-negative intensities every minute of a period has intensity `> 0` and the neighbours outside it have intensity 0: periods are maximal wet runs |
| Segmenter.NoPeriodsIffDry | sensor.py:146-188 | there is no period exactly when no minute has positive intensity (so empty or all-zero input gives none) |
| Segmenter.WetMinuteCovered | sensor.py:146-185 | every minute with positive intensity lies inside some period |
| Segmenter.PeriodCountIsRunCount | sensor.py:146-185 | for non-negative intensities the number of periods equals the number of dry-to-wet transitions (run starts) |
| Strings.NatToStringRoundTrip | sensor.py:195-235 | `str(n)` for the start minute and the duration is a non-empty string of digits that reads back as `n` |
| Strings.JoinSeparatorCount | sensor.py:240-244 | joining `n > 0` parts without `"; "` of their own gives exactly `n - 1` separators |
| Strings.SeparatorCountConcat | sensor.py:240-244 | separators in a concatenation are those of both halves plus one formed at the seam |
| Strings.Format | sensor.py:291-293 | `str.format(**placeholders)` as a result with `KeyError` and `ValueError` outcomes; a `KeyError` always names a field with no placeholder. `FormatField`, `FieldNameRead` and `FormatFieldsTemplate` give the substitution |
| Strings.FormatFieldsTemplateMissing | sensor.py:291-293 | a template of well-formed fields and texts raises `KeyError` as soon as one field has no placeholder |
| Strings.FormatBraceFree | sensor.py:289-292 | `format` leaves a template without braces unchanged |
| Strings.FormatField | sensor.py:292-300 | a leading `{name}` is replaced by its placeholder, or raises `KeyError(name)` when there is none |
| Strings.FieldNameRead | sensor.py:289-292 | `format` reads a field name up to the closing `}` and replaces the field by its placeholder, or raises `KeyError` with that name |
| Strings.FormatFieldsTemplate | sensor.py:282-292 | a template of named fields and brace-free text formats without error to the text with every field replaced |
| Translation.TranslateState | sensor.py:269-277 | the cached translation when the full key `component.custom_weatherkit.entity.sensor.next_hour_forecast.state.<key>` is present; otherwise a text as long as the key, with letters exactly where the key has letters and spaces exactly where it has `_` or a space. `FallbackOfSnakeKey` gives the text exactly for snake keys |
| Translation.FallbackOfSnakeKey | sensor.py:277 | without a cached translation a lower-case snake key reads as words: underscores become spaces, each word's first letter is upper-cased, the length is kept |
| Translation.FallbackKeepsSemicolons | sensor.py:277 | the fallback text has a `';'` only if the key has one |
| Translation.TemplatesAtCallSites | sensor.py:282-292 | with the placeholders given at the four call sites each template formats without error into its fixed wording, e.g. `desc + " now"` |
| Translation.TemplatesNeedEveryField | sensor.py:282-292 | formatting a template raises `KeyError` whenever any one of its fields has no placeholder |
| Translation.TemplatesNeedPrecipitation | sensor.py:282-292 | every template opens with the `{precipitation}` field, so without that placeholder formatting raises `KeyError("precipitation")` |
| Translation.UnknownKeyFormatsToItself | sensor.py:289-292 | the default template of an unknown brace-free key, the key with underscores as spaces, formats to itself |
| Translation.TranslateForecast | sensor.py:279-300 | never raises: whenever formatting the template gives `KeyError` or `ValueError` the raw template is returned; in particular a known key that lacks a placeholder for any of its template's fields, `precipitation` or another, gives the raw template, and an unknown brace-free key comes back with underscores as spaces. `TemplatesAtCallSites` gives the wording at the four call sites |
| Classifier.TierOf | sensor.py:250-256 | light exactly below 2.5, moderate exactly in `[2.5, 10.0)`, heavy exactly from 10.0 |
| Classifier.KindOf | sensor.py:258-267 | the generic kind exactly when the type is none of rain, snow, sleet, hail; for those four the kind's name, the key's suffix, is the type itself |
| Classifier.DescriptionKey | sensor.py:246-267 | the key is always the tier's prefix followed by the kind's name, one of fifteen keys |
| Classifier.KeyOfInjective | sensor.py:246-267 | the fifteen keys are distinct: a key determines its tier and kind |
| Classifier.SameKeyIffSameClass | sensor.py:246-267 | two periods share a description key exactly when their peaks share a tier and their types a kind |
| Classifier.DescriptionKeyIsSnake | sensor.py:246-267 | every description key is lower-case snake case without `';'` |
| Summary.TemplateKey | sensor.py:201-238 | the phrasing chosen for a period is one of the four known templates |
| Summary.GenerateForecastSummary | sensor.py:138-244 | the summary loop returns `ForecastSummary`: the no-precipitation text without periods, else the parts of the periods in order joined by `"; "` |
| Summary.RenderParts | sensor.py:190-238 | the loop over the periods appends, in order, exactly one part per period: the part `Fragments` gives it |
| Summary.PeriodsLastAMinute | sensor.py:195 | every period's duration `end - start + 1` is at least 1 and its end lies within the minutes |
| Summary.FragmentWording | sensor.py:201-238 | start 0 and duration 1 reads `desc now`; start 0 reads `desc for the next D minutes`; duration 1 reads `desc in S minutes`; otherwise `desc starting in S minutes, lasting D minutes` |
| Summary.DrySummary | sensor.py:187-244 | the summary is the no-precipitation text when no minute has positive intensity, and the joined parts of at least one period otherwise |
| Summary.FragmentHasNoSemicolon | sensor.py:197-238 | with semicolon-free translations a period's part contains no `';'` |
| Summary.SummarySeparators | sensor.py:240-244 | with semicolon-free translations the summary of `n > 0` periods holds exactly `n - 1` separators |
| IconSelector.PeriodIcon | sensor.py:378-391 | every period icon is one of the six precipitation icons |
| IconSelector.IconOf | sensor.py:302-391 | partly cloudy exactly without data or next-hour key; else sun/moon by daylight exactly when there is no period; else the table applied to the first period only |
| IconSelector.Icon | sensor.py:302-391 | the icon property with its own scan returns `IconOf(data)` |
| IconSelector.ClearSkyIffDry | sensor.py:316-372 | the sun or moon is shown exactly when no minute of the whole list has positive intensity |
| NextHourSensor.Take | sensor.py:134 | `minutes[:60]` has length `min(len, 60)` and is a prefix of the list |
| NextHourSensor.NativeValue | sensor.py:101-136 | `None` exactly on a failed update, empty data or a missing next-hour key; the no-precipitation text for an empty entry or empty minutes; otherwise the summary of the first 60 minutes |
| NextHourSensor.ReadNativeValue | sensor.py:101-136 | the property, calling the summary loop, returns `NativeValue` |
| NextHourSensor.StateIgnoresLaterMinutes | sensor.py:133-134 | two snapshots that agree on everything the state reads and on their first 60 minutes have the same state |
| NextHourSensor.IconLooksPastTheHour | sensor.py:134 | with no positive intensity in the first 60 minutes and one later, the state is the no-precipitation text while the icon shows precipitation |
| NextHourSensor.ExtraStateAttributes | sensor.py:393-426 | no attributes without next-hour data; otherwise the forecast start and end pass through, and a non-empty minute list gives `minute_count == len(minutes)` and one record per minute, in order, from which the minute is recovered unchanged |

## Left out

- The translation cache lookup `translation.async_get_cached_translations` (sensor.py:271-276) is a call into Home Assistant. It is a map parameter, and only the fallback is modelled.
- `title()` is modelled for ASCII letters only. Python's Unicode case rules are not modelled. The keys the sensor produces are lower-case ASCII snake case.
- `str.format` is modelled for named fields, `{{` and `}}`. Positional fields, conversions (`!r`), format specs (`:>3`), and attribute or index access in field names are not modelled. None of the four templates uses them.
- Strings.Format: an empty field `{}` or an all-digit one such as `{0}` is positional in Python and raises `IndexError`, which `_translate_forecast` does not catch. The model reads it as a named field and reports `KeyError`. Only a key outside the four templates that contains braces could reach this, and the sensor never passes one.
- `LOGGER.warning` calls (sensor.py:119, 294) are logging only. The `supported_data_sets` check that guards one of them is therefore left out too.
- `async_setup_entry`, the `SENSORS` descriptions and `WeatherKitSensor` (sensor.py:23-81) are platform wiring.
- const.py is not part of this model: its constants are inlined.
- A JSON `null` value for the next-hour entry is not modelled; entries are dictionaries or absent. With a `null` entry `native_value` returns the no-precipitation text (sensor.py:124-126), the icon property raises `AttributeError` at `next_hour_data.get` (sensor.py:316), and `extra_state_attributes` raises `TypeError` at `"forecastStart" in next_hour_data` (sensor.py:406). A `null` current-weather entry is not modelled either: the icon property would raise `AttributeError` at `current_weather.get` (sensor.py:313).
- JSON values of unexpected types (a non-string type, a non-number intensity) are not modelled.
- Floating-point representation is not modelled: intensities are reals.
- Summary.GenerateForecastSummary keeps the source's final `if summary_parts else` fallback. That branch cannot be taken, because the method has already returned when there are no periods.
