/**
 * The sensor's two text hooks: `_translate_state`, which looks a state key up in
 * Home Assistant's translation cache and otherwise falls back to the key itself in
 * title case, and `_translate_forecast`, which fills one of four fixed phrasing
 * templates and never raises.
 *
 * The translation cache is a parameter: a map from full translation keys to text.
 */
module Translation {
  import opened Strings

  const Domain := "custom_weatherkit"

  /** The prefix of every state translation key of the next-hour sensor. */
  const StateKeyPrefix := "component." + Domain + ".entity.sensor.next_hour_forecast.state."

  /** `state_key.replace("_", " ").title()` */
  function FallbackText(key: string): string {
    Title(UnderscoresToSpaces(key))
  }

  /**
   * `_translate_state`: the cached translation, or the fallback text, which keeps
   * the key's length, its letters and its word breaks.
   */
  function TranslateState(translations: map<string, string>, key: string): (text: string)
    ensures StateKeyPrefix + key in translations ==> text == translations[StateKeyPrefix + key]
    ensures StateKeyPrefix + key !in translations ==>
      |text| == |key|
      && forall i :: 0 <= i < |key| ==>
        (IsLetter(text[i]) <==> IsLetter(key[i])) && (text[i] == ' ' <==> key[i] == '_' || key[i] == ' ')
  {
    var fullKey := StateKeyPrefix + key;
    if fullKey in translations then translations[fullKey] else FallbackText(key)
  }

  /** Lower-case ASCII words joined by underscores: the only state keys the sensor produces. */
  predicate SnakeKey(key: string) {
    forall c :: c in key ==> IsLower(c) || c == '_'
  }

  /**
   * Without a translation a snake-case key reads as words: each underscore becomes
   * a space, a word's first letter is capitalised and the others are kept.
   */
  lemma FallbackOfSnakeKey(translations: map<string, string>, key: string)
    requires SnakeKey(key) && StateKeyPrefix + key !in translations
    ensures |TranslateState(translations, key)| == |key|
    ensures forall i :: 0 <= i < |key| ==>
      TranslateState(translations, key)[i] ==
        (if key[i] == '_' then ' ' else if i == 0 || key[i - 1] == '_' then ToUpper(key[i]) else key[i])
  {
    var text := FallbackText(key);
    assert TranslateState(translations, key) == text;
    forall i | 0 <= i < |key|
      ensures text[i] == (if key[i] == '_' then ' ' else if i == 0 || key[i - 1] == '_' then ToUpper(key[i]) else key[i])
    {
      SnakeCharFallback(key, i);
    }
  }

  /** One character of the fallback text of a snake key. */
  lemma SnakeCharFallback(key: string, i: nat)
    requires SnakeKey(key) && i < |key|
    ensures |FallbackText(key)| == |key|
    ensures FallbackText(key)[i] ==
      (if key[i] == '_' then ' ' else if i == 0 || key[i - 1] == '_' then ToUpper(key[i]) else key[i])
  {
    assert key[i] in key;
    if i > 0 {
      assert key[i - 1] in key;
    }
  }

  /** The fallback text contains a semicolon only if the key does. */
  lemma FallbackKeepsSemicolons(key: string)
    ensures ';' in FallbackText(key) ==> ';' in key
  {
    var spaced := UnderscoresToSpaces(key);
    if ';' in FallbackText(key) {
      var i :| 0 <= i < |FallbackText(key)| && FallbackText(key)[i] == ';';
      assert Title(spaced)[i] == TitleChar(spaced[i], i > 0 && IsLetter(spaced[i - 1]));
      assert key[i] == ';';
    }
  }

  /** "{precipitation} now" */
  const NowTemplate := Field("precipitation") + " now"
  /** "{precipitation} for the next {duration} minutes" */
  const ForNextMinutesTemplate := Field("precipitation") + " for the next " + Field("duration") + " minutes"
  /** "{precipitation} in {minutes} minutes" */
  const InMinutesTemplate := Field("precipitation") + " in " + Field("minutes") + " minutes"
  /** "{precipitation} starting in {start_minutes} minutes, lasting {duration} minutes" */
  const StartingInMinutesLastingTemplate :=
    Field("precipitation") + " starting in " + Field("start_minutes") + " minutes, lasting "
    + Field("duration") + " minutes"

  /** The phrasing templates, by key. */
  const Templates: map<string, string> := map[
    "now" := NowTemplate,
    "for_next_minutes" := ForNextMinutesTemplate,
    "in_minutes" := InMinutesTemplate,
    "starting_in_minutes_lasting" := StartingInMinutesLastingTemplate]

  /** The fields of each template, each with the text that follows it. */
  const TemplateFields: map<string, seq<(string, string)>> := map[
    "now" := [("precipitation", " now")],
    "for_next_minutes" := [("precipitation", " for the next "), ("duration", " minutes")],
    "in_minutes" := [("precipitation", " in "), ("minutes", " minutes")],
    "starting_in_minutes_lasting" :=
      [("precipitation", " starting in "), ("start_minutes", " minutes, lasting "), ("duration", " minutes")]]

  /** Some field of the template for `key` has no placeholder. */
  predicate LacksField(key: string, placeholders: map<string, string>)
    requires key in TemplateFields
  {
    exists f :: f in TemplateFields[key] && f.0 !in placeholders
  }

  /** The template for `key`: the table entry, or the key with underscores as spaces. */
  function TemplateFor(key: string): string {
    if key in Templates then Templates[key] else UnderscoresToSpaces(key)
  }

  /**
   * `_translate_forecast`: the template with its placeholders filled in, or the
   * template itself when formatting raises KeyError or ValueError.
   */
  function TranslateForecast(key: string, placeholders: map<string, string>): (text: string)
    ensures key in Templates && "precipitation" !in placeholders ==> text == Templates[key]
    ensures key !in Templates && BraceFree(key) ==> text == UnderscoresToSpaces(key)
    ensures key in Templates && key in TemplateFields && LacksField(key, placeholders) ==> text == Templates[key]
    ensures !Format(TemplateFor(key), placeholders).Formatted? ==> text == TemplateFor(key)
  {
    TemplatesNeedPrecipitation(key, placeholders);
    TemplatesNeedEveryField(key, placeholders);
    UnknownKeyFormatsToItself(key, placeholders);
    var template := TemplateFor(key);
    match Format(template, placeholders)
    case Formatted(text) => text
    case KeyError(_) => template
    case ValueError => template
  }

  /**
   * With the placeholders the summary passes, each template formats without error
   * into its fixed wording.
   */
  lemma TemplatesAtCallSites(desc: string, minutes: string, duration: string)
    ensures TranslateForecast("now", map["precipitation" := desc]) == desc + " now"
    ensures TranslateForecast("for_next_minutes", map["precipitation" := desc, "duration" := duration])
      == desc + " for the next " + duration + " minutes"
    ensures TranslateForecast("in_minutes", map["precipitation" := desc, "minutes" := minutes])
      == desc + " in " + minutes + " minutes"
    ensures TranslateForecast("starting_in_minutes_lasting",
        map["precipitation" := desc, "start_minutes" := minutes, "duration" := duration])
      == desc + " starting in " + minutes + " minutes, lasting " + duration + " minutes"
  {
    NowTranslates(desc);
    ForNextMinutesTranslates(desc, duration);
    InMinutesTranslates(desc, minutes);
    StartingInTranslates(desc, minutes, duration);
  }

  lemma NowTranslates(desc: string)
    ensures TranslateForecast("now", map["precipitation" := desc]) == desc + " now"
  {
    assert TemplateFor("now") == NowTemplate;
    FormatOneField("precipitation", " now", map["precipitation" := desc]);
  }

  lemma ForNextMinutesTranslates(desc: string, duration: string)
    ensures TranslateForecast("for_next_minutes", map["precipitation" := desc, "duration" := duration])
      == desc + " for the next " + duration + " minutes"
  {
    assert TemplateFor("for_next_minutes") == ForNextMinutesTemplate;
    StartingInPieces();
    ShorterPieces();
    FormatTwoFields("precipitation", " for the next ", "duration", " minutes",
      map["precipitation" := desc, "duration" := duration]);
  }

  lemma InMinutesTranslates(desc: string, minutes: string)
    ensures TranslateForecast("in_minutes", map["precipitation" := desc, "minutes" := minutes])
      == desc + " in " + minutes + " minutes"
  {
    assert TemplateFor("in_minutes") == InMinutesTemplate;
    StartingInPieces();
    ShorterPieces();
    FormatTwoFields("precipitation", " in ", "minutes", " minutes",
      map["precipitation" := desc, "minutes" := minutes]);
  }

  lemma StartingInTranslates(desc: string, minutes: string, duration: string)
    ensures TranslateForecast("starting_in_minutes_lasting",
        map["precipitation" := desc, "start_minutes" := minutes, "duration" := duration])
      == desc + " starting in " + minutes + " minutes, lasting " + duration + " minutes"
  {
    assert TemplateFor("starting_in_minutes_lasting") == StartingInMinutesLastingTemplate;
    StartingInPieces();
    FormatThreeFields("precipitation", " starting in ", "start_minutes", " minutes, lasting ",
      "duration", " minutes", map["precipitation" := desc, "start_minutes" := minutes, "duration" := duration]);
  }

  /** The field names and the text between them in the longest template have no braces. */
  lemma StartingInPieces()
    ensures BraceFree("precipitation") && BraceFree(" starting in ") && BraceFree("start_minutes")
    ensures BraceFree(" minutes, lasting ") && BraceFree("duration") && BraceFree(" minutes")
  {
    LaterPieces();
  }

  /** The remaining field name and texts of the shorter templates have no braces. */
  lemma ShorterPieces()
    ensures BraceFree(" now") && BraceFree(" for the next ") && BraceFree(" in ") && BraceFree("minutes")
  {
  }

  lemma LaterPieces()
    ensures BraceFree(" minutes, lasting ") && BraceFree("duration") && BraceFree(" minutes")
  {
  }

  /**
   * Every template starts with `{precipitation}`: without that placeholder
   * formatting it raises KeyError for that name.
   */
  lemma TemplatesNeedPrecipitation(key: string, placeholders: map<string, string>)
    ensures key in Templates && "precipitation" !in placeholders ==>
      Format(Templates[key], placeholders) == KeyError("precipitation")
  {
    if key in Templates && "precipitation" !in placeholders {
      var f := Field("precipitation");
      var rest :=
        if key == "now" then " now"
        else if key == "for_next_minutes" then " for the next " + Field("duration") + " minutes"
        else if key == "in_minutes" then " in " + Field("minutes") + " minutes"
        else " starting in " + Field("start_minutes") + " minutes, lasting " + Field("duration") + " minutes";
      if key == "now" {
      } else if key == "for_next_minutes" {
        HeadAssoc(f, " for the next ", Field("duration"), " minutes", "", "");
      } else if key == "in_minutes" {
        HeadAssoc(f, " in ", Field("minutes"), " minutes", "", "");
      } else {
        HeadAssoc(f, " starting in ", Field("start_minutes"), " minutes, lasting ", Field("duration"), " minutes");
      }
      assert Templates[key] == f + rest;
      FormatField("precipitation", rest, placeholders);
    }
  }

  /** The table's keys are exactly the keys whose fields are listed. */
  lemma TemplateKeys(key: string)
    ensures key in Templates <==> key in TemplateFields
  {
  }

  /** Each template is its fields, each followed by its text, and those are well formed. */
  lemma TemplateIsFields(key: string)
    requires key in Templates && key in TemplateFields
    ensures Templates[key] == FieldsTemplate(TemplateFields[key])
    ensures WellFormedFields(TemplateFields[key])
  {
    if key == "now" {
      NowIsFields();
    } else if key == "for_next_minutes" {
      ForNextMinutesIsFields();
    } else if key == "in_minutes" {
      InMinutesIsFields();
    } else {
      StartingInIsFields();
    }
  }

  lemma NowIsFields()
    ensures NowTemplate == FieldsTemplate(TemplateFields["now"])
    ensures WellFormedFields(TemplateFields["now"])
  {
    var fields := [("precipitation", " now")];
    assert TemplateFields["now"] == fields && fields[1..] == [];
    assert FieldsTemplate(fields) == Field("precipitation") + (" now" + "");
  }

  lemma ForNextMinutesIsFields()
    ensures ForNextMinutesTemplate == FieldsTemplate(TemplateFields["for_next_minutes"])
    ensures WellFormedFields(TemplateFields["for_next_minutes"])
  {
    assert TemplateFields["for_next_minutes"] == [("precipitation", " for the next "), ("duration", " minutes")];
    TwoFieldsShape("precipitation", " for the next ", "duration", " minutes");
    WellFormedTwo("precipitation", " for the next ", "duration", " minutes");
  }

  lemma InMinutesIsFields()
    ensures InMinutesTemplate == FieldsTemplate(TemplateFields["in_minutes"])
    ensures WellFormedFields(TemplateFields["in_minutes"])
  {
    assert TemplateFields["in_minutes"] == [("precipitation", " in "), ("minutes", " minutes")];
    TwoFieldsShape("precipitation", " in ", "minutes", " minutes");
    WellFormedTwo("precipitation", " in ", "minutes", " minutes");
  }

  lemma StartingInIsFields()
    ensures StartingInMinutesLastingTemplate == FieldsTemplate(TemplateFields["starting_in_minutes_lasting"])
    ensures WellFormedFields(TemplateFields["starting_in_minutes_lasting"])
  {
    assert TemplateFields["starting_in_minutes_lasting"] ==
      [("precipitation", " starting in "), ("start_minutes", " minutes, lasting "), ("duration", " minutes")];
    ThreeFieldsShape("precipitation", " starting in ", "start_minutes", " minutes, lasting ",
      "duration", " minutes");
    StartingInPieces();
    WellFormedThree("precipitation", " starting in ", "start_minutes", " minutes, lasting ",
      "duration", " minutes");
  }

  /**
   * A template raises KeyError whenever one of its fields has no placeholder, so
   * `_translate_forecast` then returns the raw template.
   */
  lemma TemplatesNeedEveryField(key: string, placeholders: map<string, string>)
    ensures key in Templates && key in TemplateFields && LacksField(key, placeholders) ==>
      Format(Templates[key], placeholders).KeyError?
  {
    if key in Templates && key in TemplateFields && LacksField(key, placeholders) {
      TemplateIsFields(key);
      FormatFieldsTemplateMissing(TemplateFields[key], placeholders);
    }
  }

  lemma HeadAssoc(a: string, b: string, c: string, d: string, e: string, g: string)
    ensures a + b + c + d == a + (b + c + d)
    ensures a + b + c + d + e + g == a + (b + c + d + e + g)
  {
  }

  /** A key outside the table without braces reads as words, which format to themselves. */
  lemma UnknownKeyFormatsToItself(key: string, placeholders: map<string, string>)
    ensures key !in Templates && BraceFree(key) ==>
      Format(UnderscoresToSpaces(key), placeholders) == Formatted(UnderscoresToSpaces(key))
  {
    if key !in Templates && BraceFree(key) {
      var t := UnderscoresToSpaces(key);
      forall i | 0 <= i < |t| ensures t[i] != '{' && t[i] != '}' {
        assert key[i] in key;
      }
      FormatBraceFree(t, placeholders);
    }
  }
}
