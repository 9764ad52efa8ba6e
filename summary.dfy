/**
 * `_generate_forecast_summary`: the periods found by the segmenter become one
 * phrase each, in order, joined by `"; "`; with no period the summary is the
 * `no_precipitation` state text.
 */
module Summary {
  import opened ForecastData
  import opened Segmenter
  import opened Strings
  import opened Translation
  import opened Classifier

  const NoPrecipitationKey := "no_precipitation"

  /** `end_minute - start_minute + 1` */
  function Duration(p: Period): int {
    p.end - p.start + 1
  }

  /** The phrasing for a period: whether it starts now, and whether it lasts one minute. */
  function TemplateKey(p: Period): (key: string)
    ensures key in Templates
  {
    if p.start == 0 then
      if Duration(p) == 1 then "now" else "for_next_minutes"
    else if Duration(p) == 1 then "in_minutes"
    else "starting_in_minutes_lasting"
  }

  /** The placeholders each phrasing is given. */
  function Placeholders(p: Period, desc: string): map<string, string> {
    if p.start == 0 then
      if Duration(p) == 1 then map["precipitation" := desc]
      else map["precipitation" := desc, "duration" := IntToString(Duration(p))]
    else if Duration(p) == 1 then
      map["precipitation" := desc, "minutes" := IntToString(p.start)]
    else
      map["precipitation" := desc, "start_minutes" := IntToString(p.start),
          "duration" := IntToString(Duration(p))]
  }

  /** The translated description of a period's type and peak. */
  function Description(translations: map<string, string>, p: Period): string {
    TranslateState(translations, DescriptionKey(p.ptype, p.maxIntensity))
  }

  /** The summary part of a period with description `desc`. */
  function Phrase(p: Period, desc: string): string {
    TranslateForecast(TemplateKey(p), Placeholders(p, desc))
  }

  /** The summary part of one period. */
  function Fragment(translations: map<string, string>, p: Period): string {
    Phrase(p, Description(translations, p))
  }

  /** `[f(x) for x in xs]` */
  function MapSeq<A, B>(f: A -> B, xs: seq<A>): (ys: seq<B>)
    ensures |ys| == |xs|
    ensures forall q :: 0 <= q < |xs| ==> ys[q] == f(xs[q])
  {
    seq(|xs|, q requires 0 <= q < |xs| => f(xs[q]))
  }

  /** The rendering of one period's part, as a function value. */
  function Renderer(translations: map<string, string>): Period -> string {
    p => Fragment(translations, p)
  }

  /** The parts of the periods, in period order. */
  function Fragments(translations: map<string, string>, ps: seq<Period>): seq<string> {
    MapSeq(Renderer(translations), ps)
  }

  /** The summary of a list of minutes. */
  function ForecastSummary(translations: map<string, string>, minutes: seq<Minute>): string {
    var periods := Periods(minutes);
    if periods == [] then TranslateState(translations, NoPrecipitationKey)
    else Join(Fragments(translations, periods), Separator)
  }

  /**
   * `_generate_forecast_summary(minutes)`: finds the periods, then renders their
   * parts and joins them.
   */
  method GenerateForecastSummary(translations: map<string, string>, minutes: seq<Minute>)
    returns (summary: string)
    ensures summary == ForecastSummary(translations, minutes)
  {
    var periods := FindPeriods(minutes);
    if periods == [] {
      return TranslateState(translations, NoPrecipitationKey);
    }
    var parts := RenderParts(translations, periods);
    summary := if parts != [] then Join(parts, Separator) else TranslateState(translations, NoPrecipitationKey);
  }

  /** The loop over the periods that appends one part per period to `summary_parts`. */
  method RenderParts(translations: map<string, string>, periods: seq<Period>) returns (parts: seq<string>)
    ensures parts == Fragments(translations, periods)
  {
    parts := AppendEach(Renderer(translations), periods);
  }

  /** `for x in xs: ys.append(f(x))` */
  method AppendEach<A, B>(f: A -> B, xs: seq<A>) returns (ys: seq<B>)
    ensures ys == MapSeq(f, xs)
  {
    ys := [];
    for k := 0 to |xs|
      invariant |ys| == k
      invariant forall q :: 0 <= q < k ==> ys[q] == f(xs[q])
    {
      ys := ys + [f(xs[k])];
    }
  }

  // ---------------------------------------------------------------------------
  // What the summary says

  /** Every period lasts at least one minute. */
  lemma PeriodsLastAMinute(minutes: seq<Minute>, q: nat)
    requires q < |Periods(minutes)|
    ensures Duration(Periods(minutes)[q]) >= 1
    ensures Periods(minutes)[q].end < |minutes|
  {
    PeriodsAreSegmentation(minutes);
    assert PeriodOf(minutes, Periods(minutes)[q]);
  }

  /**
   * The wording of one period's part: which of the four phrasings is used, and the
   * start minute and the duration written in decimal.
   */
  lemma FragmentWording(p: Period, desc: string)
    requires p.start <= p.end
    ensures var d := NatToString(p.end - p.start + 1);
      Phrase(p, desc) ==
        if p.start == 0 && p.start == p.end then desc + " now"
        else if p.start == 0 then desc + " for the next " + d + " minutes"
        else if p.start == p.end then desc + " in " + NatToString(p.start) + " minutes"
        else desc + " starting in " + NatToString(p.start) + " minutes, lasting " + d + " minutes"
  {
    var start, d := NatToString(p.start), NatToString(p.end - p.start + 1);
    assert IntToString(p.start) == start && IntToString(Duration(p)) == d;
    if p.start == 0 && p.start == p.end {
      assert Placeholders(p, desc) == map["precipitation" := desc];
      NowTranslates(desc);
    } else if p.start == 0 {
      assert Placeholders(p, desc) == map["precipitation" := desc, "duration" := d];
      ForNextMinutesTranslates(desc, d);
    } else if p.start == p.end {
      assert Placeholders(p, desc) == map["precipitation" := desc, "minutes" := start];
      InMinutesTranslates(desc, start);
    } else {
      assert Placeholders(p, desc) == map["precipitation" := desc, "start_minutes" := start, "duration" := d];
      StartingInTranslates(desc, start, d);
    }
  }

  /** The summary is the no-precipitation text exactly when no minute has positive intensity. */
  lemma DrySummary(translations: map<string, string>, minutes: seq<Minute>)
    ensures (forall j :: 0 <= j < |minutes| ==> IntensityOf(minutes[j]) <= 0.0) ==>
      ForecastSummary(translations, minutes) == TranslateState(translations, NoPrecipitationKey)
    ensures (exists j :: 0 <= j < |minutes| && IntensityOf(minutes[j]) > 0.0) ==>
      ForecastSummary(translations, minutes) == Join(Fragments(translations, Periods(minutes)), Separator)
      && |Periods(minutes)| > 0
  {
    NoPeriodsIffDry(minutes);
  }

  /** A period's part contains no `';'` when no translation text does. */
  lemma FragmentHasNoSemicolon(translations: map<string, string>, p: Period)
    requires p.start <= p.end
    requires forall key :: key in translations ==> ';' !in translations[key]
    ensures ';' !in Fragment(translations, p)
  {
    var key := DescriptionKey(p.ptype, p.maxIntensity);
    DescriptionKeyIsSnake(p.ptype, p.maxIntensity);
    FallbackKeepsSemicolons(key);
    var desc := Description(translations, p);
    assert ';' !in desc;
    var start, d := NatToString(p.start), NatToString(p.end - p.start + 1);
    NatToStringRoundTrip(p.start);
    NatToStringRoundTrip(p.end - p.start + 1);
    assert ';' !in start && ';' !in d;
    WordingHasNoSemicolon(desc, start, d);
    FragmentWording(p, desc);
  }

  /** The four phrasings add no `';'` of their own. */
  lemma WordingHasNoSemicolon(desc: string, start: string, d: string)
    requires ';' !in desc && ';' !in start && ';' !in d
    ensures ';' !in desc + " now"
    ensures ';' !in desc + " for the next " + d + " minutes"
    ensures ';' !in desc + " in " + start + " minutes"
    ensures ';' !in desc + " starting in " + start + " minutes, lasting " + d + " minutes"
  {
  }

  /**
   * With semicolon-free translations, the summary of `n > 0` periods holds exactly
   * `n - 1` separators: one between each pair of neighbouring parts.
   */
  lemma SummarySeparators(translations: map<string, string>, minutes: seq<Minute>)
    requires forall key :: key in translations ==> ';' !in translations[key]
    requires Periods(minutes) != []
    ensures SeparatorCount(ForecastSummary(translations, minutes)) == |Periods(minutes)| - 1
  {
    var ps := Periods(minutes);
    var parts := Fragments(translations, ps);
    forall q | 0 <= q < |parts| ensures SeparatorCount(parts[q]) == 0 {
      assert parts[q] == Renderer(translations)(ps[q]) == Fragment(translations, ps[q]);
      PeriodsLastAMinute(minutes, q);
      FragmentHasNoSemicolon(translations, ps[q]);
      NoSemicolonNoSeparator(parts[q]);
    }
    JoinSeparatorCount(parts);
  }
}
