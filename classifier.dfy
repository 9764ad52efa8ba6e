/**
 * `_get_precipitation_description_key`: a period's peak intensity picks one of
 * three strength tiers (thresholds 2.5 and 10.0) and its type one of four named
 * kinds or the generic "precipitation", giving one of fifteen state keys.
 */
module Classifier {
  import opened Strings
  import opened Translation

  datatype Tier = Light | Moderate | Heavy

  datatype Kind = Rain | Snow | Sleet | Hail | OtherPrecipitation

  /** The strength tier of a peak intensity in mm/h. */
  function TierOf(maxIntensity: real): (t: Tier)
    ensures t == Light <==> maxIntensity < 2.5
    ensures t == Moderate <==> 2.5 <= maxIntensity < 10.0
    ensures t == Heavy <==> 10.0 <= maxIntensity
  {
    if maxIntensity < 2.5 then Light
    else if maxIntensity < 10.0 then Moderate
    else Heavy
  }

  /** The kind of a type string: the four named types, anything else is generic. */
  function KindOf(ptype: string): (k: Kind)
    ensures k == OtherPrecipitation <==> ptype !in {"rain", "snow", "sleet", "hail"}
    ensures k != OtherPrecipitation ==> KindName(k) == ptype
  {
    if ptype == "rain" then Rain
    else if ptype == "snow" then Snow
    else if ptype == "sleet" then Sleet
    else if ptype == "hail" then Hail
    else OtherPrecipitation
  }

  function TierPrefix(t: Tier): string {
    match t
    case Light => "light_"
    case Moderate => "moderate_"
    case Heavy => "heavy_"
  }

  function KindName(k: Kind): string {
    match k
    case Rain => "rain"
    case Snow => "snow"
    case Sleet => "sleet"
    case Hail => "hail"
    case OtherPrecipitation => "precipitation"
  }

  /** The state key of a tier and a kind. */
  function KeyOf(t: Tier, k: Kind): string {
    TierPrefix(t) + KindName(k)
  }

  /**
   * `_get_precipitation_description_key(precip_type, max_intensity)`: the key is
   * always the prefix of the intensity's tier followed by the name of the type's kind.
   */
  function DescriptionKey(ptype: string, maxIntensity: real): (key: string)
    ensures key == KeyOf(TierOf(maxIntensity), KindOf(ptype))
  {
    var prefix :=
      if maxIntensity < 2.5 then "light_"
      else if maxIntensity < 10.0 then "moderate_"
      else "heavy_";
    if ptype == "rain" then prefix + "rain"
    else if ptype == "snow" then prefix + "snow"
    else if ptype == "sleet" then prefix + "sleet"
    else if ptype == "hail" then prefix + "hail"
    else prefix + "precipitation"
  }

  /** The fifteen keys are pairwise distinct: a key names its tier and kind. */
  lemma KeyOfInjective(t1: Tier, k1: Kind, t2: Tier, k2: Kind)
    ensures KeyOf(t1, k1) == KeyOf(t2, k2) <==> t1 == t2 && k1 == k2
  {
    if KeyOf(t1, k1) == KeyOf(t2, k2) {
      var a, b := KeyOf(t1, k1), KeyOf(t2, k2);
      assert a[0] == b[0];
      assert t1 == t2;
      var n := |TierPrefix(t1)|;
      assert a[n] == b[n] && a[n + 1] == b[n + 1];
    }
  }

  /**
   * Two periods get the same description key exactly when their peaks fall in the
   * same tier and their types in the same kind.
   */
  lemma SameKeyIffSameClass(ptype1: string, x1: real, ptype2: string, x2: real)
    ensures DescriptionKey(ptype1, x1) == DescriptionKey(ptype2, x2)
      <==> TierOf(x1) == TierOf(x2) && KindOf(ptype1) == KindOf(ptype2)
  {
    KeyOfInjective(TierOf(x1), KindOf(ptype1), TierOf(x2), KindOf(ptype2));
  }

  /** Every description key is lower-case snake case, so it has no `';'`. */
  lemma DescriptionKeyIsSnake(ptype: string, maxIntensity: real)
    ensures SnakeKey(DescriptionKey(ptype, maxIntensity))
    ensures ';' !in DescriptionKey(ptype, maxIntensity)
  {
    var t, k := TierOf(maxIntensity), KindOf(ptype);
    assert SnakeKey(TierPrefix(t)) by {
      match t
      case Light =>
      case Moderate =>
      case Heavy =>
    }
    assert SnakeKey(KindName(k)) by {
      match k
      case Rain =>
      case Snow =>
      case Sleet =>
      case Hail =>
      case OtherPrecipitation =>
    }
  }
}
