/**
 * The precipitation segmenter: one forward scan over the per-minute samples that
 * turns every run of wet minutes into a period with its first and last minute,
 * its type and its peak intensity.
 *
 * `Scan` is the scan written as a left fold, one `Step` per minute; the method
 * `FindPeriods` is the loop itself and is proved equal to it. `IsSegmentation`
 * says independently what the result is (maximal runs, each with its maximum and
 * its last-labelled type) and `PeriodsAreSegmentation` proves the fold meets it.
 */
module Segmenter {
  import opened Wrappers
  import opened ForecastData

  /** A closed period: minutes `start..end`, both inclusive. */
  datatype Period = Period(start: nat, end: nat, ptype: string, maxIntensity: real)

  /** The period the scan has open: `current_period_start/type/max_intensity`. */
  datatype OpenPeriod = OpenPeriod(start: nat, ptype: string, peak: real)

  datatype ScanState = ScanState(closed: seq<Period>, open: Option<OpenPeriod>)

  /** Python's `max(a, b)` on two floats. */
  function Max(a: real, b: real): real {
    if a >= b then a else b
  }

  /**
   * One iteration of the scan, for minute `i`. The three guarded branches are the
   * source's; an intensity matching none of them (a negative one, or a dry minute
   * with nothing open) leaves the state as it is.
   */
  function Step(s: ScanState, i: nat, m: Minute): ScanState
    requires s.open.Some? ==> s.open.value.start < i
  {
    var x := IntensityOf(m);
    var t := TypeOf(m);
    if x > 0.0 && s.open.None? then
      ScanState(s.closed, Some(OpenPeriod(i, t, x)))
    else if x > 0.0 && s.open.Some? then
      var o := s.open.value;
      ScanState(s.closed, Some(OpenPeriod(o.start, if t != "clear" then t else o.ptype, Max(o.peak, x))))
    else if x == 0.0 && s.open.Some? then
      var o := s.open.value;
      ScanState(s.closed + [Period(o.start, i - 1, o.ptype, o.peak)], None)
    else
      s
  }

  /** The state of the scan after its first `k` minutes. */
  function Scan(ms: seq<Minute>, k: nat): (s: ScanState)
    requires k <= |ms|
    ensures s.open.Some? ==> s.open.value.start < k
    decreases k
  {
    if k == 0 then ScanState([], None) else Step(Scan(ms, k - 1), k - 1, ms[k - 1])
  }

  /** After the loop: a period still open ends at the last minute. */
  function Finish(s: ScanState, n: nat): seq<Period>
    requires s.open.Some? ==> s.open.value.start < n
  {
    match s.open
    case None => s.closed
    case Some(o) => s.closed + [Period(o.start, n - 1, o.ptype, o.peak)]
  }

  /** The periods the scan produces for a minute list. */
  function Periods(ms: seq<Minute>): seq<Period> {
    Finish(Scan(ms, |ms|), |ms|)
  }

  /**
   * The scan loop. Both the summary and the icon run it; the source repeats it in
   * each of them.
   */
  method FindPeriods(minutes: seq<Minute>) returns (periods: seq<Period>)
    ensures periods == Periods(minutes)
  {
    periods := [];
    var currentStart: Option<nat> := None;
    var currentType := "";
    var currentMax := 0.0;
    for i := 0 to |minutes|
      invariant Scan(minutes, i) ==
        ScanState(periods, if currentStart.Some? then Some(OpenPeriod(currentStart.value, currentType, currentMax)) else None)
    {
      var intensity := IntensityOf(minutes[i]);
      var precipType := TypeOf(minutes[i]);
      if intensity > 0.0 && currentStart.None? {
        currentStart, currentType, currentMax := Some(i), precipType, intensity;
      } else if intensity > 0.0 && currentStart.Some? {
        currentMax := Max(currentMax, intensity);
        if precipType != "clear" {
          currentType := precipType;
        }
      } else if intensity == 0.0 && currentStart.Some? {
        periods := periods + [Period(currentStart.value, i - 1, currentType, currentMax)];
        currentStart, currentType, currentMax := None, "", 0.0;
      }
    }
    if currentStart.Some? {
      periods := periods + [Period(currentStart.value, |minutes| - 1, currentType, currentMax)];
    }
  }

  // ---------------------------------------------------------------------------
  // What the periods are, stated without the scan.

  /** A wet minute whose type label is not "clear": it sets the period's type. */
  predicate Labelled(m: Minute) {
    IntensityOf(m) > 0.0 && TypeOf(m) != "clear"
  }

  /** The largest intensity among minutes `lo..hi-1`. */
  function MaxOver(ms: seq<Minute>, lo: nat, hi: nat): real
    requires lo < hi <= |ms|
    decreases hi
  {
    if hi == lo + 1 then IntensityOf(ms[lo])
    else Max(MaxOver(ms, lo, hi - 1), IntensityOf(ms[hi - 1]))
  }

  /** `MaxOver` is the maximum: no minute of the range exceeds it and one reaches it. */
  lemma {:induction false} MaxOverIsMaximum(ms: seq<Minute>, lo: nat, hi: nat)
    requires lo < hi <= |ms|
    ensures forall j :: lo <= j < hi ==> IntensityOf(ms[j]) <= MaxOver(ms, lo, hi)
    ensures exists j :: lo <= j < hi && IntensityOf(ms[j]) == MaxOver(ms, lo, hi)
    decreases hi
  {
    if hi > lo + 1 {
      MaxOverIsMaximum(ms, lo, hi - 1);
      var j :| lo <= j < hi - 1 && IntensityOf(ms[j]) == MaxOver(ms, lo, hi - 1);
      if MaxOver(ms, lo, hi) == IntensityOf(ms[hi - 1]) {
        assert IntensityOf(ms[hi - 1]) == MaxOver(ms, lo, hi);
      } else {
        assert IntensityOf(ms[j]) == MaxOver(ms, lo, hi);
      }
    } else {
      assert IntensityOf(ms[lo]) == MaxOver(ms, lo, hi);
    }
  }

  /**
   * The type of a period over minutes `lo..hi-1`: that of its last labelled minute
   * after the first, or the first minute's own type (possibly "clear") if none is.
   */
  function RunType(ms: seq<Minute>, lo: nat, hi: nat): string
    requires lo < hi <= |ms|
    decreases hi
  {
    if hi == lo + 1 then TypeOf(ms[lo])
    else if Labelled(ms[hi - 1]) then TypeOf(ms[hi - 1])
    else RunType(ms, lo, hi - 1)
  }

  /**
   * `RunType` is the type of the last labelled minute after the first one, and the
   * first minute's type when there is no such minute.
   */
  lemma {:induction false} RunTypeIsLastLabel(ms: seq<Minute>, lo: nat, hi: nat)
    requires lo < hi <= |ms|
    ensures (forall j :: lo < j < hi ==> !Labelled(ms[j])) ==> RunType(ms, lo, hi) == TypeOf(ms[lo])
    ensures (exists j :: lo < j < hi && Labelled(ms[j])) ==>
      exists j :: lo < j < hi && Labelled(ms[j]) && RunType(ms, lo, hi) == TypeOf(ms[j])
        && forall j' :: j < j' < hi ==> !Labelled(ms[j'])
    decreases hi
  {
    if hi > lo + 1 && !Labelled(ms[hi - 1]) {
      RunTypeIsLastLabel(ms, lo, hi - 1);
    }
  }

  /** No wet minute among `lo..hi-1`. */
  predicate NoRainBetween(ms: seq<Minute>, lo: nat, hi: nat) {
    forall j :: lo <= j < hi && j < |ms| ==> IntensityOf(ms[j]) <= 0.0
  }

  /**
   * `p` is a maximal run of non-zero minutes that starts wet, with the run's peak
   * intensity and type.
   */
  predicate PeriodOf(ms: seq<Minute>, p: Period) {
    && p.start <= p.end < |ms|
    && IntensityOf(ms[p.start]) > 0.0
    && (p.start == 0 || IntensityOf(ms[p.start - 1]) <= 0.0)
    && (forall j :: p.start <= j <= p.end ==> IntensityOf(ms[j]) != 0.0)
    && (p.end == |ms| - 1 || IntensityOf(ms[p.end + 1]) == 0.0)
    && p.maxIntensity == MaxOver(ms, p.start, p.end + 1)
    && p.ptype == RunType(ms, p.start, p.end + 1)
  }

  /** Where the gap before period `q` begins (the gap after the last one for `q == |ps|`). */
  function GapStart(ps: seq<Period>, q: nat): nat
    requires q <= |ps|
  {
    if q == 0 then 0 else ps[q - 1].end + 1
  }

  /** The gap before period `q` (after the last period for `q == |ps|`) is dry. */
  predicate DryGap(ms: seq<Minute>, ps: seq<Period>, q: nat)
    requires q <= |ps|
  {
    NoRainBetween(ms, GapStart(ps, q), if q < |ps| then ps[q].start else |ms|)
  }

  /**
   * `ps` lists, in order, the periods of `ms`: each is a maximal non-zero run, they
   * are separated by at least one dry minute, and no wet minute lies outside them.
   */
  predicate IsSegmentation(ms: seq<Minute>, ps: seq<Period>) {
    && (forall q :: 0 <= q < |ps| ==> PeriodOf(ms, ps[q]))
    && (forall q, r :: 0 <= q < r < |ps| ==> ps[q].end + 1 < ps[r].start)
    && (forall q :: 0 <= q <= |ps| ==> DryGap(ms, ps, q))
  }

  // ---------------------------------------------------------------------------
  // The scan meets the specification.

  predicate OpenInv(ms: seq<Minute>, k: nat, c: seq<Period>, o: OpenPeriod)
    requires k <= |ms|
  {
    && GapStart(c, |c|) <= o.start < k
    && (forall q :: 0 <= q < |c| ==> c[q].end + 1 < o.start)
    && NoRainBetween(ms, GapStart(c, |c|), o.start)
    && IntensityOf(ms[o.start]) > 0.0
    && (o.start == 0 || IntensityOf(ms[o.start - 1]) <= 0.0)
    && (forall j :: o.start <= j < k ==> IntensityOf(ms[j]) != 0.0)
    && o.peak > 0.0
    && o.peak == MaxOver(ms, o.start, k)
    && o.ptype == RunType(ms, o.start, k)
  }

  /** The closed periods of a scan that has read `k` minutes. */
  predicate ClosedInv(ms: seq<Minute>, k: nat, c: seq<Period>)
    requires k <= |ms|
  {
    && (forall q :: 0 <= q < |c| ==> PeriodOf(ms, c[q]) && c[q].end + 1 < k)
    && (forall q, r :: 0 <= q < r < |c| ==> c[q].end + 1 < c[r].start)
    && (forall q :: 0 <= q < |c| ==> DryGap(ms, c, q))
  }

  predicate ScanInv(ms: seq<Minute>, k: nat, s: ScanState)
    requires k <= |ms|
  {
    && ClosedInv(ms, k, s.closed)
    && match s.open
       case None => NoRainBetween(ms, GapStart(s.closed, |s.closed|), k)
       case Some(o) => OpenInv(ms, k, s.closed, o)
  }

  /** Appending a period keeps the earlier periods and the gaps before them. */
  lemma AppendKeepsGaps(ms: seq<Minute>, c: seq<Period>, p: Period)
    requires forall q :: 0 <= q < |c| ==> DryGap(ms, c, q)
    ensures forall q :: 0 <= q < |c| ==> DryGap(ms, c + [p], q)
  {
    var c' := c + [p];
    forall q | 0 <= q < |c| ensures DryGap(ms, c', q) {
      assert GapStart(c', q) == GapStart(c, q) && c'[q] == c[q];
      assert DryGap(ms, c, q);
    }
  }

  /** Appending a period of the minutes keeps every listed period one. */
  lemma AppendKeepsPeriods(ms: seq<Minute>, c: seq<Period>, p: Period)
    requires forall q :: 0 <= q < |c| ==> PeriodOf(ms, c[q])
    requires PeriodOf(ms, p)
    ensures forall q :: 0 <= q < |c| + 1 ==> PeriodOf(ms, (c + [p])[q])
  {
    forall q | 0 <= q < |c| + 1 ensures PeriodOf(ms, (c + [p])[q]) {
      if q < |c| {
        assert (c + [p])[q] == c[q];
      }
    }
  }

  /** Appending a period that starts after every listed one ends keeps them separated. */
  lemma AppendKeepsOrder(c: seq<Period>, p: Period)
    requires forall q, r :: 0 <= q < r < |c| ==> c[q].end + 1 < c[r].start
    requires forall q :: 0 <= q < |c| ==> c[q].end + 1 < p.start
    ensures forall q, r :: 0 <= q < r < |c| + 1 ==> (c + [p])[q].end + 1 < (c + [p])[r].start
  {
    var c' := c + [p];
    forall q, r | 0 <= q < r < |c'| ensures c'[q].end + 1 < c'[r].start {
      assert c'[q] == c[q];
      if r < |c| {
        assert c'[r] == c[r];
      }
    }
  }

  /** A wet minute after a dry one (or first) opens a period. */
  lemma OpenStep(ms: seq<Minute>, i: nat, s: ScanState)
    requires i < |ms| && ScanInv(ms, i, s)
    requires IntensityOf(ms[i]) > 0.0 && s.open.None?
    ensures ScanInv(ms, i + 1, Step(s, i, ms[i]))
  {
  }

  /** Reading one more minute keeps the closed periods valid. */
  lemma ClosedInvGrows(ms: seq<Minute>, k: nat, c: seq<Period>)
    requires k < |ms| && ClosedInv(ms, k, c)
    ensures ClosedInv(ms, k + 1, c)
  {
  }

  /** A wet minute while a period is open extends it. */
  lemma ExtendStep(ms: seq<Minute>, i: nat, s: ScanState)
    requires i < |ms| && ScanInv(ms, i, s)
    requires IntensityOf(ms[i]) > 0.0 && s.open.Some?
    ensures ScanInv(ms, i + 1, Step(s, i, ms[i]))
  {
    var o := s.open.value;
    var x, t := IntensityOf(ms[i]), TypeOf(ms[i]);
    var o' := OpenPeriod(o.start, if t != "clear" then t else o.ptype, Max(o.peak, x));
    assert Step(s, i, ms[i]) == ScanState(s.closed, Some(o'));
    ClosedInvGrows(ms, i, s.closed);
    assert MaxOver(ms, o.start, i + 1) == o'.peak;
    assert RunType(ms, o.start, i + 1) == o'.ptype;
    assert OpenInv(ms, i + 1, s.closed, o');
  }

  /** A negative minute while a period is open leaves it open and unchanged. */
  lemma NegativeStep(ms: seq<Minute>, i: nat, s: ScanState)
    requires i < |ms| && ScanInv(ms, i, s)
    requires IntensityOf(ms[i]) < 0.0 && s.open.Some?
    ensures ScanInv(ms, i + 1, Step(s, i, ms[i]))
  {
    var o := s.open.value;
    assert Step(s, i, ms[i]) == s;
    ClosedInvGrows(ms, i, s.closed);
    assert MaxOver(ms, o.start, i + 1) == o.peak;
    assert RunType(ms, o.start, i + 1) == o.ptype;
    assert OpenInv(ms, i + 1, s.closed, o);
  }

  /** The open period, ended before minute `k`, is a period of the minutes. */
  lemma ClosedPeriodOf(ms: seq<Minute>, k: nat, c: seq<Period>, o: OpenPeriod)
    requires k <= |ms| && OpenInv(ms, k, c, o)
    requires k == |ms| || IntensityOf(ms[k]) == 0.0
    ensures PeriodOf(ms, Period(o.start, k - 1, o.ptype, o.peak))
  {
  }

  /**
   * Appending a period after the last gap keeps every period valid, the periods
   * separated and the gaps before them dry.
   */
  lemma AppendPeriod(ms: seq<Minute>, k: nat, c: seq<Period>, o: OpenPeriod, p: Period)
    requires k <= |ms| && ClosedInv(ms, k, c) && OpenInv(ms, k, c, o)
    requires p.start == o.start && PeriodOf(ms, p)
    ensures var c' := c + [p];
      && (forall q :: 0 <= q < |c'| ==> PeriodOf(ms, c'[q]))
      && (forall q, r :: 0 <= q < r < |c'| ==> c'[q].end + 1 < c'[r].start)
      && (forall q :: 0 <= q <= |c| ==> DryGap(ms, c', q))
  {
    var c' := c + [p];
    AppendKeepsPeriods(ms, c, p);
    AppendKeepsOrder(c, p);
    AppendKeepsGaps(ms, c, p);
    assert GapStart(c', |c|) == GapStart(c, |c|) && c'[|c|] == p;
    assert DryGap(ms, c', |c|);
  }

  /** A dry minute closes the open period. */
  lemma CloseStep(ms: seq<Minute>, i: nat, s: ScanState)
    requires i < |ms| && ScanInv(ms, i, s)
    requires IntensityOf(ms[i]) == 0.0 && s.open.Some?
    ensures ScanInv(ms, i + 1, Step(s, i, ms[i]))
  {
    var o := s.open.value;
    var c' := s.closed + [Period(o.start, i - 1, o.ptype, o.peak)];
    assert Step(s, i, ms[i]) == ScanState(c', None);
    CloseOpen(ms, i, s.closed, o);
    assert GapStart(c', |c'|) == i;
  }

  /** The open period, closed at a dry minute `k`, joins the closed periods. */
  lemma CloseOpen(ms: seq<Minute>, k: nat, c: seq<Period>, o: OpenPeriod)
    requires k < |ms| && ClosedInv(ms, k, c) && OpenInv(ms, k, c, o)
    requires IntensityOf(ms[k]) == 0.0
    ensures ClosedInv(ms, k + 1, c + [Period(o.start, k - 1, o.ptype, o.peak)])
  {
    var p := Period(o.start, k - 1, o.ptype, o.peak);
    var c' := c + [p];
    ClosedPeriodOf(ms, k, c, o);
    AppendPeriod(ms, k, c, o, p);
    forall q | 0 <= q < |c'| ensures c'[q].end + 1 < k + 1 {
      if q < |c| {
        assert c'[q] == c[q];
      }
    }
  }

  /** A dry or negative minute with nothing open changes nothing. */
  lemma IdleStep(ms: seq<Minute>, i: nat, s: ScanState)
    requires i < |ms| && ScanInv(ms, i, s)
    requires IntensityOf(ms[i]) <= 0.0 && s.open.None?
    ensures ScanInv(ms, i + 1, Step(s, i, ms[i]))
  {
  }

  lemma {:induction false} ScanInvariant(ms: seq<Minute>, k: nat)
    requires k <= |ms|
    ensures ScanInv(ms, k, Scan(ms, k))
    decreases k
  {
    if k > 0 {
      ScanInvariant(ms, k - 1);
      StepKeepsInv(ms, k, Scan(ms, k - 1), Scan(ms, k));
    }
  }

  /** Every branch of one step keeps the scan invariant. */
  lemma StepKeepsInv(ms: seq<Minute>, k: nat, s: ScanState, s': ScanState)
    requires 0 < k <= |ms| && ScanInv(ms, k - 1, s)
    requires s.open.Some? ==> s.open.value.start < k - 1
    requires s' == Step(s, k - 1, ms[k - 1])
    ensures ScanInv(ms, k, s')
  {
    var i := k - 1;
    var x := IntensityOf(ms[i]);
    if s.open.None? {
      if x > 0.0 {
        OpenStep(ms, i, s);
      } else {
        IdleStep(ms, i, s);
      }
    } else if x == 0.0 {
      CloseStep(ms, i, s);
    } else if x > 0.0 {
      ExtendStep(ms, i, s);
    } else {
      NegativeStep(ms, i, s);
    }
  }

  /** After the last minute the scan's periods are the segmentation. */
  lemma FinishStep(ms: seq<Minute>, s: ScanState)
    requires ScanInv(ms, |ms|, s)
    ensures IsSegmentation(ms, Finish(s, |ms|))
  {
    if s.open.Some? {
      FinishOpen(ms, s.closed, s.open.value);
    } else {
      assert Finish(s, |ms|) == s.closed;
      assert DryGap(ms, s.closed, |s.closed|);
    }
  }

  /** Closing a period still open after the last minute completes the segmentation. */
  lemma FinishOpen(ms: seq<Minute>, c: seq<Period>, o: OpenPeriod)
    requires ClosedInv(ms, |ms|, c) && OpenInv(ms, |ms|, c, o)
    ensures IsSegmentation(ms, c + [Period(o.start, |ms| - 1, o.ptype, o.peak)])
  {
    var p := Period(o.start, |ms| - 1, o.ptype, o.peak);
    var c' := c + [p];
    ClosedPeriodOf(ms, |ms|, c, o);
    AppendPeriod(ms, |ms|, c, o, p);
    assert DryGap(ms, c', |c'|);
  }

  /** The periods the scan produces are exactly the segmentation of the minutes. */
  lemma PeriodsAreSegmentation(ms: seq<Minute>)
    ensures IsSegmentation(ms, Periods(ms))
  {
    ScanInvariant(ms, |ms|);
    FinishStep(ms, Scan(ms, |ms|));
  }

  // ---------------------------------------------------------------------------
  // Consequences for the forecasts the API sends (no negative intensity).

  predicate NonNegative(ms: seq<Minute>) {
    forall j :: 0 <= j < |ms| ==> IntensityOf(ms[j]) >= 0.0
  }

  /**
   * With no negative intensities every period is a maximal run of wet minutes:
   * all its minutes are wet and the minutes just outside it are dry or absent.
   */
  lemma PeriodsAreWetRuns(ms: seq<Minute>)
    requires NonNegative(ms)
    ensures forall p :: p in Periods(ms) ==>
      && p.start <= p.end < |ms|
      && (forall j :: p.start <= j <= p.end ==> IntensityOf(ms[j]) > 0.0)
      && (p.start == 0 || IntensityOf(ms[p.start - 1]) == 0.0)
      && (p.end == |ms| - 1 || IntensityOf(ms[p.end + 1]) == 0.0)
  {
    PeriodsAreSegmentation(ms);
    forall p | p in Periods(ms)
      ensures forall j :: p.start <= j <= p.end ==> IntensityOf(ms[j]) > 0.0
      ensures p.start == 0 || IntensityOf(ms[p.start - 1]) == 0.0
    {
      var q :| 0 <= q < |Periods(ms)| && Periods(ms)[q] == p;
      assert PeriodOf(ms, p);
    }
  }

  /** There is no period exactly when no minute is wet (empty and all-dry lists). */
  lemma NoPeriodsIffDry(ms: seq<Minute>)
    ensures Periods(ms) == [] <==> forall j :: 0 <= j < |ms| ==> IntensityOf(ms[j]) <= 0.0
  {
    var ps := Periods(ms);
    PeriodsAreSegmentation(ms);
    if ps == [] {
      assert DryGap(ms, ps, 0);
    } else {
      assert PeriodOf(ms, ps[0]);
    }
  }

  /** Every wet minute lies in one of the periods. */
  lemma WetMinuteCovered(ms: seq<Minute>, j: nat)
    requires j < |ms| && IntensityOf(ms[j]) > 0.0
    ensures exists q :: 0 <= q < |Periods(ms)| && Periods(ms)[q].start <= j <= Periods(ms)[q].end
  {
    var ps := Periods(ms);
    PeriodsAreSegmentation(ms);
    assert DryGap(ms, ps, 0);
    CoveredFrom(ms, ps, j, 0);
  }

  lemma {:induction false} CoveredFrom(ms: seq<Minute>, ps: seq<Period>, j: nat, q: nat)
    requires IsSegmentation(ms, ps)
    requires j < |ms| && IntensityOf(ms[j]) > 0.0
    requires q <= |ps| && GapStart(ps, q) <= j
    ensures exists r :: 0 <= r < |ps| && ps[r].start <= j <= ps[r].end
    decreases |ps| - q
  {
    assert DryGap(ms, ps, q);
    assert q < |ps|;
    if j > ps[q].end {
      CoveredFrom(ms, ps, j, q + 1);
    }
  }

  /** How many of the first `k` minutes begin a wet run. */
  function RunStarts(ms: seq<Minute>, k: nat): nat
    requires k <= |ms|
  {
    if k == 0 then 0
    else
      var starts := IntensityOf(ms[k - 1]) > 0.0 && (k == 1 || IntensityOf(ms[k - 2]) <= 0.0);
      RunStarts(ms, k - 1) + if starts then 1 else 0
  }

  lemma {:induction false} ScanCountsRuns(ms: seq<Minute>, k: nat)
    requires k <= |ms| && NonNegative(ms)
    ensures Scan(ms, k).open.Some? <==> k > 0 && IntensityOf(ms[k - 1]) > 0.0
    ensures |Scan(ms, k).closed| + (if Scan(ms, k).open.Some? then 1 else 0) == RunStarts(ms, k)
  {
    if k > 0 {
      ScanCountsRuns(ms, k - 1);
    }
  }

  /** With no negative intensities, there is one period per wet run. */
  lemma PeriodCountIsRunCount(ms: seq<Minute>)
    requires NonNegative(ms)
    ensures |Periods(ms)| == RunStarts(ms, |ms|)
  {
    ScanCountsRuns(ms, |ms|);
  }
}
