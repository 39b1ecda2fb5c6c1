/**
 * analyze_fx: guards against a series with no usable rate, adds the 7- and
 * 30-row moving-average columns, derives the mean, the sample standard
 * deviation and the band edges from the whole series, and classifies the
 * latest rate. The figure itself is described by the values it is drawn
 * from; drawing it is not modelled.
 */
module Analyzer {
  import opened Wrappers
  import opened Stats
  import opened Series
  import opened Rolling
  import opened Tiers

  /** The warning shown in place of the chart when there is nothing to analyse. */
  const CouldNotFetch: string := "⚠️ Could not fetch exchange rate data. Please try again later."

  /** The guard of analyze_fx: no rows at all, or no row whose rate is present. */
  predicate NoData(series: seq<Observation>)
    ensures NoData(series) <==> forall i | 0 <= i < |series| :: series[i].rate.None?
  {
    PresentEmpty(Rates(series));
    assert forall i | 0 <= i < |series| :: Rates(series)[i] == series[i].rate;
    |series| == 0 || Present(Rates(series)) == []
  }

  /**
   * std is the sample standard deviation (n - 1 denominator) of the present
   * rates. With fewer than two present rates pandas yields NaN, which the
   * model represents by having no cut points, so std is then unconstrained.
   */
  ghost predicate IsSampleStd(rates: seq<Option<real>>, std: real)
  {
    |Present(rates)| >= 2 ==> 0.0 <= std && Square(std) == SampleVariance(Present(rates))
  }

  /** The horizontal edges of the five shaded bands; no cut points stands for NaN ones. */
  datatype Bands = Bands(yMin: real, cuts: Option<Thresholds>, expensiveTop: real)

  /** What the figure is drawn from: the columns, the bands and the highlighted latest rate. */
  datatype Chart = Chart(
    dates: seq<string>,
    rates: seq<Option<real>>,
    ma7: seq<Option<real>>,
    ma30: seq<Option<real>>,
    bands: Bands,
    latest: Option<real>)

  /** The (fig, recommendation, latest rate) triple of analyze_fx; no chart is its None. */
  datatype Outcome = Outcome(chart: Option<Chart>, recommendation: string, todayRate: Option<real>)

  /**
   * With std the sample standard deviation of at least two rates, the cut
   * points rise strictly unless every rate is the same, and then they all
   * sit on that rate.
   */
  lemma CutsOfSample(p: seq<real>, std: real)
    requires |p| >= 2 && 0.0 <= std && Square(std) == SampleVariance(p)
    ensures var c := Cuts(Mean(p), std);
      if Constant(p) then c == Thresholds(p[0], p[0], p[0], p[0]) else StrictlyOrdered(c)
  {
    VarianceZeroIffConstant(p);
    if Constant(p) {
      if std != 0.0 {
        SquarePositive(std);
      }
      assert Max(p) == p[0] && Min(p) == p[0];
    }
  }

  lemma CutsOfSeries(rates: seq<Option<real>>, std: real)
    ensures IsSampleStd(rates, std) && |Present(rates)| >= 2 ==>
      var p := Present(rates);
      var c := Cuts(Mean(p), std);
      if Constant(p) then c == Thresholds(p[0], p[0], p[0], p[0]) else StrictlyOrdered(c)
  {
    if IsSampleStd(rates, std) && |Present(rates)| >= 2 {
      CutsOfSample(Present(rates), std);
    }
  }

  /**
   * The band edges: the four cut points from the mean and std of every
   * present rate (absent when pandas' std is NaN), and the chart bounds half
   * a unit beyond the largest and the smallest rate.
   */
  function ChartBands(rates: seq<Option<real>>, std: real): (b: Bands)
    requires Present(rates) != []
    ensures forall i | 0 <= i < |rates| && rates[i].Some? :: b.yMin < rates[i].value < b.expensiveTop
    ensures b.cuts.Some? <==> |Present(rates)| >= 2
    ensures b.cuts.Some? && 0.0 <= std ==> b.cuts.value.fairTop <= Mean(Present(rates)) <= b.cuts.value.marketTop
    ensures IsSampleStd(rates, std) && b.cuts.Some? ==>
      if Constant(Present(rates))
      then b.cuts.value == Thresholds(Present(rates)[0], Present(rates)[0], Present(rates)[0], Present(rates)[0])
      else StrictlyOrdered(b.cuts.value)
  {
    PresentMembers(rates);
    CutsOfSeries(rates, std);
    BandsOf(Present(rates), std)
  }

  /** The band edges computed from the present rates p. */
  function BandsOf(p: seq<real>, std: real): (b: Bands)
    requires p != []
    ensures forall i | 0 <= i < |p| :: b.yMin < p[i] < b.expensiveTop
    ensures b.cuts.Some? <==> |p| >= 2
    ensures b.cuts.Some? && 0.0 <= std ==> b.cuts.value.fairTop <= Mean(p) <= b.cuts.value.marketTop
  {
    Bands(Min(p) - 0.5, if |p| >= 2 then Some(Cuts(Mean(p), std)) else None, Max(p) + 0.5)
  }

  /**
   * The tier of the latest rate. A missing latest rate or NaN cut points
   * make every `<` test false, so the chain falls through to Expensive.
   */
  function TierOf(latest: Option<real>, cuts: Option<Thresholds>): (t: Tier)
    ensures latest.None? || cuts.None? ==> t == Expensive
    ensures latest.Some? && cuts.Some? ==> InTier(latest.value, cuts.value, t)
  {
    if latest.Some? && cuts.Some? then Classify(latest.value, cuts.value) else Expensive
  }

  /**
   * analyze_fx on a fetched series: the guard, the two moving-average
   * columns, the bands and the recommendation for the latest row.
   */
  method AnalyzeFx(series: seq<Observation>, std: real) returns (out: Outcome)
    requires IsSampleStd(Rates(series), std)
    ensures out.chart.None? <==> NoData(series)
    ensures out.chart.None? ==> out.recommendation == CouldNotFetch && out.todayRate.None?
    ensures out.chart.Some? ==>
      var c := out.chart.value;
      var rates := Rates(series);
      && c.rates == rates
      && |c.dates| == |series| && (forall i | 0 <= i < |series| :: c.dates[i] == series[i].date)
      && |c.ma7| == |series| && (forall i | 0 <= i < |series| :: c.ma7[i] == RollingMeanAt(rates, ShortWindow, i))
      && |c.ma30| == |series| && (forall i | 0 <= i < |series| :: c.ma30[i] == RollingMeanAt(rates, LongWindow, i))
      && c.latest == series[|series| - 1].rate == out.todayRate
      && c.bands == ChartBands(rates, std)
      && out.recommendation == Label(TierOf(c.latest, c.bands.cuts))
  {
    var rates := Rates(series);
    if |series| == 0 || Present(rates) == [] {
      return Outcome(None, CouldNotFetch, None);
    }
    var dates := seq(|series|, i requires 0 <= i < |series| => series[i].date);
    var ma7 := RollingMean(rates, ShortWindow);
    var ma30 := RollingMean(rates, LongWindow);
    var latest := series[|series| - 1].rate;
    var bands := ChartBands(rates, std);
    var tier := TierOf(latest, bands.cuts);
    out := Outcome(Some(Chart(dates, rates, ma7, ma30, bands, latest)), Label(tier), latest);
  }

  /** The success banner is never the failure warning, so the two outcomes cannot be confused. */
  lemma RecommendationIsNotWarning(t: Tier)
    ensures Label(t) != CouldNotFetch
  {
    assert |CouldNotFetch| == 62;
  }

  /**
   * The rows' order does not change the bands: the sort by date, or any
   * other reordering, leaves the mean, the extremes and the sample
   * variance as they were. The moving-average columns and the choice of
   * the latest row do depend on the order.
   */
  lemma BandsIgnoreRowOrder(s1: seq<Observation>, s2: seq<Observation>, std: real)
    requires multiset(s1) == multiset(s2) && Present(Rates(s1)) != []
    ensures Present(Rates(s2)) != []
    ensures ChartBands(Rates(s1), std) == ChartBands(Rates(s2), std)
    ensures IsSampleStd(Rates(s1), std) <==> IsSampleStd(Rates(s2), std)
  {
    PresentOfPermutation(s1, s2);
    SampleOfPermutation(Present(Rates(s1)), Present(Rates(s2)), std);
  }

  /**
   * The recommendation depends only on the latest rate and on the present
   * rates taken as a whole: two series with the same latest rate and the
   * same present rates, in any order, get the same banner.
   */
  lemma TierIgnoresHistoryOrder(s1: seq<Observation>, s2: seq<Observation>, std: real)
    requires |s1| > 0 && |s2| > 0 && s1[|s1| - 1].rate == s2[|s2| - 1].rate
    requires multiset(Present(Rates(s1))) == multiset(Present(Rates(s2))) && Present(Rates(s1)) != []
    ensures Present(Rates(s2)) != []
    ensures TierOf(s1[|s1| - 1].rate, ChartBands(Rates(s1), std).cuts)
         == TierOf(s2[|s2| - 1].rate, ChartBands(Rates(s2), std).cuts)
  {
    SampleOfPermutation(Present(Rates(s1)), Present(Rates(s2)), std);
  }

  /**
   * With at least two present rates, the standard deviation is zero exactly
   * when every present rate is the same.
   */
  lemma StdZeroIffConstant(rates: seq<Option<real>>, std: real)
    requires IsSampleStd(rates, std) && |Present(rates)| >= 2
    ensures std == 0.0 <==> Constant(Present(rates))
  {
    VarianceZeroIffConstant(Present(rates));
    if std != 0.0 {
      SquarePositive(std);
    }
  }

  /** The band edges and the meaning of std depend only on the multiset of present rates. */
  lemma SampleOfPermutation(p1: seq<real>, p2: seq<real>, std: real)
    requires multiset(p1) == multiset(p2) && p1 != []
    ensures p2 != [] && BandsOf(p1, std) == BandsOf(p2, std)
    ensures |p1| == |p2| && (|p1| >= 2 ==> SampleVariance(p1) == SampleVariance(p2))
  {
    StatisticsOfPermutation(p1, p2);
  }

  /** A run of n equal rates c followed by one rate d: its present rates and their sum. */
  lemma FlatThenSpike(n: nat, c: real, d: real)
    ensures Present(seq(n, _ => Some(c)) + [Some(d)]) == seq(n, _ => c) + [d]
    ensures Sum(seq(n, _ => c) + [d]) == n as real * c + d
  {
    PresentConcat(seq(n, _ => Some(c)), [Some(d)]);
    PresentOfConstant(n, c);
    assert Present([Some(d)]) == [d] by {
      assert [Some(d)][..0] == [];
    }
    assert (seq(n, _ => c) + [d])[..n] == seq(n, _ => c);
    SumOfConstant(n, c);
  }

  /** Twenty-nine days at 1.00 followed by one at 1.20. */
  function SpikeAfterFlatMonth(): seq<Option<real>>
  {
    seq(29, _ => Some(1.0)) + [Some(1.2)]
  }

  /**
   * The 30-day average of that month is missing until the thirtieth row and
   * then equals (29 * 1.00 + 1.20) / 30.
   */
  lemma SpikeLongAverage()
    ensures RollingMeanAt(SpikeAfterFlatMonth(), LongWindow, 28) == None
    ensures RollingMeanAt(SpikeAfterFlatMonth(), LongWindow, 29) == Some((29.0 * 1.0 + 1.2) / 30.0)
  {
    var rates := SpikeAfterFlatMonth();
    FlatThenSpike(29, 1.0, 1.2);
    assert Window(rates, LongWindow, 29) == rates;
  }

  /** Its 7-day average on the last row is (6 * 1.00 + 1.20) / 7. */
  lemma SpikeShortAverage()
    ensures RollingMeanAt(SpikeAfterFlatMonth(), ShortWindow, 29) == Some((6.0 * 1.0 + 1.2) / 7.0)
  {
    var rates := SpikeAfterFlatMonth();
    assert Window(rates, ShortWindow, 29) == seq(6, _ => Some(1.0)) + [Some(1.2)] by {
      assert forall k | 23 <= k < 29 :: rates[k] == Some(1.0);
      assert rates[29] == Some(1.2);
    }
    FlatThenSpike(6, 1.0, 1.2);
  }

  /** Its thirty rates are all present and their sample variance is positive. */
  lemma SpikeVariance()
    ensures |Present(SpikeAfterFlatMonth())| == 30
    ensures 0.0 < SampleVariance(Present(SpikeAfterFlatMonth()))
  {
    FlatThenSpike(29, 1.0, 1.2);
    var p := Present(SpikeAfterFlatMonth());
    assert p[29] != p[0];
    VaryingHasPositiveVariance(p, 29);
  }
}
