/**
 * The five-tier recommendation: four cut points derived from the mean and
 * the standard deviation of the rates, and the if/elif chain of strict `<`
 * tests that places the latest rate below one of them.
 */
module Tiers {

  /** The tiers, from most to least favourable to someone buying with the rate. */
  datatype Tier = BestDeal | GoodDeal | FairRate | MarketRate | Expensive

  /** Position of a tier in the order of favourability: 0 is the best. */
  function Rank(t: Tier): nat
  {
    match t
    case BestDeal => 0
    case GoodDeal => 1
    case FairRate => 2
    case MarketRate => 3
    case Expensive => 4
  }

  const BestDealText: string := "🔥 Best Deal — extremely favorable to exchange!"
  const GoodDealText: string := "💸 Good Deal — strong opportunity."
  const FairRateText: string := "✅ Fair Rate — reasonable time to exchange."
  const MarketRateText: string := "🤝 Market Rate — normal, no urgency."
  const ExpensiveText: string := "⚠️ Expensive — above average, best to wait."

  /** The banner text shown for each tier. */
  function Label(t: Tier): string
  {
    match t
    case BestDeal => BestDealText
    case GoodDeal => GoodDealText
    case FairRate => FairRateText
    case MarketRate => MarketRateText
    case Expensive => ExpensiveText
  }

  /** The upper edges of the four lower tiers. */
  datatype Thresholds = Thresholds(bestTop: real, goodTop: real, fairTop: real, marketTop: real)

  predicate Ordered(c: Thresholds)
  {
    c.bestTop <= c.goodTop <= c.fairTop <= c.marketTop
  }

  predicate StrictlyOrdered(c: Thresholds)
  {
    c.bestTop < c.goodTop < c.fairTop < c.marketTop
  }

  /**
   * The cut points at 1.5, 1 and 0.25 standard deviations below the mean
   * and 0.25 above it. They rise strictly when the deviation is positive
   * and collapse onto the mean when it is zero.
   */
  function Cuts(mean: real, std: real): (c: Thresholds)
    ensures 0.0 <= std ==> Ordered(c)
    ensures 0.0 < std ==> StrictlyOrdered(c)
    ensures std == 0.0 ==> c == Thresholds(mean, mean, mean, mean)
    ensures 0.0 <= std ==> c.fairTop <= mean <= c.marketTop
  {
    Thresholds(mean - 1.5 * std, mean - 1.0 * std, mean - 0.25 * std, mean + 0.25 * std)
  }

  /**
   * The reference description of the tiers as half-open intervals of the
   * rate: each tier takes its lower edge and excludes its upper one, and
   * the top tier is unbounded above.
   */
  predicate InTier(rate: real, c: Thresholds, t: Tier)
  {
    match t
    case BestDeal => rate < c.bestTop
    case GoodDeal => c.bestTop <= rate < c.goodTop
    case FairRate => c.goodTop <= rate < c.fairTop
    case MarketRate => c.fairTop <= rate < c.marketTop
    case Expensive => c.marketTop <= rate
  }

  /**
   * The if/elif chain: the first cut point that the rate is strictly below
   * decides the tier, and a rate below none of them is Expensive. Whatever
   * the cut points, the tier it picks has the rate in its interval.
   */
  function Classify(rate: real, c: Thresholds): (t: Tier)
    ensures InTier(rate, c, t)
    ensures t == Expensive <==> c.marketTop <= rate && c.fairTop <= rate && c.goodTop <= rate && c.bestTop <= rate
    ensures t == BestDeal <==> rate < c.bestTop
  {
    if rate < c.bestTop then BestDeal
    else if rate < c.goodTop then GoodDeal
    else if rate < c.fairTop then FairRate
    else if rate < c.marketTop then MarketRate
    else Expensive
  }

  /** With ordered cut points a rate lies in exactly one tier's interval. */
  lemma TiersExclusive(rate: real, c: Thresholds, t: Tier)
    requires Ordered(c)
    ensures InTier(rate, c, t) <==> t == Classify(rate, c)
  {
  }

  /** A higher rate never earns a more favourable tier, whatever the cut points. */
  lemma ClassifyMonotonic(r1: real, r2: real, c: Thresholds)
    requires r1 <= r2
    ensures Rank(Classify(r1, c)) <= Rank(Classify(r2, c))
  {
  }

  /**
   * Every test is a strict `<`, so a rate sitting exactly on a cut point
   * falls into the next, less favourable tier.
   */
  lemma BoundaryGoesUp(mean: real, std: real)
    requires 0.0 < std
    ensures var c := Cuts(mean, std);
      && Classify(c.bestTop, c) == GoodDeal
      && Classify(c.goodTop, c) == FairRate
      && Classify(c.fairTop, c) == MarketRate
      && Classify(c.marketTop, c) == Expensive
  {
  }

  /**
   * With a zero deviation all cut points equal the mean: a rate below it is
   * a Best Deal, and the mean itself or above is Expensive.
   */
  lemma ZeroDeviationSplitsAtMean(mean: real, rate: real)
    ensures Classify(rate, Cuts(mean, 0.0)) == if rate < mean then BestDeal else Expensive
  {
  }

  /** The five banner texts are distinct, so the banner names the tier. */
  lemma LabelsDistinct(t: Tier, u: Tier)
    requires t != u
    ensures Label(t) != Label(u)
  {
    assert BestDealText[2] == 'B' && GoodDealText[2] == 'G' && FairRateText[2] == 'F';
    assert MarketRateText[2] == 'M' && ExpensiveText[2] == ' ';
  }
}
