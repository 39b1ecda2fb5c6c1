# FX Alert: the trend analyzer, modelled in Dafny

FX Alert fetches the last 30, 90 or 365 days of USD/THB rates, as the user
chooses, and sorts the (date, rate) rows by date. It then runs `analyze_fx`:

- it refuses a series with no usable rate, showing a fixed warning;
- it adds 7- and 30-row trailing moving-average columns;
- it derives the mean and the sample standard deviation of the whole series;
- it sets four cut points at mean − 1.5σ, mean − 1σ, mean − 0.25σ and
  mean + 0.25σ, and two chart bounds half a unit beyond the extremes;
- it places the latest rate into one of five tiers (Best Deal, Good Deal,
  Fair Rate, Market Rate, Expensive), each with its own banner text.

This project models that decision logic over idealised `real` arithmetic
and proves what it promises.

A rate is an `Option<real>`. `None` stands for a rate the provider left
null, which pandas holds as NaN. The model follows pandas on such values:

- mean, std, max and min skip missing rates;
- the std of fewer than two rates is NaN, so the cut points are NaN and
  every `<` test is false;
- a rolling window with a missing rate, or with fewer than w rows, yields
  no value.

The standard deviation needs a square root. It is therefore a parameter
`std`, tied to the sample variance by `IsSampleStd`: whenever at least two
rates are present, `std >= 0` and `std * std` equals the variance with the
n − 1 denominator.

Modules:

- `Wrappers`: `Option`.
- `Stats`: `Sum`, `Max`, `Min`, `Mean`, the sum of squared deviations and
  `SampleVariance`, and their invariance under reordering.
- `Series`: `Observation` rows, the present rates, Python's string order on
  the dates, and the in-place insertion sort on an array.
- `Rolling`: the rolling-mean column as a specification function
  (`RollingMeanAt`), and a method that fills the column with a sliding sum
  and count.
- `Tiers`: the cut points, the if/elif classifier, the reference interval
  description of the tiers, and the banner texts.
- `Analyzer`: the guard, the band edges, the tier of the latest rate, the
  whole `analyze_fx` outcome, and a worked example.

Tie at a cut point: every test in the classifier is a strict `<`, so a
rate exactly on a cut point goes to the next, less favourable tier
(`Tiers.BoundaryGoesUp`).

The analysis always receives the date-sorted rows from the fetch, so its
"latest" row is the one with the newest date (`Series.LatestIsNewest` on
the output of `Series.SortedSeries`). `Analyzer.AnalyzeFx` itself accepts
the rows in any order. The band edges, the statistics and, for the same
latest rate, the tier do not depend on that order
(`Analyzer.BandsIgnoreRowOrder`, `Analyzer.TierIgnoresHistoryOrder`); the
moving-average columns and the choice of the latest row do.

## Model

| member | source | states |
|---|---|---|
| Stats.Max | app.py:45 | the largest rate is one of the rates and no rate exceeds it |
| Stats.Min | app.py:46 | the smallest rate is one of the rates and no rate is below it |
| Stats.Mean | app.py:38 | the mean of the whole series lies between its smallest and largest rate |
| Stats.SampleVariance | app.py:39 | the sample variance (n − 1 denominator, about the whole-series mean) is never negative |
| Stats.VarianceZeroIffConstant | app.py:39 | the sample variance is zero exactly when every rate is the same |
| Stats.StatisticsOfPermutation | app.py:38-46 | reordering the rates changes neither the extremes, the mean nor the sample variance |
| Series.Present | app.py:30-46 | the present rates of a column in row order, as pandas' NaN-skipping aggregates see them; never more of them than rows |
| Series.PresentMembers | app.py:30-46 | every present rate of the column is among the present rates, and nothing else is |
| Series.PresentEmpty | app.py:30 | no rate is present exactly when every rate is missing |
| Series.PresentComplete | app.py:34-35 | no rate is dropped exactly when no rate is missing |
| Series.PresentOfPermutation | app.py:30-39 | reordering the rows reorders the present rates, with the same multiplicities |
| Series.DateLeTotal | app.py:20 | any two dates are comparable in Python's string order |
| Series.DateLeTransitive | app.py:20 | Python's string order on dates is transitive |
| Series.DateLeAntisymmetric | app.py:20 | two dates each at most the other are equal |
| Series.DateLeReflexive | app.py:20 | every date is at most itself in Python's string order |
| Series.SortByDate | app.py:20 | the in-place sort leaves the array in date order and holds the same rows as before |
| Series.SortedSeries | app.py:19-21 | the rows built from the provider's data come out in date order, as a permutation of those rows |
| Series.LatestIsNewest | app.py:19-36 | in the date-sorted series the last row, the one analyze_fx takes as latest, has the newest date |
| Rolling.RollingMeanAt | app.py:34-35 | the trailing window-w mean at row i: none before row w − 1 or when a rate in the window is missing, otherwise the mean of the window's w rates, which lies between the window's smallest and largest rate |
| Rolling.RollingMean | app.py:34-35 | the filled column has one entry per row, and entry i is the trailing window-w mean at row i |
| Rolling.DefinedRollingMean | app.py:34-35 | a defined entry needs i ≥ w − 1 and no missing rate in rows i − w + 1..i, and it equals their sum divided by w |
| Rolling.RollingMeanDefinedWhenFull | app.py:34-35 | from row w − 1 on, a window with no missing rate yields the mean of its w rates |
| Rolling.RollingMeanWithinRange | app.py:34-35 | every defined moving average lies between the smallest and the largest rate of the series |
| Tiers.Label | app.py:50-58 | the banner text of each tier, character for character as in the source |
| Tiers.Cuts | app.py:41-44 | for std ≥ 0 the cut points are in ascending order, for std > 0 strictly, for std = 0 all on the mean, and the mean sits between fair_top and market_top |
| Tiers.Classify | app.py:48-58 | the chosen tier's interval always contains the rate, whatever the cut points; Expensive exactly when the rate is below no cut point; Best Deal exactly when it is below best_top |
| Tiers.TiersExclusive | app.py:49-58 | with ordered cut points a rate lies in the interval of exactly one tier, the one the chain picks |
| Tiers.ClassifyMonotonic | app.py:49-58 | a higher rate never receives a more favourable tier |
| Tiers.BoundaryGoesUp | app.py:49-56 | a rate equal to a cut point falls into the next, less favourable tier |
| Tiers.ZeroDeviationSplitsAtMean | app.py:41-58 | with std = 0 a rate below the mean is a Best Deal and any other is Expensive |
| Tiers.LabelsDistinct | app.py:50-58 | the five banner texts differ, so the banner identifies the tier |
| Analyzer.NoData | app.py:30 | the guard holds exactly when the series has no rows or every rate in it is missing |
| Analyzer.IsSampleStd | app.py:39 | std is the sample standard deviation (ddof 1) of the present rates: non-negative with its square equal to the n − 1 variance, whenever at least two rates are present |
| Analyzer.StdZeroIffConstant | app.py:39 | with at least two present rates, std is zero exactly when all of them are equal |
| Analyzer.CutsOfSample | app.py:39-44 | with std the sample standard deviation, the cut points rise strictly unless all rates are equal, and then all sit on that rate |
| Analyzer.ChartBands | app.py:41-46 | y_min < rate < expensive_top for every present rate; cut points exist exactly when at least two rates are present; for std ≥ 0 the mean lies between fair_top and market_top |
| Analyzer.BandsOf | app.py:41-46 | the band edges from the present rates: y_min and expensive_top strictly enclose every rate, cut points exist exactly when at least two rates are present, and for std ≥ 0 the mean lies between fair_top and market_top |
| Analyzer.TierOf | app.py:48-58 | a missing latest rate or NaN cut points give Expensive; otherwise the tier's interval contains the latest rate |
| Analyzer.AnalyzeFx | app.py:30-93 | no chart exactly when the series is empty or has no present rate, and then the warning with no rate; otherwise it returns the dates and rates, the 7- and 30-row moving averages, the band edges and the latest rate, with the banner of that rate's tier |
| Analyzer.RecommendationIsNotWarning | app.py:31-58 | no tier's banner is the failure warning |
| Analyzer.BandsIgnoreRowOrder | app.py:19-46 | sorting or otherwise reordering the rows leaves the band edges and the meaning of std unchanged |
| Analyzer.TierIgnoresHistoryOrder | app.py:36-58 | the tier depends only on the latest rate and the multiset of present rates |
| Analyzer.SampleOfPermutation | app.py:38-46 | band edges, sample size and sample variance depend only on the multiset of present rates |
| Analyzer.SpikeLongAverage | app.py:35 | for 29 days at 1.00 then 1.20, the 30-day average is missing on row 28 and is (29 · 1.00 + 1.20) / 30 on row 29 |
| Analyzer.SpikeShortAverage | app.py:34 | for the same series, the 7-day average on row 29 is (6 · 1.00 + 1.20) / 7 |
| Analyzer.SpikeVariance | app.py:39 | for the same series, all thirty rates are present and the sample variance is positive |

## Left out

- The HTTP request, JSON decoding and the catch-all exception handler with its print (app.py:11-18, 22-24). They are network I/O. A failed fetch arrives in the model as an empty series, which takes the same guard path.
- The date window from `datetime.today()`, `timedelta` and `strftime`, and `pd.to_datetime` (app.py:11-13, 33). They are clock and library calls. Dates stay the provider's "YYYY-MM-DD" strings, and `days` is used only by the fetch and the chart title.
- All matplotlib drawing, band fills, labels and tick formatting (app.py:60-91). The model keeps only the values the figure is drawn from (the `Chart` datatype).
- The Streamlit layout (app.py:96-107). It is UI.
- fx_alert_etl.py is not part of this model. It is a single HTTP GET plus printing.
- IEEE floating-point rounding. All arithmetic is over `real`.
- AnalyzeFx: takes the standard deviation as a parameter constrained by `IsSampleStd` rather than computing a square root; with fewer than two present rates the parameter is ignored, as pandas' std is then NaN.
- SortByDate: orders rows by date alone, whereas Python compares (date, rate) tuples. The dates are the keys of one JSON object and so are distinct, which makes the rate tie-break unreachable; stability is not modelled.
