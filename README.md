# Sales dashboard core, in Dafny

A model of the data core of a single-page sales dashboard (`script.js`):
the synthetic daily-sales series each manager gets per reporting period,
the centred smoothing pass applied to it, the aggregates on each manager's
summary card (total, rounded average, best day), the x-axis labels of the
charts, and the lookup that picks the manager whose daily chart is drawn.

Everything the source computes is on integer sequences and is modelled as
pure functions with lemmas, like the source's own `map`/`slice`/`reduce`
code. JavaScript's `Math.round(p / q)` (nearest integer, ties towards
+Infinity) is modelled exactly on integers as `(2p + q) / (2q)` with
flooring division (`Rounding.RoundDiv`). A tie can only arise when the
floating-point quotient is exact, so the integer model and the
floating-point program round the same way for the small sums involved.

Modules, one per part of the program:

- `Rounding`: `Math.round` of a quotient and its arithmetic facts.
- `SalesStats`: `getTotal`, `getAverage`, `getBestDay` (with `Math.max` and `indexOf`).
- `Smoothing`: `smoothSeries` and its window.
- `SeriesGenerator`: the clamp-and-smooth skeleton of `generateSeries`.
- `Labels`: the periods and `getLabels`.
- `Dashboard`: the roster built from the seeds and the manager lookup of `renderDailyChart`.
- `Wrappers`: `Option`, standing for a value that may be `undefined`.

## Model

| member | source | states |
|---|---|---|
| `Rounding.RoundDiv` | script.js:68 | `Math.round(p / q)` is the integer `r` with `r - 1/2 <= p/q < r + 1/2` (ties go up) |
| `Rounding.RoundDivUnique` | script.js:68 | that condition has exactly one solution, so it determines the rounded value |
| `Rounding.RoundDivMonotone` | script.js:39 | rounding preserves the order of two quotients with one divisor |
| `Rounding.RoundDivBetween` | script.js:39 | a quotient between `lo` and `hi` rounds to a value between `lo` and `hi` |
| `Rounding.BlendBetween` | script.js:38-39 | `round((a + s/m) / 2)` stays in any `[lo, hi]` holding `a` and the mean `s/m` |
| `SalesStats.Total` | script.js:63-65 | `getTotal` of no days is 0 |
| `SalesStats.TotalIsSum` | script.js:63-65 | the left-to-right `reduce` equals the sum of the elements taken from the front |
| `SalesStats.TotalAppend` | script.js:63-65 | the total of two runs of days put end to end is the sum of their totals |
| `SalesStats.TotalBetween` | script.js:63-65 | `n` days all in `[lo, hi]` total between `lo * n` and `hi * n` |
| `SalesStats.Average` | script.js:67-69 | 0 for no days; otherwise the integer nearest to `total / length`, ties up |
| `SalesStats.AverageBetween` | script.js:67-69 | the average of days all in `[lo, hi]` is in `[lo, hi]` |
| `SalesStats.MaxOf` | script.js:72 | `Math.max(...sales)` is `-Infinity` exactly for no days, else an element that no element exceeds |
| `SalesStats.IndexOf` | script.js:73 | `indexOf` gives the first position holding the value, and -1 exactly when none does |
| `SalesStats.GetBestDay` | script.js:71-75 | for days: the largest value and the 1-based day of its first occurrence (every earlier day is smaller); for no days: day 0 and `-Infinity` |
| `SalesStats.BestDayUnique` | script.js:71-75 | any day and value with the first-maximum property are exactly what `getBestDay` returns |
| `Smoothing.WindowStart` | script.js:37 | the window starts at most `windowSize` before the point, and earlier only at the start of the series |
| `Smoothing.WindowEnd` | script.js:37 | the window ends after the point, at most `windowSize` after it, and earlier only at the end of the series |
| `Smoothing.Window` | script.js:37 | the window is a non-empty run of at most `2 * windowSize + 1` input days and contains the point itself |
| `Smoothing.SmoothPoint` | script.js:38-39 | each output is the nearest integer (ties up) to the point blended 50/50 with its window's mean |
| `Smoothing.Smooth` | script.js:35-41 | one output per input point (empty gives empty), each computed from the unmodified input |
| `Smoothing.SmoothPointBetween` | script.js:37-39 | a smoothed point lies in any `[lo, hi]` holding every day of its window |
| `Smoothing.SmoothBetween` | script.js:35-41 | every output lies between any lower and upper bound of the input, in particular its minimum and maximum |
| `Smoothing.SmoothConstant` | script.js:35-41 | a flat series is left unchanged |
| `Smoothing.SmoothIsLocal` | script.js:36-37 | changing one input day changes no output more than `windowSize` days away, on either side: outputs never feed later outputs |
| `Smoothing.SmoothNotIdempotent` | script.js:35-41 | smoothing `[0, 100]` gives `[25, 75]`, and smoothing that again changes it: the filter is not a fixed-point operation |
| `SeriesGenerator.ClampDay` | script.js:28 | `Math.max(40, value)` is at least 40, keeps any value at or above 40 and raises any other to 40 |
| `SeriesGenerator.ClampedDays` | script.js:24-30 | `Array.from` gives `length` days (none for `length <= 0`), day `i` being the clamp of raw value `i` |
| `SeriesGenerator.GenerateSeries` | script.js:23-33 | `generateSeries` returns exactly `length` days (none for `length <= 0`), each at least 40, whatever the raw values |
| `SeriesGenerator.GenerateSeriesAtMost` | script.js:23-33 | a ceiling (at least 40) on the raw values is a ceiling on the generated days |
| `SeriesGenerator.CardFiguresAtLeastFloor` | script.js:100-109 | for a generated non-empty series the card's total is at least `40 * length`, its average and best day at least 40 |
| `Labels.DecimalRoundTrip` | script.js:60 | for `n` below 10^21 (the labels use 1 to 30), `${n}` is a canonical decimal numeral (digits only, no leading zero) that reads back as `n` |
| `Labels.GetLabels` | script.js:54-61 | one label per point of the period: the twelve month names for `year`, the numerals "1" to `points` in order for `week` (7) and `month` (30) |
| `Labels.LabelsDistinct` | script.js:54-61 | no two labels of a period are equal |
| `Dashboard.MakeManager` | script.js:43-50 | each seed keeps its id, name and city and gets, per period, a series of that period's `points` days, each at least 40 |
| `Dashboard.LabelsMatchSales` | script.js:189-193 | a manager's chart has as many labels as data points, for every period |
| `Dashboard.Find` | script.js:177 | `find` returns the first manager whose id matches, and `undefined` exactly when none does |
| `Dashboard.ChartManager` | script.js:177 | `find(...) ?? managers[0]`: the first manager with the id when one exists, otherwise the first manager of the roster; `undefined` only for an empty roster |
| `Dashboard.ChartManagerOwnId` | script.js:177 | with distinct ids, looking up a manager's own id returns that manager |

## Left out

- The floating-point parts of `generateSeries` (script.js:25-27): the sine seasonal swing, the unseeded `Math.random()` noise and the trend boost `index * trend * (length > 12 ? 1 : 4)`. The rounded pre-clamp value of each day is an arbitrary integer parameter `raw(index)`, so every property holds for every outcome of the random source.
- The seed table's numbers and the per-period scaling of base, variance and trend (script.js:15-21, 46-48): they only feed the floating-point part above. The roster is a parameter of the lookup rather than the five fixed seeds.
- Floating-point range: sums and averages are unbounded integers. The source's values are small integers that doubles hold exactly, so this changes nothing there.
- `Smoothing.Smooth`: `windowSize` is a natural number. The only call passes 2; a negative size would give empty slices and `NaN` in the source.
- `Labels.GetLabels`: takes one of the three period keys. A key that is not a key of `PERIODS` is not modelled; the keys come from the page's buttons, which are not part of this model.
- `Labels.DecimalRoundTrip`: holds for every natural number, while JavaScript writes `${n}` as plain digits only below 10^21 (exponent form from there on); the labels only ever use 1 to 30.
- `formatCurrency` (script.js:77-79): relies on `toLocaleString('ru-RU')`, locale formatting outside the program.
- DOM and event code: `renderCards`, `fillSelect`, the listeners in `init` and the `currentPeriod` switch (script.js:52, 81-128, 266-295). They build page elements and hold no data behaviour beyond calls to the modelled functions.
- Chart.js: `renderTotalChart`, `renderDailyChart` and `renderComparisonChart` and their module-level chart handles (script.js:130-264), apart from the lookup at line 177 and the label/data pairing. These are calls into a foreign library.
- The colour table and period display labels (script.js:1-13): presentation strings; only `points` is modelled (`Labels.Points`).
