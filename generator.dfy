/**
 * The integer skeleton of `generateSeries` in script.js.  The source draws
 * each day as `Math.round(base + swing + noise + linearBoost)` from a sine
 * swing, `Math.random()` noise and a trend; those floating-point and random
 * parts are a parameter here: `raw(index)` is that rounded value for day
 * `index`, any integer at all.  What is modelled is the clamp to at least 40
 * sales per day, the length, and the smoothing pass with a window of 2.
 */
module SeriesGenerator {
  import opened SalesStats
  import opened Smoothing

  /** The least value a generated day may take before smoothing (`Math.max(40, ...)`). */
  const MinDailySales: int := 40

  /** The `windowSize` that `generateSeries` passes to `smoothSeries`. */
  const SmoothingWindow: nat := 2

  /** `Math.max(40, value)`: a day below the floor is raised to it, any other day is kept. */
  function ClampDay(value: int): (v: int)
    ensures v >= MinDailySales
    ensures value >= MinDailySales ==> v == value
    ensures value < MinDailySales ==> v == MinDailySales
  {
    if value > MinDailySales then value else MinDailySales
  }

  /**
   * `Array.from({ length }, ...)` holding the clamped days.  A length of zero
   * or less gives no days, as `Array.from` does.
   */
  function ClampedDays(length: int, raw: int -> int): (days: seq<int>)
    ensures |days| == if length > 0 then length else 0
    ensures forall i :: 0 <= i < |days| ==> days[i] == ClampDay(raw(i))
  {
    if length > 0 then seq(length, i requires 0 <= i < length => ClampDay(raw(i))) else []
  }

  /**
   * `generateSeries(length, ...)`: exactly `length` days (none when
   * `length <= 0`), every one of them at least 40 after smoothing.
   */
  function GenerateSeries(length: int, raw: int -> int): (series: seq<int>)
    ensures |series| == if length > 0 then length else 0
    ensures forall i :: 0 <= i < |series| ==> series[i] >= MinDailySales
  {
    var days := ClampedDays(length, raw);
    var highest := if |days| > 0 then MaxOf(days).n else MinDailySales;
    SmoothBetween(days, SmoothingWindow, MinDailySales, highest);
    Smooth(days, SmoothingWindow)
  }

  /** A ceiling on the raw values (at or above the floor) is a ceiling on the generated days. */
  lemma GenerateSeriesAtMost(length: int, raw: int -> int, hi: int)
    requires hi >= MinDailySales
    requires forall i :: 0 <= i < length ==> raw(i) <= hi
    ensures forall i :: 0 <= i < |GenerateSeries(length, raw)| ==> GenerateSeries(length, raw)[i] <= hi
  {
    var days := ClampedDays(length, raw);
    SmoothBetween(days, SmoothingWindow, MinDailySales, hi);
  }

  /**
   * The figures on a summary card for a generated, non-empty month are at
   * least the floor: the total is at least 40 per day, the average and the
   * best day at least 40.
   */
  lemma CardFiguresAtLeastFloor(length: int, raw: int -> int)
    requires length > 0
    ensures var s := GenerateSeries(length, raw);
            && Total(s) >= MinDailySales * length
            && Average(s) >= MinDailySales
            && GetBestDay(s).value.n >= MinDailySales
  {
    var s := GenerateSeries(length, raw);
    var best := GetBestDay(s);
    TotalBetween(s, MinDailySales, best.value.n);
    AverageBetween(s, MinDailySales, best.value.n);
  }
}
