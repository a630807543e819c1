/**
 * `smoothSeries` of script.js: a centred moving-average blend.  Every output
 * point is the input point averaged 50/50 with the mean of the window of
 * input points around it, the window clipped to the ends of the series.
 */
module Smoothing {
  import opened Rounding
  import opened SalesStats

  /** `Math.max(0, index - windowSize)`: where the window of `index` starts. */
  function WindowStart(index: nat, windowSize: nat): (s: nat)
    ensures s <= index && index - s <= windowSize
    ensures index - s < windowSize ==> s == 0
  {
    if index - windowSize > 0 then index - windowSize else 0
  }

  /** `Math.min(arr.length, index + windowSize + 1)`: where the window of `index` ends (exclusive). */
  function WindowEnd(length: nat, index: nat, windowSize: nat): (e: nat)
    requires index < length
    ensures index < e <= length && e - index <= windowSize + 1
    ensures e - index < windowSize + 1 ==> e == length
  {
    if length < index + windowSize + 1 then length else index + windowSize + 1
  }

  /**
   * `arr.slice(WindowStart, WindowEnd)`: the days at most `windowSize` away
   * from `index`, taken from the series as given (never from smoothed output).
   */
  function Window(arr: seq<int>, index: nat, windowSize: nat): (win: seq<int>)
    requires index < |arr|
    ensures |win| == WindowEnd(|arr|, index, windowSize) - WindowStart(index, windowSize)
    ensures 1 <= |win| <= 2 * windowSize + 1
    ensures forall k :: 0 <= k < |win| ==> win[k] == arr[WindowStart(index, windowSize) + k]
    ensures win[index - WindowStart(index, windowSize)] == arr[index]
  {
    arr[WindowStart(index, windowSize)..WindowEnd(|arr|, index, windowSize)]
  }

  /**
   * One output point: `Math.round((arr[index] + average) / 2)` where
   * `average` is the window's sum over its length `m`.  The exact value
   * `(m * arr[index] + sum) / (2m)` is rounded to the nearest integer, ties up.
   */
  function SmoothPoint(arr: seq<int>, index: nat, windowSize: nat): (r: int)
    requires index < |arr|
    ensures var win := Window(arr, index, windowSize);
            var m := |win|;
            2 * m * (2 * r - 1) <= 2 * (m * arr[index] + Total(win)) < 2 * m * (2 * r + 1)
  {
    var win := Window(arr, index, windowSize);
    RoundDiv(|win| * arr[index] + Total(win), 2 * |win|)
  }

  /**
   * `smoothSeries(series, windowSize)`: `series.map(...)`, one point per
   * input point, each computed from the unmodified input.
   */
  function Smooth(series: seq<int>, windowSize: nat): (r: seq<int>)
    ensures |r| == |series|
    ensures forall i :: 0 <= i < |series| ==> r[i] == SmoothPoint(series, i, windowSize)
  {
    seq(|series|, i requires 0 <= i < |series| => SmoothPoint(series, i, windowSize))
  }

  /** A smoothed point stays within any bounds its window respects. */
  lemma SmoothPointBetween(arr: seq<int>, index: nat, windowSize: nat, lo: int, hi: int)
    requires index < |arr|
    requires forall k :: WindowStart(index, windowSize) <= k < WindowEnd(|arr|, index, windowSize) ==>
               lo <= arr[k] <= hi
    ensures lo <= SmoothPoint(arr, index, windowSize) <= hi
  {
    var win := Window(arr, index, windowSize);
    assert forall k :: 0 <= k < |win| ==> lo <= win[k] <= hi;
    TotalBetween(win, lo, hi);
    BlendBetween(|win|, arr[index], Total(win), lo, hi);
  }

  /** Smoothing never leaves the range of its input: every output lies in any `[lo, hi]` holding every input. */
  lemma SmoothBetween(series: seq<int>, windowSize: nat, lo: int, hi: int)
    requires forall j :: 0 <= j < |series| ==> lo <= series[j] <= hi
    ensures forall i :: 0 <= i < |series| ==> lo <= Smooth(series, windowSize)[i] <= hi
  {
    forall i | 0 <= i < |series|
      ensures lo <= Smooth(series, windowSize)[i] <= hi
    {
      SmoothPointBetween(series, i, windowSize, lo, hi);
    }
  }

  /** A flat series is left as it is. */
  lemma SmoothConstant(series: seq<int>, windowSize: nat, c: int)
    requires forall j :: 0 <= j < |series| ==> series[j] == c
    ensures Smooth(series, windowSize) == series
  {
    SmoothBetween(series, windowSize, c, c);
  }

  /**
   * The filter is one pass over the original input: changing the input at
   * day `j` changes no output more than `windowSize` days away from `j`,
   * in either direction.
   */
  lemma SmoothIsLocal(a: seq<int>, b: seq<int>, windowSize: nat, j: nat, i: nat)
    requires |a| == |b| && j < |a| && i < |a|
    requires forall k :: 0 <= k < |a| && k != j ==> a[k] == b[k]
    requires i + windowSize < j || j + windowSize < i
    ensures Smooth(a, windowSize)[i] == Smooth(b, windowSize)[i]
  {
    assert Window(a, i, windowSize) == Window(b, i, windowSize);
  }

  /** Smoothing is not idempotent: smoothing a smoothed series changes it again. */
  lemma SmoothNotIdempotent()
    ensures Smooth(Smooth([0, 100], 2), 2) != Smooth([0, 100], 2)
  {
    assert Window([0, 100], 0, 2) == [0, 100];
    assert Window([0, 100], 1, 2) == [0, 100];
    assert Smooth([0, 100], 2) == [25, 75];
    assert Window([25, 75], 0, 2) == [25, 75];
    assert Smooth([25, 75], 2)[0] == 38;
  }
}
