/**
 * The aggregates shown on each manager's summary card: `getTotal`,
 * `getAverage` and `getBestDay` of script.js.
 */
module SalesStats {
  import opened Rounding

  /**
   * `getTotal`: `sales.reduce((sum, value) => sum + value, 0)`, a fold that
   * adds the days from the first to the last onto an initial 0.
   */
  function Total(sales: seq<int>): (r: int)
    ensures |sales| == 0 ==> r == 0
  {
    if |sales| == 0 then 0 else Total(sales[..|sales| - 1]) + sales[|sales| - 1]
  }

  /** The textbook sum, taken from the front: an independent definition of the total. */
  function SumFromFront(s: seq<int>): int
  {
    if |s| == 0 then 0 else s[0] + SumFromFront(s[1..])
  }

  /** The total of two runs of days put end to end is the sum of their totals. */
  lemma {:induction false} TotalAppend(a: seq<int>, b: seq<int>)
    ensures Total(a + b) == Total(a) + Total(b)
  {
    if |b| == 0 {
      assert a + b == a;
    } else {
      var c := a + b;
      assert c[..|c| - 1] == a + b[..|b| - 1];
      assert c[|c| - 1] == b[|b| - 1];
      TotalAppend(a, b[..|b| - 1]);
    }
  }

  /** `getTotal` is exactly the sum of the elements. */
  lemma {:induction false} TotalIsSum(s: seq<int>)
    ensures Total(s) == SumFromFront(s)
  {
    if |s| > 0 {
      assert s == [s[0]] + s[1..];
      TotalAppend([s[0]], s[1..]);
      assert [s[0]][..0] == [];
      TotalIsSum(s[1..]);
    }
  }

  /** Days that all lie in `[lo, hi]` have a total between `lo * n` and `hi * n`. */
  lemma {:induction false} TotalBetween(s: seq<int>, lo: int, hi: int)
    requires forall j :: 0 <= j < |s| ==> lo <= s[j] <= hi
    ensures lo * |s| <= Total(s) <= hi * |s|
  {
    if |s| > 0 {
      TotalBetween(s[..|s| - 1], lo, hi);
      assert lo * |s| == lo * (|s| - 1) + lo;
      assert hi * |s| == hi * (|s| - 1) + hi;
    }
  }

  /**
   * `getAverage`: `Math.round(total / length)`, and 0 (not NaN) for no days.
   * The result is the integer nearest to the mean, ties going up.
   */
  function Average(sales: seq<int>): (r: int)
    ensures |sales| == 0 ==> r == 0
    ensures |sales| > 0 ==> |sales| * (2 * r - 1) <= 2 * Total(sales) < |sales| * (2 * r + 1)
  {
    if |sales| > 0 then RoundDiv(Total(sales), |sales|) else 0
  }

  /** The average of days that all lie in `[lo, hi]` lies in `[lo, hi]` too. */
  lemma AverageBetween(sales: seq<int>, lo: int, hi: int)
    requires |sales| > 0
    requires forall j :: 0 <= j < |sales| ==> lo <= sales[j] <= hi
    ensures lo <= Average(sales) <= hi
  {
    TotalBetween(sales, lo, hi);
    RoundDivBetween(Total(sales), |sales|, lo, hi);
  }

  /** A JavaScript number restricted to what these aggregates produce: an integer or `-Infinity`. */
  datatype Extended = NegInfinity | Finite(n: int)

  /** `Math.max(...sales)`: the largest day, and `-Infinity` when there is none. */
  function MaxOf(sales: seq<int>): (m: Extended)
    ensures m == NegInfinity <==> |sales| == 0
    ensures m.Finite? ==> m.n in sales
    ensures m.Finite? ==> forall j :: 0 <= j < |sales| ==> sales[j] <= m.n
  {
    if |sales| == 0 then NegInfinity
    else
      var rest := MaxOf(sales[1..]);
      if rest.NegInfinity? || sales[0] >= rest.n then Finite(sales[0]) else rest
  }

  /**
   * `sales.indexOf(x)`: the first position holding `x` under strict equality,
   * `-1` when there is none (always so for `-Infinity`).
   */
  function IndexOf(sales: seq<int>, x: Extended): (k: int)
    ensures -1 <= k < |sales|
    ensures k == -1 <==> forall j :: 0 <= j < |sales| ==> x != Finite(sales[j])
    ensures k >= 0 ==> x == Finite(sales[k])
    ensures k >= 0 ==> forall j :: 0 <= j < k ==> x != Finite(sales[j])
  {
    if |sales| == 0 then -1
    else if x == Finite(sales[0]) then 0
    else
      var k := IndexOf(sales[1..], x);
      if k == -1 then -1 else k + 1
  }

  /** The record `{ day, value }` that `getBestDay` returns; `day` counts from 1. */
  datatype BestDay = BestDay(day: int, value: Extended)

  /** True when `day` (1-based) holds the first occurrence of the largest value of `sales`. */
  predicate IsFirstMaximum(sales: seq<int>, day: int, value: int)
  {
    && 1 <= day <= |sales|
    && sales[day - 1] == value
    && (forall j :: 0 <= j < |sales| ==> sales[j] <= value)
    && (forall j :: 0 <= j < day - 1 ==> sales[j] < value)
  }

  /**
   * `getBestDay`: the largest value and the 1-based day of its first
   * occurrence; with no days, `Math.max()` is `-Infinity`, `indexOf` finds
   * nothing and the day is 0.
   */
  function GetBestDay(sales: seq<int>): (b: BestDay)
    ensures |sales| == 0 ==> b == BestDay(0, NegInfinity)
    ensures |sales| > 0 ==> b.value.Finite? && IsFirstMaximum(sales, b.day, b.value.n)
  {
    var m := MaxOf(sales);
    BestDay(IndexOf(sales, m) + 1, m)
  }

  /** The first maximum is unique, so any day and value with that property are what `getBestDay` reports. */
  lemma BestDayUnique(sales: seq<int>, day: int, value: int)
    requires IsFirstMaximum(sales, day, value)
    ensures GetBestDay(sales) == BestDay(day, Finite(value))
  {
    var b := GetBestDay(sales);
    assert b.value.n == value by {
      assert sales[b.day - 1] <= value && sales[day - 1] <= b.value.n;
    }
  }
}
