/**
 * The reporting periods (`PERIODS` in script.js) and the x-axis labels
 * `getLabels` draws under a chart for each of them.
 */
module Labels {

  /** The keys of `PERIODS`: `week`, `month` and `year`. */
  datatype Period = Week | Month | Year

  /** `PERIODS[key].points`: how many data points a period has. */
  function Points(period: Period): nat
  {
    match period
    case Week => 7
    case Month => 30
    case Year => 12
  }

  /** The twelve month abbreviations used as labels for the year. */
  const MonthAbbreviations: seq<string> :=
    ["Янв", "Фев", "Мар", "Апр", "Май", "Июн", "Июл", "Авг", "Сен", "Окт", "Ноя", "Дек"]

  function DigitChar(d: nat): (c: char)
    requires d < 10
    ensures '0' <= c <= '9' && c as int - '0' as int == d
  {
    ('0' as int + d) as char
  }

  /**
   * The template literal `${n}`: its decimal digits.  JavaScript writes a
   * number this way only below 10^21 (from there on in exponent form); the
   * labels use 1 to 30.
   */
  function DecimalString(n: nat): (s: string)
    ensures |s| >= 1
  {
    if n < 10 then [DigitChar(n)] else DecimalString(n / 10) + [DigitChar(n % 10)]
  }

  /** A canonical decimal numeral: digits only, and no leading zero unless it is "0". */
  predicate IsDecimal(s: string)
  {
    && |s| >= 1
    && (forall k :: 0 <= k < |s| ==> '0' <= s[k] <= '9')
    && (|s| > 1 ==> s[0] != '0')
  }

  /** The number a string of decimal digits denotes, read from left to right. */
  function ParseDecimal(s: string): int
  {
    if |s| == 0 then 0 else 10 * ParseDecimal(s[..|s| - 1]) + (s[|s| - 1] as int - '0' as int)
  }

  /** `${n}` (for `n` below 10^21) is a canonical numeral and reads back as `n`. */
  lemma {:induction false} DecimalRoundTrip(n: nat)
    ensures IsDecimal(DecimalString(n))
    ensures ParseDecimal(DecimalString(n)) == n
  {
    var s := DecimalString(n);
    if n >= 10 {
      DecimalRoundTrip(n / 10);
      var prefix := DecimalString(n / 10);
      assert s[..|s| - 1] == prefix;
      assert s[0] == prefix[0];
      assert forall k :: 0 <= k < |prefix| ==> s[k] == prefix[k];
    }
  }

  /**
   * `getLabels(periodKey)`: the twelve month names for a year; otherwise
   * one label per point, the numerals "1", "2", ... up to the period's
   * `points`, in order.
   */
  function GetLabels(period: Period): (labels: seq<string>)
    ensures |labels| == Points(period)
    ensures period == Year ==> labels == MonthAbbreviations
    ensures period != Year ==> forall i :: 0 <= i < |labels| ==>
              IsDecimal(labels[i]) && ParseDecimal(labels[i]) == i + 1
  {
    if period == Year then MonthAbbreviations
    else
      var n := Points(period);
      var labels := seq(n, i requires 0 <= i < n => DecimalString(i + 1));
      assert forall i :: 0 <= i < n ==> IsDecimal(labels[i]) && ParseDecimal(labels[i]) == i + 1 by {
        forall i | 0 <= i < n
          ensures IsDecimal(labels[i]) && ParseDecimal(labels[i]) == i + 1
        {
          DecimalRoundTrip(i + 1);
        }
      }
      labels
  }

  /** No two labels of a period are the same. */
  lemma LabelsDistinct(period: Period, i: nat, j: nat)
    requires i < j < Points(period)
    ensures GetLabels(period)[i] != GetLabels(period)[j]
  {
    var labels := GetLabels(period);
    if period == Year {
      assert labels == MonthAbbreviations;
    }
  }
}
