/**
 * The manager roster of script.js (`managers`: each seed with its generated
 * sales per period) and the lookup `renderDailyChart` uses to pick the
 * manager whose daily chart is drawn.
 */
module Dashboard {
  import opened Wrappers
  import opened Labels
  import opened SeriesGenerator

  /** A manager's series for each period (`sales.week`, `sales.month`, `sales.year`). */
  datatype Sales = Sales(week: seq<int>, month: seq<int>, year: seq<int>)

  /** A roster entry: the seed's identity and the sales generated for it. */
  datatype Manager = Manager(id: string, name: string, city: string, sales: Sales)

  /** `manager.sales[period]`. */
  function SalesFor(sales: Sales, period: Period): seq<int>
  {
    match period
    case Week => sales.week
    case Month => sales.month
    case Year => sales.year
  }

  /**
   * One element of `managerSeeds.map(...)`: the seed's fields plus a series
   * generated for each period with that period's `points` as its length.
   * `rawWeek`, `rawMonth` and `rawYear` stand for the rounded pre-clamp days
   * that the seed's base, variance and trend produce.
   */
  function MakeManager(id: string, name: string, city: string,
                       rawWeek: int -> int, rawMonth: int -> int, rawYear: int -> int): (m: Manager)
    ensures m.id == id && m.name == name && m.city == city
    ensures forall p: Period :: |SalesFor(m.sales, p)| == Points(p)
    ensures forall p: Period, i :: 0 <= i < |SalesFor(m.sales, p)| ==> SalesFor(m.sales, p)[i] >= MinDailySales
  {
    Manager(id, name, city, Sales(
      GenerateSeries(Points(Week), rawWeek),
      GenerateSeries(Points(Month), rawMonth),
      GenerateSeries(Points(Year), rawYear)))
  }

  /** A chart of a generated manager's sales has exactly one label per data point. */
  lemma LabelsMatchSales(id: string, name: string, city: string,
                         rawWeek: int -> int, rawMonth: int -> int, rawYear: int -> int, period: Period)
    ensures var m := MakeManager(id, name, city, rawWeek, rawMonth, rawYear);
            |GetLabels(period)| == |SalesFor(m.sales, period)|
  {
  }

  /** `managers.find(item => item.id === managerId)`: the first manager with that id, if any. */
  function Find(roster: seq<Manager>, managerId: string): (r: Option<Manager>)
    ensures r.None? <==> forall k :: 0 <= k < |roster| ==> roster[k].id != managerId
    ensures forall k :: IsFirstWithId(roster, managerId, k) ==> r == Some(roster[k])
  {
    if |roster| == 0 then None
    else if roster[0].id == managerId then Some(roster[0])
    else
      var r := Find(roster[1..], managerId);
      assert forall k :: IsFirstWithId(roster, managerId, k) ==> IsFirstWithId(roster[1..], managerId, k - 1);
      r
  }

  /** Position `k` holds the first manager of the roster whose id is `managerId`. */
  predicate IsFirstWithId(roster: seq<Manager>, managerId: string, k: int)
  {
    && 0 <= k < |roster|
    && roster[k].id == managerId
    && forall j :: 0 <= j < k ==> roster[j].id != managerId
  }

  /**
   * `managers.find(...) ?? managers[0]`: the first manager with the
   * requested id, and the first manager of the roster when no id matches.
   * Only an empty roster gives `undefined`.
   */
  function ChartManager(roster: seq<Manager>, managerId: string): (r: Option<Manager>)
    ensures r.None? <==> |roster| == 0
    ensures forall k :: IsFirstWithId(roster, managerId, k) ==> r == Some(roster[k])
    ensures |roster| > 0 && (forall k :: 0 <= k < |roster| ==> roster[k].id != managerId) ==>
              r == Some(roster[0])
  {
    match Find(roster, managerId)
    case Some(m) => Some(m)
    case None => if |roster| > 0 then Some(roster[0]) else None
  }

  /** In a roster whose ids are all different, asking for a manager's own id gives that manager back. */
  lemma ChartManagerOwnId(roster: seq<Manager>, k: nat)
    requires k < |roster|
    requires forall i, j :: 0 <= i < j < |roster| ==> roster[i].id != roster[j].id
    ensures ChartManager(roster, roster[k].id) == Some(roster[k])
  {
    assert IsFirstWithId(roster, roster[k].id, k);
  }
}
