/** The ShipmentChart component's data order: a copy of the trend rows
    sorted by calendar month with months.indexOf, so a month name outside
    Jan .. Dec (index -1) comes before January. */
module ShipmentChart {
  import opened Sequences
  import Storage

  const Months: seq<string> := ["Jan", "Feb", "Mar", "Apr", "May", "Jun", "Jul", "Aug", "Sep", "Oct", "Nov", "Dec"]

  /** months.indexOf(month): the first position of month, or -1. */
  function MonthIndex(month: string): (r: int)
    ensures -1 <= r < |Months|
    ensures r >= 0 ==> Months[r] == month
    ensures r == -1 <==> month !in Months
  {
    IndexOf(Months, month)
  }

  /** seq.indexOf(x): the first position of x, or -1 when x is absent. */
  function IndexOf(xs: seq<string>, x: string): (r: int)
    ensures -1 <= r < |xs|
    ensures r >= 0 ==> xs[r] == x && forall j :: 0 <= j < r ==> xs[j] != x
    ensures r == -1 <==> x !in xs
    decreases |xs|
  {
    if xs == [] then -1
    else if xs[0] == x then 0
    else
      var k := IndexOf(xs[1..], x);
      assert x in xs[1..] ==> x in xs;
      assert x in xs && xs[0] != x ==> x in xs[1..];
      if k == -1 then -1 else k + 1
  }

  function MonthKey(t: Storage.ShipmentTrend): int {
    MonthIndex(t.month)
  }

  /** [...data].sort((a, b) => indexOf(a.month) - indexOf(b.month)): the
      same rows, each as often, in calendar order, rows of one month
      keeping their input order. */
  function SortedData(data: seq<Storage.ShipmentTrend>): (r: seq<Storage.ShipmentTrend>)
    ensures |r| == |data| && multiset(r) == multiset(data)
    ensures forall i, j :: 0 <= i < j < |r| ==> MonthIndex(r[i].month) <= MonthIndex(r[j].month)
  {
    var r := SortBy(data, MonthKey);
    assert SortedBy(r, MonthKey);
    r
  }

  /** The sort is stable: the rows of one month (say the same month of two
      years) come out in the order they came in. */
  lemma SortedDataKeepsMonthOrder(data: seq<Storage.ShipmentTrend>, month: string)
    ensures WithKey(SortedData(data), MonthKey, MonthIndex(month)) == WithKey(data, MonthKey, MonthIndex(month))
  {
    SortByStable(data, MonthKey, MonthIndex(month));
  }

  /** A row whose month is not one of the twelve names is plotted before
      every January row. */
  lemma UnknownMonthComesFirst(data: seq<Storage.ShipmentTrend>, i: int, j: int)
    requires 0 <= i < |SortedData(data)| && 0 <= j < |SortedData(data)|
    requires SortedData(data)[i].month !in Months && SortedData(data)[j].month == Months[0]
    ensures i < j
  {
  }

  /** The store's ten seeded rows, January to October, are already in
      calendar order, so the chart shows them as stored. */
  lemma SampleTrendsUnchanged(data: seq<Storage.ShipmentTrend>)
    requires data == Storage.SampleTrends()
    ensures SortedData(data) == data
  {
    forall i | 0 <= i < 10
      ensures MonthIndex(data[i].month) == i
    {
      assert data[i].month == Months[i];
      assert forall j :: 0 <= j < i ==> Months[j] != Months[i];
    }
    assert SortedBy(data, MonthKey);
    SortBySorted(data, MonthKey);
  }
}
