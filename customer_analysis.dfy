/** The customer panel: per order number, the items bought, the lines and
    the latest line date; per period, the number of orders, the items and
    the mean items per order; and the growth in orders between the periods
    with its label. */
module CustomerAnalysis {
  import opened Common
  import opened Dates
  import opened Analytics

  // ---------------------------------------------------------------------
  // Per-order accumulator
  // ---------------------------------------------------------------------

  /** One order's accumulator: items, lines and the latest date seen. */
  datatype CustomerEntry = CustomerEntry(totalItems: int, orders: nat, lastOrderDate: Option<int>)

  /** The accumulator before an order's first line. */
  const NoLines := CustomerEntry(0, 0, None)

  /** Folds one line in, reading dates with `dateValue`: the first line
      opens the entry with its own date; every line adds its quantity and
      one line, and replaces the date when it is later. */
  function AddLine(dateValue: string -> Option<int>): (CustomerEntry, Order) -> CustomerEntry {
    (acc: CustomerEntry, o: Order) =>
      var d := dateValue(o.date);
      CustomerEntry(acc.totalItems + o.quantity, acc.orders + 1,
                    if acc.orders == 0 || After(d, acc.lastOrderDate) then d else acc.lastOrderDate)
  }

  /** The accumulator for one order number's lines. */
  function EntryOf(lines: seq<Order>): CustomerEntry {
    FoldLines(lines, NoLines, AddLine(DateValue))
  }

  /** An order's entry counts its items and its lines. */
  lemma {:induction false} EntryCounts(lines: seq<Order>, dateValue: string -> Option<int>)
    ensures FoldLines(lines, NoLines, AddLine(dateValue)).totalItems == SumQuantity(lines)
    ensures FoldLines(lines, NoLines, AddLine(dateValue)).orders == |lines|
  {
    if |lines| > 0 {
      EntryCounts(lines[..|lines| - 1], dateValue);
    }
  }

  /** When every line's date is valid, the latest date is the largest of
      them. */
  lemma {:induction false} EntryLatest(lines: seq<Order>, dateValue: string -> Option<int>)
    requires |lines| > 0
    requires forall i :: 0 <= i < |lines| ==> dateValue(lines[i].date).Some?
    ensures FoldLines(lines, NoLines, AddLine(dateValue)).lastOrderDate.Some?
    ensures exists i :: 0 <= i < |lines| &&
              FoldLines(lines, NoLines, AddLine(dateValue)).lastOrderDate == dateValue(lines[i].date)
    ensures forall i :: 0 <= i < |lines| ==>
              dateValue(lines[i].date).value <= FoldLines(lines, NoLines, AddLine(dateValue)).lastOrderDate.value
  {
    var n := |lines|;
    var p := lines[..n - 1];
    var e := FoldLines(p, NoLines, AddLine(dateValue));
    var d := dateValue(lines[n - 1].date);
    assert FoldLines(lines, NoLines, AddLine(dateValue)) == AddLine(dateValue)(e, lines[n - 1]);
    if n == 1 {
      assert e == NoLines;
    } else {
      EntryCounts(p, dateValue);
      EntryLatest(p, dateValue);
      var i :| 0 <= i < |p| && e.lastOrderDate == dateValue(p[i].date);
      assert p[i] == lines[i];
      forall j | 0 <= j < n - 1 ensures dateValue(lines[j].date).value <= e.lastOrderDate.value {
        assert p[j] == lines[j];
      }
    }
  }

  /** An invalid first date makes the latest date invalid for good: no
      comparison with NaN succeeds. */
  lemma {:induction false} EntryInvalidFirst(lines: seq<Order>, dateValue: string -> Option<int>)
    requires |lines| > 0 && dateValue(lines[0].date).None?
    ensures FoldLines(lines, NoLines, AddLine(dateValue)).lastOrderDate.None?
  {
    if |lines| > 1 {
      var p := lines[..|lines| - 1];
      assert p[0] == lines[0];
      EntryCounts(p, dateValue);
      EntryInvalidFirst(p, dateValue);
      var e := FoldLines(p, NoLines, AddLine(dateValue));
      assert FoldLines(lines, NoLines, AddLine(dateValue)) == AddLine(dateValue)(e, lines[|lines| - 1]);
      assert !After(dateValue(lines[|lines| - 1].date), e.lastOrderDate);
    } else {
      assert FoldLines(lines, NoLines, AddLine(dateValue)) == AddLine(dateValue)(NoLines, lines[0]);
    }
  }

  // ---------------------------------------------------------------------
  // Period metrics
  // ---------------------------------------------------------------------

  datatype CustomerMetrics = CustomerMetrics(totalCustomers: nat, averageOrderValue: real, totalItems: int)

  /** What `calculateMetrics` reports: the distinct orders, the mean items
      per order (0 with no orders) and all the items. */
  function CustomerMetricsOf(data: seq<Order>): CustomerMetrics {
    var n := |DistinctKeys(data, OrderNumberOf)|;
    var items := SumQuantity(data);
    CustomerMetrics(n, if n > 0 then items as real / n as real else 0.0, items)
  }

  /** `calculateMetrics`: accumulates one entry per order number, counts the
      entries, and adds up their items. */
  method CalculateMetrics(periodData: seq<Order>) returns (m: CustomerMetrics)
    ensures m == CustomerMetricsOf(periodData)
  {
    var customerOrders := AccumulateBy(periodData, OrderNumberOf, NoLines, AddLine(DateValue));
    var totalCustomers := |customerOrders.keys|;
    var totalItems := 0;
    for j := 0 to |customerOrders.keys|
      invariant totalItems == SumOverKeys(periodData, OrderNumberOf, customerOrders.keys[..j])
    {
      var k := customerOrders.keys[j];
      assert customerOrders.keys[..j + 1][..j] == customerOrders.keys[..j];
      EntryCounts(LinesWith(periodData, OrderNumberOf, k), DateValue);
      totalItems := totalItems + customerOrders.entries[k].totalItems;
    }
    assert customerOrders.keys[..|customerOrders.keys|] == customerOrders.keys;
    SumOverDistinctKeys(periodData, OrderNumberOf);
    var averageOrderValue := if totalCustomers > 0 then totalItems as real / totalCustomers as real else 0.0;
    m := CustomerMetrics(totalCustomers, averageOrderValue, totalItems);
  }

  /** The customers are the distinct order numbers, none without lines and
      at most one per line; the items are all the lines' quantities. */
  lemma CustomerMetricsSpec(data: seq<Order>)
    ensures CustomerMetricsOf(data).totalCustomers == |set o | o in data :: o.orderNumber|
    ensures CustomerMetricsOf(data).totalItems == SumQuantity(data)
    ensures |data| == 0 <==> CustomerMetricsOf(data).totalCustomers == 0
    ensures CustomerMetricsOf(data).totalCustomers <= |data|
  {
    var f := OrderNumberOf;
    var n := CountDistinct(data, f);
    assert (set o | o in data :: f(o)) == set o | o in data :: o.orderNumber;
  }

  /** With some customers, the mean items per order is the items shared over
      the customers; with none it is 0. */
  lemma CustomerAverage(data: seq<Order>)
    ensures CustomerMetricsOf(data).totalCustomers == 0 ==> CustomerMetricsOf(data).averageOrderValue == 0.0
    ensures CustomerMetricsOf(data).totalCustomers > 0 ==>
              CustomerMetricsOf(data).averageOrderValue * CustomerMetricsOf(data).totalCustomers as real
              == CustomerMetricsOf(data).totalItems as real
  {
    var m := CustomerMetricsOf(data);
    if m.totalCustomers > 0 {
      ItemsBack(CustomerMetricsOf(data));
    }
  }

  lemma ItemsBack(m: CustomerMetrics)
    requires m.totalCustomers > 0 && m.averageOrderValue == m.totalItems as real / m.totalCustomers as real
    ensures m.averageOrderValue * m.totalCustomers as real == m.totalItems as real
  {
  }

  // ---------------------------------------------------------------------
  // Growth between the periods
  // ---------------------------------------------------------------------

  /** `growthRate`: the change in orders from the first period to the
      second, in percent of the first; 0 when the first has none. */
  function GrowthRate(m1: CustomerMetrics, m2: CustomerMetrics): real {
    Growth(m2.totalCustomers, m1.totalCustomers)
  }

  function GrowthLabel(growthRate: real): string {
    if growthRate > 0.0 then "Increase" else if growthRate < 0.0 then "Decrease" else "No Change"
  }

  /** The label reads "Increase" exactly when the first period has orders
      and the second more, "Decrease" exactly when the first has orders and
      the second fewer, and "No Change" otherwise. */
  lemma GrowthLabelSpec(m1: CustomerMetrics, m2: CustomerMetrics)
    ensures GrowthLabel(GrowthRate(m1, m2)) == "Increase"
            <==> m1.totalCustomers > 0 && m2.totalCustomers > m1.totalCustomers
    ensures GrowthLabel(GrowthRate(m1, m2)) == "Decrease"
            <==> m1.totalCustomers > 0 && m2.totalCustomers < m1.totalCustomers
    ensures GrowthLabel(GrowthRate(m1, m2)) == "No Change"
            <==> m1.totalCustomers == 0 || m2.totalCustomers == m1.totalCustomers
  {
    if m1.totalCustomers > 0 {
      GrowthPercent(GrowthRate(m1, m2), m2.totalCustomers, m1.totalCustomers);
    }
  }
}
