/** The headline analytics of a list of order lines: the number of
    distinct orders, the mean quantity per order, the five SKUs sold in the
    largest quantity, and the change in line count from the second-newest
    month to the newest. */
module Analytics {
  import opened Common
  import opened Text
  import opened Sorting

  /** A SKU and its total quantity. */
  datatype SkuTotal = SkuTotal(sku: string, quantity: int)

  datatype AnalyticsResult = AnalyticsResult(totalOrders: nat, averageOrderSize: real,
                                             topSellingSkus: seq<SkuTotal>, monthOverMonthGrowth: real)

  // ---------------------------------------------------------------------
  // Month-over-month growth
  // ---------------------------------------------------------------------

  /** `date.substring(0, 7)`: the first seven characters of the date, or all
      of a shorter one. */
  function MonthPrefix(o: Order): string {
    o.date[..Min(7, |o.date|)]
  }

  /** The months of the lines, in the default sort order. */
  function SortedMonths(orders: seq<Order>): seq<string> {
    SortStrings(DistinctKeys(orders, MonthPrefix))
  }

  /** The number of lines in the `k`-th newest month (1 is the newest), or
      0 when there are fewer months. */
  function LinesInMonth(orders: seq<Order>, k: nat): nat {
    MonthSize(orders, SortedMonths(orders), k)
  }

  /** The number of lines in the `k`-th last of `months`, or 0. */
  function MonthSize(orders: seq<Order>, months: seq<string>, k: nat): nat {
    if 1 <= k <= |months| then |LinesWith(orders, MonthPrefix, months[|months| - k])| else 0
  }

  /** The change in line count from the second-newest month to the newest,
      in percent of the former; 0 when the former is 0. */
  function MonthOverMonthGrowth(orders: seq<Order>): real {
    Growth(LinesInMonth(orders, 1), LinesInMonth(orders, 2))
  }

  /** The change from `previous` to `last` in percent of `previous`, or 0
      when `previous` is 0. */
  function Growth(last: nat, previous: nat): real {
    if previous == 0 then 0.0 else (last - previous) as real / previous as real * 100.0
  }

  /** Over a positive base, the growth multiplied back by the base gives the
      change in percent, and it has the change's sign. */
  lemma GrowthPercent(g: real, last: nat, previous: nat)
    requires previous > 0 && g == Growth(last, previous)
    ensures g * previous as real == (last - previous) as real * 100.0
    ensures g > 0.0 <==> last > previous
    ensures g < 0.0 <==> last < previous
  {
  }

  /** An average over a positive count, multiplied back by the count, gives
      the total. */
  lemma AverageBack(r: AnalyticsResult, total: int)
    requires r.totalOrders > 0 && r.averageOrderSize == total as real / r.totalOrders as real
    ensures r.averageOrderSize * r.totalOrders as real == total as real
  {
  }

  /** The growth is 0 with fewer than two months; with two or more, the
      second-newest month has lines. */
  lemma GrowthSpec(orders: seq<Order>)
    ensures |SortedMonths(orders)| < 2 ==> MonthOverMonthGrowth(orders) == 0.0
    ensures |SortedMonths(orders)| >= 2 ==> LinesInMonth(orders, 2) >= 1
  {
    var months := SortedMonths(orders);
    if |months| >= 2 {
      var m := months[|months| - 2];
      SortStringsSameElements(DistinctKeys(orders, MonthPrefix), m);
      DistinctKeyHasLines(orders, MonthPrefix, m);
    }
  }

  /** The size of the `k`-th newest month's group, as `monthlyOrders[m]?.length
      || 0` reads it: 0 when there are fewer than `k` months. */
  method GroupSize(monthlyOrders: Record<seq<Order>>, ghost orders: seq<Order>, months: seq<string>, k: nat)
    returns (size: nat)
    requires GroupedBy(monthlyOrders, orders, MonthPrefix)
    requires forall m :: m in months ==> m in monthlyOrders.keys
    ensures size == MonthSize(orders, months, k)
  {
    if 1 <= k <= |months| {
      size := |monthlyOrders.entries[months[|months| - k]]|;
    } else {
      size := 0;
    }
  }

  /** The growth computed from the month groups: the sorted month keys, the
      newest group's size and the second-newest's. */
  method MonthGrowth(monthlyOrders: Record<seq<Order>>, ghost orders: seq<Order>) returns (growth: real)
    requires GroupedBy(monthlyOrders, orders, MonthPrefix)
    ensures growth == MonthOverMonthGrowth(orders)
  {
    var months := SortStrings(monthlyOrders.keys);
    assert months == SortedMonths(orders);
    forall m | m in months ensures m in monthlyOrders.keys {
      SortStringsSameElements(monthlyOrders.keys, m);
    }
    var lastMonthTotal := GroupSize(monthlyOrders, orders, months, 1);
    var previousMonthTotal := GroupSize(monthlyOrders, orders, months, 2);
    growth := Growth(lastMonthTotal, previousMonthTotal);
  }

  // ---------------------------------------------------------------------
  // Top-selling SKUs
  // ---------------------------------------------------------------------

  /** Each distinct SKU, in first-appearance order, with its total quantity. */
  function SkuTotals(orders: seq<Order>): seq<SkuTotal> {
    var skus := DistinctKeys(orders, SkuOf);
    seq(|skus|, i requires 0 <= i < |skus| => SkuTotal(skus[i], SumQuantity(LinesWith(orders, SkuOf, skus[i]))))
  }

  /** The score the SKU rankings sort by (`b.quantity - a.quantity`). */
  function QuantityOf(e: SkuTotal): int { e.quantity }

  /** The first five SKUs by total quantity. */
  function TopSkus(orders: seq<Order>): seq<SkuTotal> {
    var sorted := SortBy(SkuTotals(orders), QuantityOf);
    sorted[..Min(5, |sorted|)]
  }

  /** The sorted list keeps every SKU total and its length. */
  lemma SortedTotals(orders: seq<Order>)
    ensures |SortBy(SkuTotals(orders), QuantityOf)| == |DistinctKeys(orders, SkuOf)|
    ensures forall e :: e in SortBy(SkuTotals(orders), QuantityOf) <==> e in SkuTotals(orders)
  {
    SortBySorted(SkuTotals(orders), QuantityOf);
  }

  /** At most five SKUs, as many as there are when fewer, largest total
      first. */
  lemma TopSkusShape(orders: seq<Order>)
    ensures |TopSkus(orders)| == Min(5, |DistinctKeys(orders, SkuOf)|)
    ensures Descending(TopSkus(orders), QuantityOf)
  {
    SortedTotals(orders);
    SortBySorted(SkuTotals(orders), QuantityOf);
  }

  /** Every SKU listed occurs in the lines and carries its own total
      quantity. */
  lemma TopSkusTotals(orders: seq<Order>)
    ensures forall e :: e in TopSkus(orders) ==>
              e.sku in DistinctKeys(orders, SkuOf) && e.quantity == SumQuantity(LinesWith(orders, SkuOf, e.sku))
  {
    SortedTotals(orders);
    var all := SkuTotals(orders);
    var top := TopSkus(orders);
    forall e | e in top
      ensures e.sku in DistinctKeys(orders, SkuOf) && e.quantity == SumQuantity(LinesWith(orders, SkuOf, e.sku))
    {
      var l :| 0 <= l < |top| && top[l] == e;
      assert e in SortBy(all, QuantityOf);
      var i :| 0 <= i < |all| && all[i] == e;
    }
  }

  /** No SKU left off the list sold more than any SKU on it. */
  lemma TopSkusBest(orders: seq<Order>, k: string)
    requires k in DistinctKeys(orders, SkuOf)
    requires forall e :: e in TopSkus(orders) ==> e.sku != k
    ensures forall e :: e in TopSkus(orders) ==> SumQuantity(LinesWith(orders, SkuOf, k)) <= e.quantity
  {
    var all := SkuTotals(orders);
    var sorted := SortBy(all, QuantityOf);
    var top := TopSkus(orders);
    SortedTotals(orders);
    SortBySorted(all, QuantityOf);
    var skus := DistinctKeys(orders, SkuOf);
    var i :| 0 <= i < |skus| && skus[i] == k;
    var x := all[i];
    assert x in sorted;
    var j :| 0 <= j < |sorted| && sorted[j] == x;
    assert j >= |top| by {
      assert forall l :: 0 <= l < |top| ==> sorted[l] == top[l] && top[l].sku != k;
    }
    BelowPrefix(sorted, QuantityOf, |top|, j);
  }

  /** The SKU totals listed in key order, sorted, and cut to five. */
  method TopSellingSkus(skuTotals: Record<int>, ghost orders: seq<Order>) returns (top: seq<SkuTotal>)
    requires TotalledBy(skuTotals, orders, SkuOf)
    ensures top == TopSkus(orders)
  {
    var entries := seq(|skuTotals.keys|, i requires 0 <= i < |skuTotals.keys| =>
                         SkuTotal(skuTotals.keys[i], skuTotals.entries[skuTotals.keys[i]]));
    assert entries == SkuTotals(orders);
    var sorted := SortBy(entries, QuantityOf);
    top := sorted[..Min(5, |sorted|)];
  }

  // ---------------------------------------------------------------------
  // Analytics
  // ---------------------------------------------------------------------

  /** What the analytics report for some lines. */
  function AnalyticsOf(orders: seq<Order>): AnalyticsResult {
    if |orders| == 0 then AnalyticsResult(0, 0.0, [], 0.0)
    else
      var count := CountDistinct(orders, OrderNumberOf);
      AnalyticsResult(count, SumQuantity(orders) as real / count as real, TopSkus(orders),
                      MonthOverMonthGrowth(orders))
  }

  /** `calculateAnalytics`: lines grouped by month for the growth, quantities
      totalled per SKU for the ranking and per order number for the average. */
  method CalculateAnalytics(orders: seq<Order>) returns (r: AnalyticsResult)
    ensures r == AnalyticsOf(orders)
  {
    if |orders| == 0 {
      return AnalyticsResult(0, 0.0, [], 0.0);
    }
    var monthlyOrders := GroupBy(orders, MonthPrefix);
    var monthOverMonthGrowth := MonthGrowth(monthlyOrders, orders);
    var skuTotals := TotalBy(orders, SkuOf);
    var topSellingSkus := TopSellingSkus(skuTotals, orders);
    var orderSizes := TotalBy(orders, OrderNumberOf);
    var sizeSum := SumGroupTotals(orderSizes, orders, OrderNumberOf);
    var count := |orderSizes.keys|;
    r := AnalyticsResult(count, sizeSum as real / count as real, topSellingSkus, monthOverMonthGrowth);
  }

  /** No lines give zero orders, a zero average, no SKUs and no growth;
      otherwise the orders are the distinct order numbers, at least one and
      at most one per line. */
  lemma AnalyticsSpec(orders: seq<Order>)
    ensures |orders| == 0 ==> AnalyticsOf(orders) == AnalyticsResult(0, 0.0, [], 0.0)
    ensures AnalyticsOf(orders).totalOrders == |set o | o in orders :: o.orderNumber|
    ensures |orders| > 0 ==> 1 <= AnalyticsOf(orders).totalOrders <= |orders|
  {
    var f := OrderNumberOf;
    var count := CountDistinct(orders, f);
    assert (set o | o in orders :: f(o)) == set o | o in orders :: o.orderNumber;
  }

  /** The average order size times the number of orders is the total
      quantity. */
  lemma AverageSpec(orders: seq<Order>)
    requires |orders| > 0
    ensures AnalyticsOf(orders).averageOrderSize * AnalyticsOf(orders).totalOrders as real
            == SumQuantity(orders) as real
  {
    AverageBack(AnalyticsOf(orders), SumQuantity(orders));
  }
}
