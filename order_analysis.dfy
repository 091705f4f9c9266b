/** The order-size panel: which lines fall into each compared period, the
    quantity of each order in a period, the mean and largest order, and how
    many orders fall into each of four size ranges. */
module OrderAnalysis {
  import opened Common
  import opened Dates
  import opened TimeComparison

  // ---------------------------------------------------------------------
  // The two compared periods
  // ---------------------------------------------------------------------

  /** The first or the second of the compared periods. */
  datatype Side = First | Second

  function PeriodOf(sel: Selection, side: Side): string {
    if side == First then sel.period1 else sel.period2
  }

  function RangeOf(r: CustomRange, side: Side): DateRange {
    if side == First then DateRange(r.start1, r.end1) else DateRange(r.start2, r.end2)
  }

  /** The lines of one compared period: those in that side's custom range
      when the type is custom and a range is set, otherwise those whose key
      at the selected granularity is that side's period. */
  function PeriodData(data: seq<Order>, sel: Selection, side: Side): seq<Order> {
    if sel.periodType == Custom && sel.customRange.Some? then
      FilterDataByPeriod(data, Custom, "", Some(RangeOf(sel.customRange.value, side)))
    else
      FilterDataByPeriod(data, sel.periodType, PeriodOf(sel, side), None)
  }

  /** The heading of one compared period: the custom range written out, or
      the period key. */
  function PeriodLabel(sel: Selection, side: Side): string {
    if sel.periodType == Custom && sel.customRange.Some? then
      var r := RangeOf(sel.customRange.value, side);
      r.start + " to " + r.end
    else
      PeriodOf(sel, side)
  }

  /** A line belongs to a period's slice exactly when: with a custom type
      and a range, its date and that side's bounds parse and the date lies
      within them; with a custom type and no range, never; otherwise, its
      date parses and has that side's period as its key. */
  lemma PeriodDataHas(data: seq<Order>, sel: Selection, side: Side, o: Order)
    ensures sel.periodType == Custom && sel.customRange.Some? ==>
              var r := RangeOf(sel.customRange.value, side);
              (o in PeriodData(data, sel, side)
               <==> o in data && ParseDate(o.date).Ok? && ParseDate(r.start).Ok? && ParseDate(r.end).Ok?
                    && DayNumber(ParseDate(r.start).value) <= DayNumber(ParseDate(o.date).value)
                    && DayNumber(ParseDate(o.date).value) <= DayNumber(ParseDate(r.end).value))
    ensures sel.periodType == Custom && sel.customRange.None? ==> PeriodData(data, sel, side) == []
    ensures sel.periodType != Custom ==>
              (o in PeriodData(data, sel, side)
               <==> o in data && ParseDate(o.date).Ok?
                    && PeriodKey(sel.periodType, ParseDate(o.date).value) == Some(PeriodOf(sel, side)))
  {
    if sel.periodType == Custom && sel.customRange.Some? {
      var r := RangeOf(sel.customRange.value, side);
      FilterByRange(data, "", r.start, r.end, o);
    } else if sel.periodType == Custom {
      FilterCustomWithoutRange(data, PeriodOf(sel, side));
    } else {
      FilterByKey(data, sel.periodType, PeriodOf(sel, side), None, o);
    }
  }

  /** A slice keeps the order of the lines: slicing a concatenation
      concatenates the slices. */
  lemma PeriodDataAppend(a: seq<Order>, b: seq<Order>, sel: Selection, side: Side)
    ensures PeriodData(a + b, sel, side) == PeriodData(a, sel, side) + PeriodData(b, sel, side)
    ensures |PeriodData(a, sel, side)| <= |a|
  {
    if sel.periodType == Custom && sel.customRange.Some? {
      FilterAppend(a, b, Custom, "", Some(RangeOf(sel.customRange.value, side)));
    } else {
      FilterAppend(a, b, sel.periodType, PeriodOf(sel, side), None);
    }
  }

  // ---------------------------------------------------------------------
  // Order sizes
  // ---------------------------------------------------------------------

  /** The total quantity of one order's lines. */
  function OrderTotal(data: seq<Order>, orderNumber: string): int {
    SumQuantity(LinesWith(data, OrderNumberOf, orderNumber))
  }

  /** The values of the per-order Map: each order's total, in order of the
      order number's first line. */
  function OrderSizes(data: seq<Order>): seq<int> {
    var ks := DistinctKeys(data, OrderNumberOf);
    seq(|ks|, i requires 0 <= i < |ks| => OrderTotal(data, ks[i]))
  }

  /** Adding up per-key totals over some keys is adding up their quantities
      key by key. */
  lemma {:induction false} SumIntsOverKeys(data: seq<Order>, ks: seq<string>)
    ensures SumInts(seq(|ks|, i requires 0 <= i < |ks| => OrderTotal(data, ks[i])))
            == SumOverKeys(data, OrderNumberOf, ks)
  {
    var s := seq(|ks|, i requires 0 <= i < |ks| => OrderTotal(data, ks[i]));
    if |ks| > 0 {
      var p := ks[..|ks| - 1];
      SumIntsOverKeys(data, p);
      assert s[..|s| - 1] == seq(|p|, i requires 0 <= i < |p| => OrderTotal(data, p[i]));
    }
  }

  /** The sizes add up to the total quantity of the lines. */
  lemma OrderSizesSum(data: seq<Order>)
    ensures SumInts(OrderSizes(data)) == SumQuantity(data)
  {
    SumIntsOverKeys(data, DistinctKeys(data, OrderNumberOf));
    SumOverDistinctKeys(data, OrderNumberOf);
  }

  /** There is one size per distinct order number. */
  lemma OrderSizesCount(data: seq<Order>)
    ensures |OrderSizes(data)| == |set o | o in data :: o.orderNumber|
  {
    var f := OrderNumberOf;
    var n := CountDistinct(data, f);
    assert (set o | o in data :: f(o)) == set o | o in data :: o.orderNumber;
  }

  /** `Math.max(...xs)` of a non-empty list. */
  function MaxOf(xs: seq<int>): (m: int)
    requires |xs| > 0
    ensures m in xs
    ensures forall i :: 0 <= i < |xs| ==> xs[i] <= m
  {
    if |xs| == 1 then xs[0]
    else
      var m := MaxOf(xs[..|xs| - 1]);
      assert forall i :: 0 <= i < |xs| - 1 ==> xs[..|xs| - 1][i] == xs[i];
      if m < xs[|xs| - 1] then xs[|xs| - 1] else m
  }

  // ---------------------------------------------------------------------
  // Size ranges
  // ---------------------------------------------------------------------

  /** The four size ranges of the chart, in its order. */
  datatype SizeRange = OneToTwo | ThreeToFive | SixToTen | ElevenPlus

  const SizeRangeOrder: seq<SizeRange> := [OneToTwo, ThreeToFive, SixToTen, ElevenPlus]

  function RangeName(r: SizeRange): string {
    match r
    case OneToTwo => "1-2 items"
    case ThreeToFive => "3-5 items"
    case SixToTen => "6-10 items"
    case ElevenPlus => "11+ items"
  }

  /** The filter each range applies to an order size. */
  predicate InRange(r: SizeRange, size: int) {
    match r
    case OneToTwo => size <= 2
    case ThreeToFive => size > 2 && size <= 5
    case SixToTen => size > 5 && size <= 10
    case ElevenPlus => size > 10
  }

  /** `sizes.filter(s => InRange(r, s)).length`. */
  function CountInRange(sizes: seq<int>, r: SizeRange): nat {
    if |sizes| == 0 then 0
    else CountInRange(sizes[..|sizes| - 1], r) + (if InRange(r, sizes[|sizes| - 1]) then 1 else 0)
  }

  /** Every size lies in exactly one range. */
  lemma OneRange(size: int)
    ensures |set r | r in SizeRangeOrder && InRange(r, size)| == 1
  {
    var s := set r | r in SizeRangeOrder && InRange(r, size);
    if size <= 2 {
      assert s == {OneToTwo};
    } else if size <= 5 {
      assert s == {ThreeToFive};
    } else if size <= 10 {
      assert s == {SixToTen};
    } else {
      assert s == {ElevenPlus};
    }
  }

  /** The four ranges partition the orders: their counts add up to the
      number of sizes. */
  lemma {:induction false} RangesPartition(sizes: seq<int>)
    ensures CountInRange(sizes, OneToTwo) + CountInRange(sizes, ThreeToFive)
            + CountInRange(sizes, SixToTen) + CountInRange(sizes, ElevenPlus) == |sizes|
  {
    if |sizes| > 0 {
      RangesPartition(sizes[..|sizes| - 1]);
    }
  }

  // ---------------------------------------------------------------------
  // Metrics
  // ---------------------------------------------------------------------

  datatype SizeRanges = SizeRanges(oneToTwo: nat, threeToFive: nat, sixToTen: nat, elevenPlus: nat)

  function RangeCount(ranges: SizeRanges, r: SizeRange): nat {
    match r
    case OneToTwo => ranges.oneToTwo
    case ThreeToFive => ranges.threeToFive
    case SixToTen => ranges.sixToTen
    case ElevenPlus => ranges.elevenPlus
  }

  datatype OrderMetrics = OrderMetrics(averageSize: real, maxSize: int, totalOrders: nat, sizeRanges: SizeRanges)

  /** What `calculateMetrics` reports for a period's lines. */
  function MetricsOf(data: seq<Order>): OrderMetrics {
    var sizes := OrderSizes(data);
    OrderMetrics(if |sizes| > 0 then SumInts(sizes) as real / |sizes| as real else 0.0,
                 if |sizes| > 0 then MaxOf(sizes) else 0,
                 |sizes|,
                 SizeRanges(CountInRange(sizes, OneToTwo), CountInRange(sizes, ThreeToFive),
                            CountInRange(sizes, SixToTen), CountInRange(sizes, ElevenPlus)))
  }

  /** `calculateMetrics`: fills the per-order Map line by line, reads its
      values, and derives the mean, the largest and the range counts. */
  method CalculateMetrics(periodData: seq<Order>) returns (m: OrderMetrics)
    ensures m == MetricsOf(periodData)
  {
    var orderSizes := TotalBy(periodData, OrderNumberOf);
    var sizes := seq(|orderSizes.keys|, i requires 0 <= i < |orderSizes.keys| => orderSizes.entries[orderSizes.keys[i]]);
    assert sizes == OrderSizes(periodData);
    var averageSize := if |sizes| > 0 then SumInts(sizes) as real / |sizes| as real else 0.0;
    var maxSize := if |sizes| > 0 then MaxOf(sizes) else 0;
    m := OrderMetrics(averageSize, maxSize, |sizes|,
                      SizeRanges(CountInRange(sizes, OneToTwo), CountInRange(sizes, ThreeToFive),
                                 CountInRange(sizes, SixToTen), CountInRange(sizes, ElevenPlus)));
  }

  /** The orders are the distinct order numbers and the range counts add up
      to them; with no lines the mean and the largest are 0; otherwise the
      largest is the total of some order and no order's total exceeds it. */
  lemma MetricsSpec(data: seq<Order>)
    ensures MetricsOf(data).totalOrders == |set o | o in data :: o.orderNumber|
    ensures var r := MetricsOf(data).sizeRanges;
            r.oneToTwo + r.threeToFive + r.sixToTen + r.elevenPlus == MetricsOf(data).totalOrders
    ensures |data| == 0 ==> MetricsOf(data).averageSize == 0.0 && MetricsOf(data).maxSize == 0
    ensures |data| > 0 ==>
              && (exists k :: k in DistinctKeys(data, OrderNumberOf) && MetricsOf(data).maxSize == OrderTotal(data, k))
              && (forall k :: k in DistinctKeys(data, OrderNumberOf) ==> OrderTotal(data, k) <= MetricsOf(data).maxSize)
  {
    OrderSizesCount(data);
    RangesPartition(OrderSizes(data));
    var ks := DistinctKeys(data, OrderNumberOf);
    var sizes := OrderSizes(data);
    if |data| > 0 {
      DistinctKeysHas(data, OrderNumberOf, data[0].orderNumber);
      var i :| 0 <= i < |sizes| && sizes[i] == MaxOf(sizes);
      assert ks[i] in ks;
      forall k | k in ks ensures OrderTotal(data, k) <= MaxOf(sizes) {
        var j :| 0 <= j < |ks| && ks[j] == k;
        assert sizes[j] == OrderTotal(data, k);
      }
    } else {
      assert ks == [];
    }
  }

  /** With some lines, there is at least one order, and the mean order size
      is the total quantity of the lines shared over the distinct orders. */
  lemma MetricsMean(data: seq<Order>)
    requires |data| > 0
    ensures MetricsOf(data).totalOrders > 0
    ensures MetricsOf(data).averageSize == SumQuantity(data) as real / MetricsOf(data).totalOrders as real
  {
    OrderSizesSum(data);
    DistinctKeysHas(data, OrderNumberOf, data[0].orderNumber);
  }

  // ---------------------------------------------------------------------
  // Chart rows
  // ---------------------------------------------------------------------

  /** One bar group: the range's name and, under each period's label, that
      period's count. Equal labels share one entry. */
  datatype ChartRow = ChartRow(range: string, values: map<string, nat>)

  /** `chartData`: one row per size range, in the chart's order. */
  function ChartData(data: seq<Order>, sel: Selection): seq<ChartRow> {
    var m1, m2 := MetricsOf(PeriodData(data, sel, First)), MetricsOf(PeriodData(data, sel, Second));
    var l1, l2 := PeriodLabel(sel, First), PeriodLabel(sel, Second);
    seq(4, i requires 0 <= i < 4 =>
      var r := SizeRangeOrder[i];
      ChartRow(RangeName(r), map[l1 := RangeCount(m1.sizeRanges, r)][l2 := RangeCount(m2.sizeRanges, r)]))
  }

  /** Four rows, one per range in the fixed order; each carries the first
      period's count under its label and the second's under its label, and
      when the two labels coincide only the second period's count remains. */
  lemma ChartDataSpec(data: seq<Order>, sel: Selection)
    ensures |ChartData(data, sel)| == 4
    ensures forall i :: 0 <= i < 4 ==>
              var row := ChartData(data, sel)[i];
              var l1, l2 := PeriodLabel(sel, First), PeriodLabel(sel, Second);
              var c1 := RangeCount(MetricsOf(PeriodData(data, sel, First)).sizeRanges, SizeRangeOrder[i]);
              var c2 := RangeCount(MetricsOf(PeriodData(data, sel, Second)).sizeRanges, SizeRangeOrder[i]);
              && row.range == RangeName(SizeRangeOrder[i])
              && row.values.Keys == {l1, l2}
              && row.values[l2] == c2
              && (l1 != l2 ==> row.values[l1] == c1)
    ensures [ChartData(data, sel)[0].range, ChartData(data, sel)[1].range,
             ChartData(data, sel)[2].range, ChartData(data, sel)[3].range]
            == ["1-2 items", "3-5 items", "6-10 items", "11+ items"]
  {
  }
}
