/** The product panel: per SKU, the quantity sold and the lines in each
    compared period; a chart of the ten SKUs with the largest combined
    quantity; and the SKU that sold most in each period. */
module ProductPerformance {
  import opened Common
  import opened Sorting
  import opened TimeComparison
  import opened OrderAnalysis
  import opened Analytics

  // ---------------------------------------------------------------------
  // Per-SKU statistics of one period
  // ---------------------------------------------------------------------

  /** One SKU's accumulator: quantity sold and number of lines. */
  datatype SkuStats = SkuStats(quantity: int, orders: nat)

  const NoStats := SkuStats(0, 0)

  /** Folds one line into its SKU's accumulator. */
  function AddStat(acc: SkuStats, o: Order): SkuStats {
    SkuStats(acc.quantity + o.quantity, acc.orders + 1)
  }

  /** A SKU's accumulator holds its total quantity and its number of lines. */
  lemma {:induction false} StatsCounts(lines: seq<Order>)
    ensures FoldLines(lines, NoStats, AddStat) == SkuStats(SumQuantity(lines), |lines|)
  {
    if |lines| > 0 {
      StatsCounts(lines[..|lines| - 1]);
    }
  }

  /** The quantity of SKU `sku` among some lines; 0 when none carries it. */
  function QuantityIn(data: seq<Order>, sku: string): int {
    SumQuantity(LinesWith(data, SkuOf, sku))
  }

  /** `r` holds, for each distinct SKU of `data` in first-appearance order,
      its quantity and its number of lines, and nothing else. */
  ghost predicate StatsOf(r: Record<SkuStats>, data: seq<Order>) {
    && r.keys == DistinctKeys(data, SkuOf)
    && (forall k :: k in r.entries <==> k in r.keys)
    && (forall k :: k in r.entries ==>
          r.entries[k] == SkuStats(QuantityIn(data, k), |LinesWith(data, SkuOf, k)|))
  }

  /** `processData`: a `reduce` that opens a missing SKU at zero, then adds
      the line's quantity and counts the line. */
  method ProcessData(periodData: seq<Order>) returns (stats: Record<SkuStats>)
    ensures StatsOf(stats, periodData)
  {
    stats := AccumulateBy(periodData, SkuOf, NoStats, AddStat);
    forall k | k in stats.entries
      ensures stats.entries[k] == SkuStats(QuantityIn(periodData, k), |LinesWith(periodData, SkuOf, k)|)
    {
      StatsCounts(LinesWith(periodData, SkuOf, k));
    }
  }

  /** `stats[sku]?.quantity || 0`. */
  function QuantityOr0(stats: Record<SkuStats>, sku: string): int {
    if sku in stats.entries then stats.entries[sku].quantity else 0
  }

  /** Reading a SKU's quantity from the statistics, 0 when it is missing,
      gives its quantity in the period. */
  lemma StatsQuantity(stats: Record<SkuStats>, data: seq<Order>, sku: string)
    requires StatsOf(stats, data)
    ensures QuantityOr0(stats, sku) == QuantityIn(data, sku)
  {
    if sku !in stats.entries {
      LinesWithAbsent(data, SkuOf, sku);
    }
  }

  /** A SKU sold in no line of a period has quantity 0 there. */
  lemma QuantityAbsent(data: seq<Order>, sku: string)
    requires sku !in DistinctKeys(data, SkuOf)
    ensures QuantityIn(data, sku) == 0
  {
    LinesWithAbsent(data, SkuOf, sku);
  }

  // ---------------------------------------------------------------------
  // The comparison chart
  // ---------------------------------------------------------------------

  /** One bar group: the SKU and, under each period's "<label> Quantity"
      key, its quantity there. */
  datatype ProductRow = ProductRow(sku: string, values: map<string, int>)

  function QuantityKey(heading: string): string { heading + " Quantity" }

  /** `{sku, [k1]: q1, [k2]: q2}`: with equal labels the second key
      overwrites the first. */
  function RowOf(sku: string, label1: string, label2: string, q1: int, q2: int): ProductRow {
    ProductRow(sku, map[QuantityKey(label1) := q1][QuantityKey(label2) := q2])
  }

  /** `row[key]`, where every key the chart reads is present. */
  function Value(row: ProductRow, key: string): int {
    if key in row.values then row.values[key] else 0
  }

  /** The score the chart sorts by: the row's second-period value plus its
      first-period value. */
  function RowScore(label1: string, label2: string): ProductRow -> int {
    row => Value(row, QuantityKey(label2)) + Value(row, QuantityKey(label1))
  }

  /** A row holds exactly the two quantity keys; the second period's value
      is its quantity; the first period's value is its own quantity unless
      the labels coincide; and the row scores the two quantities added, or
      twice the second when the labels coincide. */
  lemma RowValues(sku: string, label1: string, label2: string, q1: int, q2: int)
    ensures RowOf(sku, label1, label2, q1, q2).values.Keys == {QuantityKey(label1), QuantityKey(label2)}
    ensures RowOf(sku, label1, label2, q1, q2).values[QuantityKey(label2)] == q2
    ensures label1 != label2 ==> RowOf(sku, label1, label2, q1, q2).values[QuantityKey(label1)] == q1
    ensures RowScore(label1, label2)(RowOf(sku, label1, label2, q1, q2))
            == if label1 == label2 then 2 * q2 else q1 + q2
  {
    if label1 != label2 {
      assert QuantityKey(label1)[..|label1|] == label1;
      assert QuantityKey(label2)[..|label2|] == label2;
      if |label1| == |label2| {
        assert QuantityKey(label1) != QuantityKey(label2);
      } else {
        assert |QuantityKey(label1)| != |QuantityKey(label2)|;
      }
    }
  }

  /** `new Set([...Object.keys(p1), ...Object.keys(p2)])`: the SKUs of the
      first period in order, then those only in the second. */
  function AllSkus(d1: seq<Order>, d2: seq<Order>): seq<string> {
    Dedup(DistinctKeys(d1, SkuOf) + DistinctKeys(d2, SkuOf))
  }

  /** One row per SKU of either period, in `AllSkus` order. */
  function ComparisonRows(d1: seq<Order>, d2: seq<Order>, label1: string, label2: string): seq<ProductRow> {
    var skus := AllSkus(d1, d2);
    seq(|skus|, i requires 0 <= i < |skus| =>
          RowOf(skus[i], label1, label2, QuantityIn(d1, skus[i]), QuantityIn(d2, skus[i])))
  }

  /** The rows sorted by combined quantity, largest first, cut to ten. */
  function ComparisonChart(d1: seq<Order>, d2: seq<Order>, label1: string, label2: string): seq<ProductRow> {
    var sorted := SortBy(ComparisonRows(d1, d2, label1, label2), RowScore(label1, label2));
    sorted[..Min(10, |sorted|)]
  }

  /** The chart the panel draws for a selection. */
  function ProductChartOf(data: seq<Order>, sel: Selection): seq<ProductRow> {
    ComparisonChart(PeriodData(data, sel, First), PeriodData(data, sel, Second),
                    PeriodLabel(sel, First), PeriodLabel(sel, Second))
  }

  /** A SKU is charted as a candidate iff it sells in either period; each
      SKU once; the first period's SKUs come first, in their order. */
  lemma AllSkusSpec(d1: seq<Order>, d2: seq<Order>, sku: string)
    ensures sku in AllSkus(d1, d2) <==> sku in DistinctKeys(d1, SkuOf) || sku in DistinctKeys(d2, SkuOf)
    ensures NoDups(AllSkus(d1, d2))
    ensures |DistinctKeys(d1, SkuOf)| <= |AllSkus(d1, d2)|
    ensures AllSkus(d1, d2)[..|DistinctKeys(d1, SkuOf)|] == DistinctKeys(d1, SkuOf)
  {
    var a := DistinctKeys(d1, SkuOf);
    var b := DistinctKeys(d2, SkuOf);
    assert sku in AllSkus(d1, d2) <==> sku in ToSet(a + b);
    DedupNoDups(a);
    DedupPrefix(a, b);
  }

  /** `Dedup` of a concatenation starts with `Dedup` of its first part. */
  lemma {:induction false} DedupPrefix(a: seq<string>, b: seq<string>)
    ensures |Dedup(a)| <= |Dedup(a + b)|
    ensures Dedup(a + b)[..|Dedup(a)|] == Dedup(a)
  {
    if |b| == 0 {
      assert a + b == a;
    } else {
      var b' := b[..|b| - 1];
      DedupPrefix(a, b');
      assert a + b == (a + b') + [b[|b| - 1]];
      DedupSnoc(a + b', b[|b| - 1]);
    }
  }

  /** The chart has ten rows, or one per SKU when fewer, ordered by
      combined quantity, largest first. */
  lemma ChartShape(d1: seq<Order>, d2: seq<Order>, label1: string, label2: string)
    ensures |ComparisonChart(d1, d2, label1, label2)| == Min(10, |AllSkus(d1, d2)|)
    ensures Descending(ComparisonChart(d1, d2, label1, label2), RowScore(label1, label2))
  {
    SortBySorted(ComparisonRows(d1, d2, label1, label2), RowScore(label1, label2));
  }

  /** The candidate rows are all different: one per SKU. */
  lemma RowsDistinct(d1: seq<Order>, d2: seq<Order>, label1: string, label2: string)
    ensures NoDups(ComparisonRows(d1, d2, label1, label2))
  {
    var rows := ComparisonRows(d1, d2, label1, label2);
    var skus := AllSkus(d1, d2);
    forall i, j | 0 <= i < j < |rows| ensures rows[i] != rows[j] {
      assert rows[i].sku == skus[i] && rows[j].sku == skus[j];
    }
  }

  /** No SKU is charted twice. */
  lemma ChartDistinct(d1: seq<Order>, d2: seq<Order>, label1: string, label2: string)
    ensures forall i, j :: 0 <= i < j < |ComparisonChart(d1, d2, label1, label2)| ==>
              ComparisonChart(d1, d2, label1, label2)[i].sku != ComparisonChart(d1, d2, label1, label2)[j].sku
  {
    var rows := ComparisonRows(d1, d2, label1, label2);
    var sorted := SortBy(rows, RowScore(label1, label2));
    var chart := ComparisonChart(d1, d2, label1, label2);
    RowsDistinct(d1, d2, label1, label2);
    SortByNoDups(rows, RowScore(label1, label2));
    ChartRows(d1, d2, label1, label2);
    forall i, j | 0 <= i < j < |chart| ensures chart[i].sku != chart[j].sku {
      assert chart[i] == sorted[i] && chart[j] == sorted[j];
      assert chart[i] in chart && chart[j] in chart;
    }
  }

  /** Every charted row is the row of a SKU sold in either period, with that
      SKU's quantity in each. */
  lemma ChartRows(d1: seq<Order>, d2: seq<Order>, label1: string, label2: string)
    ensures forall row :: row in ComparisonChart(d1, d2, label1, label2) ==>
              row.sku in AllSkus(d1, d2)
              && row == RowOf(row.sku, label1, label2, QuantityIn(d1, row.sku), QuantityIn(d2, row.sku))
  {
    var rows := ComparisonRows(d1, d2, label1, label2);
    var sorted := SortBy(rows, RowScore(label1, label2));
    SortBySorted(rows, RowScore(label1, label2));
    forall row | row in ComparisonChart(d1, d2, label1, label2)
      ensures row.sku in AllSkus(d1, d2)
              && row == RowOf(row.sku, label1, label2, QuantityIn(d1, row.sku), QuantityIn(d2, row.sku))
    {
      assert row in sorted;
      var i :| 0 <= i < |rows| && rows[i] == row;
    }
  }

  /** No SKU left off the chart has a larger combined quantity than any SKU
      on it. */
  lemma ChartBest(d1: seq<Order>, d2: seq<Order>, label1: string, label2: string, sku: string)
    requires sku in AllSkus(d1, d2)
    requires forall row :: row in ComparisonChart(d1, d2, label1, label2) ==> row.sku != sku
    ensures forall row :: row in ComparisonChart(d1, d2, label1, label2) ==>
              RowScore(label1, label2)(RowOf(sku, label1, label2, QuantityIn(d1, sku), QuantityIn(d2, sku)))
              <= RowScore(label1, label2)(row)
  {
    var rows := ComparisonRows(d1, d2, label1, label2);
    var score := RowScore(label1, label2);
    var sorted := SortBy(rows, score);
    var chart := ComparisonChart(d1, d2, label1, label2);
    SortBySorted(rows, score);
    var skus := AllSkus(d1, d2);
    var i :| 0 <= i < |skus| && skus[i] == sku;
    var x := rows[i];
    assert x in sorted;
    var j :| 0 <= j < |sorted| && sorted[j] == x;
    assert j >= |chart| by {
      assert forall l :: 0 <= l < |chart| ==> sorted[l] == chart[l] && chart[l].sku != sku;
    }
    BelowPrefix(sorted, score, |chart|, j);
  }

  // ---------------------------------------------------------------------
  // Top SKU of a period
  // ---------------------------------------------------------------------

  /** `Object.entries(stats).sort((a, b) => b.quantity - a.quantity)[0]?.[0]
      || 'N/A'`: the first entry of the stable sort, or "N/A" when there is
      none or its SKU is the empty string. */
  function TopSkuOf(data: seq<Order>): string {
    var sorted := SortBy(SkuTotals(data), QuantityOf);
    if |sorted| == 0 || sorted[0].sku == "" then "N/A" else sorted[0].sku
  }

  /** The `i`-th distinct SKU sells at least as much as any SKU, and more
      than every SKU that appears before it. */
  ghost predicate FirstToSellMost(data: seq<Order>, i: nat) {
    var skus := DistinctKeys(data, SkuOf);
    && i < |skus|
    && (forall j :: 0 <= j < |skus| ==> QuantityIn(data, skus[j]) <= QuantityIn(data, skus[i]))
    && (forall j :: 0 <= j < i ==> QuantityIn(data, skus[j]) < QuantityIn(data, skus[i]))
  }

  /** With no lines the top SKU is "N/A"; otherwise it is the SKU, among
      those of largest quantity, that appears first ("N/A" when that SKU is
      the empty string). */
  lemma TopSkuSpec(data: seq<Order>)
    ensures |data| == 0 ==> TopSkuOf(data) == "N/A"
    ensures |data| > 0 ==>
              exists i: nat :: FirstToSellMost(data, i)
                && TopSkuOf(data) == (if DistinctKeys(data, SkuOf)[i] == "" then "N/A" else DistinctKeys(data, SkuOf)[i])
  {
    var skus := DistinctKeys(data, SkuOf);
    if |data| == 0 {
      assert skus == [];
    } else {
      DistinctKeysHas(data, SkuOf, data[0].sku);
      var i := FirstBest(SkuTotals(data), QuantityOf);
      TopSkuFirst(data);
      BestQuantities(data, i);
      assert TopSkuOf(data) == (if skus[i] == "" then "N/A" else skus[i]);
    }
  }

  /** The stable sort puts the first SKU of largest total first. */
  lemma TopSkuFirst(data: seq<Order>)
    requires |SkuTotals(data)| > 0
    ensures TopSkuOf(data) == (if SkuTotals(data)[FirstBest(SkuTotals(data), QuantityOf)].sku == "" then "N/A"
                               else SkuTotals(data)[FirstBest(SkuTotals(data), QuantityOf)].sku)
  {
    SortByHead(SkuTotals(data), QuantityOf);
  }

  /** What `FirstBest` says of the SKU totals, read as SKU quantities. */
  lemma BestQuantities(data: seq<Order>, i: nat)
    requires |SkuTotals(data)| > 0 && i == FirstBest(SkuTotals(data), QuantityOf)
    ensures FirstToSellMost(data, i)
    ensures SkuTotals(data)[i].sku == DistinctKeys(data, SkuOf)[i]
  {
    var all := SkuTotals(data);
    var skus := DistinctKeys(data, SkuOf);
    forall j | 0 <= j < |skus| ensures QuantityIn(data, skus[j]) <= QuantityIn(data, skus[i]) {
      assert QuantityOf(all[j]) <= QuantityOf(all[i]);
    }
    forall j | 0 <= j < i ensures QuantityIn(data, skus[j]) < QuantityIn(data, skus[i]) {
      assert QuantityOf(all[j]) < QuantityOf(all[i]);
    }
  }

  /** The top SKU read from a period's statistics. */
  method TopSku(stats: Record<SkuStats>, ghost data: seq<Order>) returns (top: string)
    requires StatsOf(stats, data)
    ensures top == TopSkuOf(data)
  {
    var entries := seq(|stats.keys|, i requires 0 <= i < |stats.keys| =>
                         SkuTotal(stats.keys[i], stats.entries[stats.keys[i]].quantity));
    assert entries == SkuTotals(data);
    var sorted := SortBy(entries, QuantityOf);
    top := if |sorted| == 0 || sorted[0].sku == "" then "N/A" else sorted[0].sku;
  }

  // ---------------------------------------------------------------------
  // The panel
  // ---------------------------------------------------------------------

  /** `ProductPerformance`: slices the two periods, gathers each period's
      statistics, builds, sorts and cuts the chart rows, and picks each
      period's top SKU. */
  method ProductPanel(data: seq<Order>, sel: Selection) returns (chart: seq<ProductRow>, top1: string, top2: string)
    ensures chart == ProductChartOf(data, sel)
    ensures top1 == TopSkuOf(PeriodData(data, sel, First))
    ensures top2 == TopSkuOf(PeriodData(data, sel, Second))
  {
    var period1Data := PeriodData(data, sel, First);
    var period2Data := PeriodData(data, sel, Second);
    var period1Label := PeriodLabel(sel, First);
    var period2Label := PeriodLabel(sel, Second);
    var period1Stats := ProcessData(period1Data);
    var period2Stats := ProcessData(period2Data);
    var allSkus := Dedup(period1Stats.keys + period2Stats.keys);
    var rows := seq(|allSkus|, i requires 0 <= i < |allSkus| =>
                      RowOf(allSkus[i], period1Label, period2Label,
                            QuantityOr0(period1Stats, allSkus[i]), QuantityOr0(period2Stats, allSkus[i])));
    forall i | 0 <= i < |allSkus|
      ensures rows[i] == ComparisonRows(period1Data, period2Data, period1Label, period2Label)[i]
    {
      StatsQuantity(period1Stats, period1Data, allSkus[i]);
      StatsQuantity(period2Stats, period2Data, allSkus[i]);
    }
    assert rows == ComparisonRows(period1Data, period2Data, period1Label, period2Label);
    var sorted := SortBy(rows, RowScore(period1Label, period2Label));
    chart := sorted[..Min(10, |sorted|)];
    top1 := TopSku(period1Stats, period1Data);
    top2 := TopSku(period2Stats, period2Data);
  }
}
