/** The sales analysis behind the sales chart: its own SKU pack-size rule,
    packaging of the orders, lines filed by month and the three-month
    sales forecast built from the latest month's lines. */
module SalesAnalysis {
  import opened Common
  import opened Text
  import opened Dates
  import Analysis

  // ---------------------------------------------------------------------
  // SKU pack size
  // ---------------------------------------------------------------------

  /** A `_`-piece that marks a sachet or half product. */
  predicate KeptPart(p: string) {
    Includes(p, "sachet") || p == "half"
  }

  /** `parts.some(...)` over the sachet and half test. */
  predicate AnyKeptPart(parts: seq<string>) {
    exists i :: 0 <= i < |parts| && KeptPart(parts[i])
  }

  /** `processSku`: the quantity scaled by the pack size the SKU names.
      Only two shapes scale: `base_a_b` with both `a` and `b` numbers, and
      `base_a` with `a` a number; `Number("")` is 0, so an empty piece
      counts as the number zero. */
  function ProcessSku(sku: string, quantity: int): int {
    ProcessParts(Split(sku, "_"), quantity)
  }

  /** The rule of `processSku` on the `_`-pieces of the SKU. */
  function ProcessParts(parts: seq<string>, quantity: int): int {
    if AnyKeptPart(parts) then quantity
    else match PackSize(parts)
      case Some(n) => quantity * n
      case None => quantity
  }

  /** The pack size the `_`-pieces name, when they name one: the sum of
      the two numbers after the base, or the one number after it. */
  function PackSize(parts: seq<string>): Option<int> {
    if |parts| == 3 && ToNumber(parts[1]).Some? && ToNumber(parts[2]).Some? then
      Some(ToNumber(parts[1]).value + ToNumber(parts[2]).value)
    else if |parts| == 2 && ToNumber(parts[1]).Some? then
      ToNumber(parts[1])
    else None
  }

  /** A SKU without `_` keeps its quantity. */
  lemma ProcessSkuPlain(sku: string, quantity: int)
    requires '_' !in sku
    ensures ProcessSku(sku, quantity) == quantity
  {
    SplitSingle(sku, '_');
  }

  /** A sachet or half piece anywhere keeps the quantity, whatever follows. */
  lemma ProcessSkuKept(base: string, rest: string, quantity: int)
    requires '_' !in base && KeptPart(base)
    ensures ProcessSku(base + "_" + rest, quantity) == quantity
  {
    SplitAt(base, '_', rest);
    assert Split(base + "_" + rest, "_")[0] == base;
  }

  /** Digits are neither a sachet nor a half piece. */
  lemma DigitsNotKept(ds: string)
    requires |ds| > 0 && AllDigits(ds)
    ensures !KeptPart(ds)
  {
    DigitsFree(ds, 's');
    NotIncludes(ds, "sachet");
    assert IsDigit(ds[0]);
  }

  /** `base_n` is `n` packs of the base. */
  lemma ProcessSkuPair(base: string, n: nat, quantity: int)
    requires '_' !in base && !KeptPart(base)
    ensures ProcessSku(base + "_" + NatToString(n), quantity) == quantity * n
  {
    var ds := NatToString(n);
    DigitsFree(ds, '_');
    SplitSingle(ds, '_');
    SplitAt(base, '_', ds);
    var parts := Split(base + "_" + ds, "_");
    assert parts == [base, ds];
    DigitsNotKept(ds);
    assert !AnyKeptPart(parts) by {
      forall i | 0 <= i < |parts| ensures !KeptPart(parts[i]) {
      }
    }
    ToNumberNat(n);
  }

  /** `base_a_b` is `a + b` packs of the base. */
  lemma ProcessSkuTriple(base: string, a: nat, b: nat, quantity: int)
    requires '_' !in base && !KeptPart(base)
    ensures ProcessSku(base + "_" + NatToString(a) + "_" + NatToString(b), quantity) == quantity * (a + b)
  {
    var da, db := NatToString(a), NatToString(b);
    var sku := base + "_" + da + "_" + db;
    SplitThree(base, da, db);
    DigitsNotKept(da);
    DigitsNotKept(db);
    ToNumberNat(a);
    ToNumberNat(b);
    ProcessPartsThree(base, da, db, a, b, quantity);
  }

  /** Three pieces, none kept, both later ones numbers: their sum scales. */
  lemma ProcessPartsThree(p0: string, p1: string, p2: string, a: int, b: int, quantity: int)
    requires !KeptPart(p0) && !KeptPart(p1) && !KeptPart(p2)
    requires ToNumber(p1) == Some(a) && ToNumber(p2) == Some(b)
    ensures ProcessParts([p0, p1, p2], quantity) == quantity * (a + b)
  {
    var parts := [p0, p1, p2];
    assert !AnyKeptPart(parts) by {
      forall i | 0 <= i < |parts| ensures !KeptPart(parts[i]) {
      }
    }
    assert PackSize(parts) == Some(a + b);
  }

  /** Three pieces free of `_` joined by `_` split back into themselves. */
  lemma SplitThree(a: string, b: string, c: string)
    requires AllDigits(b) && AllDigits(c) && '_' !in a
    ensures Split(a + "_" + b + "_" + c, "_") == [a, b, c]
  {
    var bc := b + "_" + c;
    assert Split(bc, "_") == [b, c] by {
      DigitsFree(b, '_');
      DigitsFree(c, '_');
      SplitSingle(c, '_');
      SplitAt(b, '_', c);
    }
    assert a + "_" + b + "_" + c == a + "_" + bc;
    SplitAt(a, '_', bc);
  }

  /** Four pieces or more keep the quantity, even when all are numbers. */
  lemma ProcessSkuLong(sku: string, quantity: int)
    requires |Split(sku, "_")| >= 4
    ensures ProcessSku(sku, quantity) == quantity
  {
  }

  /** `X_0` names a pack of zero: this rule drops the line to nothing,
      while the prediction view's rule, which only scales by a positive
      pack size, leaves it as it is. */
  lemma ZeroPackDiverges(quantity: int)
    ensures ProcessSku("X_0", quantity) == 0
    ensures Analysis.SkuQuantity("X_0", quantity) == Analysis.Normalised("X_0", quantity)
  {
    assert NatToString(0) == "0";
    assert "X" + "_" + NatToString(0) == "X_0";
    NotIncludes("X", "sachet");
    ProcessSkuPair("X", 0, quantity);
    PairMultiplier("X", 0);
  }

  /** A SKU `base_n` with a positive pack size and no sachet or half in it
      is scaled alike by both rules. */
  lemma PairAgrees(base: string, n: nat, quantity: int)
    requires '_' !in base && n > 0
    requires !Includes(base + "_" + NatToString(n), "sachet")
    requires !Includes(base + "_" + NatToString(n), "half")
    ensures ProcessSku(base + "_" + NatToString(n), quantity)
            == Analysis.SkuQuantity(base + "_" + NatToString(n), quantity).totalQuantity
  {
    var sku := base + "_" + NatToString(n);
    BaseNotKept(base, NatToString(n));
    ProcessSkuPair(base, n, quantity);
    PairMultiplier(base, n);
    ScaledBy(sku, n, quantity);
  }

  /** A SKU the prediction view does not keep is scaled by its multiplier. */
  lemma ScaledBy(sku: string, n: int, quantity: int)
    requires !Includes(sku, "sachet") && !Includes(sku, "half") && '_' in sku
    requires Analysis.Multiplier(sku) == n && n > 0
    ensures Analysis.SkuQuantity(sku, quantity).totalQuantity == quantity * n
  {
  }

  /** A base whose SKU mentions neither sachet nor half is not kept. */
  lemma BaseNotKept(base: string, rest: string)
    requires !Includes(base + "_" + rest, "sachet") && !Includes(base + "_" + rest, "half")
    ensures !KeptPart(base)
  {
    assert base + "_" + rest == base + ("_" + rest);
    if Includes(base, "sachet") {
      IncludesPrefix(base, "_" + rest, "sachet");
    }
  }

  /** A piece of a prefix is a piece of the whole. */
  lemma IncludesPrefix(a: string, b: string, sub: string)
    requires Includes(a, sub)
    ensures Includes(a + b, sub)
  {
    var i :| 0 <= i && OccursAt(a, sub, i);
    assert (a + b)[i..i + |sub|] == a[i..i + |sub|];
    assert OccursAt(a + b, sub, i);
  }

  lemma PairMultiplier(base: string, n: nat)
    requires '_' !in base
    ensures Analysis.Multiplier(base + "_" + NatToString(n)) == n
    ensures '_' in base + "_" + NatToString(n)
  {
    var ds := NatToString(n);
    assert (base + "_" + ds)[|base|] == '_';
    DigitsFree(ds, '_');
    SplitSingle(ds, '_');
    SplitAt(base, '_', ds);
    assert Split(base + "_" + ds, "_")[1..] == [ds];
    assert Analysis.PartsSum([ds]) == Analysis.ParsedOrZero(ds) by {
      assert [ds][..0] == [];
    }
    assert IntToString(n) == ds;
    ParseIntIntToString(n);
  }

  // ---------------------------------------------------------------------
  // Packaging
  // ---------------------------------------------------------------------

  /** The key of `OrderSizes` an order falls under. */
  datatype Size = Small | Medium | Large

  /** `calculateOrderSize`: any bottle or nine items or more are large,
      five to eight items medium, fewer small. */
  function CalculateOrderSize(totalItems: int, hasBottle: bool): (s: Size)
    ensures s == Large <==> hasBottle || totalItems >= 9
    ensures s == Medium <==> !hasBottle && 5 <= totalItems < 9
    ensures s == Small <==> !hasBottle && totalItems < 5
  {
    if hasBottle || totalItems >= 9 then Large
    else if totalItems >= 5 then Medium
    else Small
  }

  /** On the same totals and bottle flag, the size and the prediction
      view's box agree: large is the twelve-month box, medium the
      six-month box, small the envelope. */
  lemma SizeMatchesBox(items: seq<Order>)
    ensures var s := CalculateOrderSize(SumQuantity(items), Analysis.HasBottle(items));
            var b := Analysis.BoxFor(items);
            (s == Large <==> b == Analysis.TwelveMonthBox)
            && (s == Medium <==> b == Analysis.SixMonthBox)
            && (s == Small <==> b == Analysis.Envelope)
  {
  }

  /** The running total and bottle flag kept per order number. */
  datatype OrderTotal = OrderTotal(total: int, hasBottle: bool)

  /** A bottle line, by a substring test on the raw SKU. */
  predicate IsBottleLine(o: Order) {
    Includes(o.sku, "nb-btl")
  }

  /** The update the first `forEach` makes for one line. */
  function AddLine(acc: OrderTotal, o: Order): OrderTotal {
    OrderTotal(acc.total + ProcessSku(o.sku, o.quantity), acc.hasBottle || IsBottleLine(o))
  }

  /** The pack-size-scaled quantities of some lines, added up. */
  function ProcessedTotal(lines: seq<Order>): int {
    if |lines| == 0 then 0
    else ProcessedTotal(lines[..|lines| - 1]) + ProcessSku(lines[|lines| - 1].sku, lines[|lines| - 1].quantity)
  }

  /** Some line is a bottle line. */
  predicate AnyBottle(lines: seq<Order>) {
    exists i :: 0 <= i < |lines| && IsBottleLine(lines[i])
  }

  /** Folding `AddLine` over an order's lines gives their scaled total and
      whether any of them is a bottle. */
  lemma {:induction false} FoldAddLine(lines: seq<Order>)
    ensures FoldLines(lines, OrderTotal(0, false), AddLine) == OrderTotal(ProcessedTotal(lines), AnyBottle(lines))
  {
    if |lines| > 0 {
      var p := lines[..|lines| - 1];
      FoldAddLine(p);
      assert AnyBottle(lines) <==> AnyBottle(p) || IsBottleLine(lines[|lines| - 1]) by {
        assert forall i :: 0 <= i < |p| ==> p[i] == lines[i];
      }
    }
  }

  /** The size of the order made of `lines`. */
  function SizeOf(lines: seq<Order>): Size {
    CalculateOrderSize(ProcessedTotal(lines), AnyBottle(lines))
  }

  /** How many of the orders `ks` of `data` are of size `s`. */
  function CountSizes(data: seq<Order>, ks: seq<string>, s: Size): nat {
    if |ks| == 0 then 0
    else
      CountSizes(data, ks[..|ks| - 1], s)
        + (if SizeOf(LinesWith(data, OrderNumberOf, ks[|ks| - 1])) == s then 1 else 0)
  }

  /** Every order has exactly one size. */
  lemma {:induction false} CountSizesSum(data: seq<Order>, ks: seq<string>)
    ensures CountSizes(data, ks, Small) + CountSizes(data, ks, Medium) + CountSizes(data, ks, Large) == |ks|
  {
    if |ks| > 0 {
      CountSizesSum(data, ks[..|ks| - 1]);
    }
  }

  /** The boxes and sizes reported by this packaging. */
  datatype SalesPackaging = SalesPackaging(envelopes: nat, sixMonthBoxes: nat, twelveMonthBoxes: nat,
                                           orderSizes: Analysis.OrderSizes)

  /** The packaging of some lines: the distinct orders counted by size,
      twice over (as boxes and as sizes). */
  function SalesPackagingOf(data: seq<Order>): SalesPackaging {
    var ks := DistinctKeys(data, OrderNumberOf);
    var small, medium, large := CountSizes(data, ks, Small), CountSizes(data, ks, Medium), CountSizes(data, ks, Large);
    SalesPackaging(small, medium, large, Analysis.OrderSizes(small, medium, large))
  }

  /** The number of orders a packaging provides for. */
  function Boxes(p: SalesPackaging): nat {
    p.envelopes + p.sixMonthBoxes + p.twelveMonthBoxes
  }

  /** Each distinct order gets exactly one box. */
  lemma SalesPackagingTotal(data: seq<Order>)
    ensures Boxes(SalesPackagingOf(data)) == CountDistinct(data, OrderNumberOf)
  {
    CountSizesSum(data, DistinctKeys(data, OrderNumberOf));
  }

  /** `calculatePackaging`: no lines give all zeros; otherwise the lines
      are totalled per order number, and each order is sized once and
      counted both under its size and under its box. */
  method CalculatePackaging(orders: seq<Order>) returns (p: SalesPackaging)
    ensures p == SalesPackagingOf(orders)
    ensures Boxes(p) == CountDistinct(orders, OrderNumberOf)
    ensures p.orderSizes == Analysis.OrderSizes(p.envelopes, p.sixMonthBoxes, p.twelveMonthBoxes)
    ensures |orders| == 0 ==> p == SalesPackaging(0, 0, 0, Analysis.OrderSizes(0, 0, 0))
  {
    if |orders| == 0 {
      return SalesPackaging(0, 0, 0, Analysis.OrderSizes(0, 0, 0));
    }
    var orderTotals := AccumulateBy(orders, OrderNumberOf, OrderTotal(0, false), AddLine);
    var ks := orderTotals.keys;
    var small, medium, large := 0, 0, 0;
    var envelopes, sixMonthBoxes, twelveMonthBoxes := 0, 0, 0;
    for j := 0 to |ks|
      invariant small == envelopes == CountSizes(orders, ks[..j], Small)
      invariant medium == sixMonthBoxes == CountSizes(orders, ks[..j], Medium)
      invariant large == twelveMonthBoxes == CountSizes(orders, ks[..j], Large)
    {
      assert ks[..j + 1][..j] == ks[..j];
      assert ks[j] in orderTotals.entries;
      var current := orderTotals.entries[ks[j]];
      FoldAddLine(LinesWith(orders, OrderNumberOf, ks[j]));
      var size := CalculateOrderSize(current.total, current.hasBottle);
      if size == Small {
        small := small + 1;
      } else if size == Medium {
        medium := medium + 1;
      } else {
        large := large + 1;
      }
      if size == Large {
        twelveMonthBoxes := twelveMonthBoxes + 1;
      } else if size == Medium {
        sixMonthBoxes := sixMonthBoxes + 1;
      } else {
        envelopes := envelopes + 1;
      }
    }
    assert ks[..|ks|] == ks;
    p := SalesPackaging(envelopes, sixMonthBoxes, twelveMonthBoxes, Analysis.OrderSizes(small, medium, large));
    SalesPackagingTotal(orders);
  }

  // ---------------------------------------------------------------------
  // Lines by month
  // ---------------------------------------------------------------------

  /** `groupByMonth`: each line pushed onto the list of the month of its
      date (`<year>-<MM>`, or `NaN-NaN` for a date that does not parse);
      no lines give the empty record. */
  method GroupByMonth(orders: seq<Order>) returns (r: Record<seq<Order>>)
    ensures GroupedBy(r, orders, Analysis.OrderMonth)
    ensures |orders| == 0 ==> r == Record([], map[])
  {
    if |orders| == 0 {
      return Record([], map[]);
    }
    r := GroupBy(orders, Analysis.OrderMonth);
  }

  /** Grouping by month is a partition: every line sits in the list of its
      own month, every listed line is a line of that month, and no
      quantity is lost or counted twice. */
  lemma GroupByMonthPartition(r: Record<seq<Order>>, orders: seq<Order>)
    requires GroupedBy(r, orders, Analysis.OrderMonth)
    ensures forall i :: 0 <= i < |orders| ==>
              Analysis.OrderMonth(orders[i]) in r.entries
              && orders[i] in r.entries[Analysis.OrderMonth(orders[i])]
    ensures forall k, o :: k in r.entries && o in r.entries[k] ==>
              o in orders && Analysis.OrderMonth(o) == k
    ensures SumOverKeys(orders, Analysis.OrderMonth, r.keys) == SumQuantity(orders)
  {
    forall i | 0 <= i < |orders|
      ensures Analysis.OrderMonth(orders[i]) in r.entries
      ensures orders[i] in r.entries[Analysis.OrderMonth(orders[i])]
    {
      DistinctKeysHas(orders, Analysis.OrderMonth, Analysis.OrderMonth(orders[i]));
      LinesWithHas(orders, Analysis.OrderMonth, i);
    }
    forall k | k in r.entries
      ensures forall o :: o in r.entries[k] ==> o in orders && Analysis.OrderMonth(o) == k
    {
      LinesWithKey(orders, Analysis.OrderMonth, k);
    }
    SumOverDistinctKeys(orders, Analysis.OrderMonth);
  }

  /** Looking a month up in the grouped record (`|| []` when absent) gives
      that month's lines. */
  lemma MonthLinesOf(r: Record<seq<Order>>, data: seq<Order>, k: string)
    requires GroupedBy(r, data, Analysis.OrderMonth)
    ensures Analysis.MonthLines(r, k) == LinesWith(data, Analysis.OrderMonth, k)
  {
    if k !in r.entries {
      LinesWithAbsent(data, Analysis.OrderMonth, k);
    }
  }

  // ---------------------------------------------------------------------
  // Sales forecast
  // ---------------------------------------------------------------------

  /** The months of some lines, in the default (string) sort order. */
  function Months(data: seq<Order>): seq<string> {
    SortStrings(DistinctKeys(data, Analysis.OrderMonth))
  }

  /** Some lines always fall in some month. */
  lemma MonthsNonEmpty(data: seq<Order>)
    requires |data| > 0
    ensures |Months(data)| > 0
  {
    DistinctKeysHas(data, Analysis.OrderMonth, Analysis.OrderMonth(data[0]));
  }

  /** The latest month of some lines. */
  function LastMonthOf(data: seq<Order>): string
    requires |data| > 0
  {
    MonthsNonEmpty(data);
    Months(data)[|Months(data)| - 1]
  }

  /** The lines of the latest month, in input order. */
  function LastLines(data: seq<Order>): seq<Order>
    requires |data| > 0
  {
    LinesWith(data, Analysis.OrderMonth, LastMonthOf(data))
  }

  /** A SKU's quantity summed over the months `ms` (each month's lines of
      that SKU, none for a month without them). */
  function SkuTotalAcross(data: seq<Order>, ms: seq<string>, sku: string): int {
    if |ms| == 0 then 0
    else SkuTotalAcross(data, ms[..|ms| - 1], sku)
           + SumQuantity(LinesWith(LinesWith(data, Analysis.OrderMonth, ms[|ms| - 1]), SkuOf, sku))
  }

  /** A SKU's mean monthly quantity over every month of the lines. */
  function SkuMean(data: seq<Order>, sku: string): real {
    var ms := Months(data);
    if |ms| == 0 then 0.0 else SkuTotalAcross(data, ms, sku) as real / |ms| as real
  }

  /** `skuAverages.get(sku) || order.quantity`: a mean of zero falls back
      to the line's own quantity. */
  function BaseQuantity(data: seq<Order>, o: Order): real {
    if SkuMean(data, o.sku) == 0.0 then o.quantity as real else SkuMean(data, o.sku)
  }

  /** The forecast quantity of a line `i` months ahead at `growthRate`
      percent a month, rounded. */
  function SaleQuantity(data: seq<Order>, o: Order, growthRate: real, i: nat): int {
    Grown(BaseQuantity(data, o), growthRate, i)
  }

  /** `Math.round(base * Math.pow(1 + growthRate / 100, i))`. */
  function Grown(base: real, growthRate: real, i: nat): int {
    Analysis.Round(base * Analysis.Power(1.0 + growthRate / 100.0, i))
  }

  /** Each line's forecast quantity `i` months ahead. */
  function SaleQuantities(data: seq<Order>, lines: seq<Order>, growthRate: real, i: nat): seq<int> {
    seq(|lines|, k requires 0 <= k < |lines| => SaleQuantity(data, lines[k], growthRate, i))
  }

  /** The forecast line for the `k`-th line of `lines`, of quantity
      `qs[k]`, in month `monthKey`. */
  function SaleOrder(lines: seq<Order>, qs: seq<int>, monthKey: string, k: nat): Order
    requires k < |lines| && k < |qs|
  {
    Order(Analysis.PredictionId(monthKey, k), lines[k].sku, qs[k], monthKey + "-01")
  }

  /** The forecast lines of month `monthKey` for the first `n` of `lines`,
      whose quantities are `qs`: one per line, in order, leaving out those
      whose quantity is not positive. */
  function MonthSales(lines: seq<Order>, qs: seq<int>, monthKey: string, n: nat): seq<Order>
    requires n <= |lines| && n <= |qs|
  {
    if n == 0 then []
    else
      MonthSales(lines, qs, monthKey, n - 1)
        + (if qs[n - 1] > 0 then [SaleOrder(lines, qs, monthKey, n - 1)] else [])
  }

  /** The forecast lines `i` months after the latest month. */
  function Sales(data: seq<Order>, growthRate: real, i: nat): seq<Order>
    requires |data| > 0
  {
    var lines := LastLines(data);
    MonthSales(lines, SaleQuantities(data, lines, growthRate, i),
               Analysis.NextMonthKey(LastMonthOf(data), i), |lines|)
  }

  /** The forecast lines of the first `k` months after the latest month. */
  function SalesUpTo(data: seq<Order>, growthRate: real, k: nat): seq<Order>
    requires |data| > 0
  {
    if k == 0 then [] else SalesUpTo(data, growthRate, k - 1) + Sales(data, growthRate, k)
  }

  /** The three-month sales forecast of some lines; none without lines. */
  function SalesForecast(data: seq<Order>, growthRate: real): seq<Order> {
    if |data| == 0 then [] else SalesUpTo(data, growthRate, 3)
  }

  /** `predictFutureSales`: the lines grouped by month, each SKU's mean
      monthly quantity, then for each of the next three months one forecast
      line per line of the latest month whose quantity comes out positive. */
  method PredictFutureSales(historicalData: seq<Order>, growthRate: real) returns (predictions: seq<Order>)
    ensures predictions == SalesForecast(historicalData, growthRate)
    ensures |historicalData| == 0 ==> predictions == []
  {
    if |historicalData| == 0 {
      return [];
    }
    var monthlyData := GroupByMonth(historicalData);
    var months := SortStrings(monthlyData.keys);
    LatestMonthOf(monthlyData, historicalData);
    var lastMonth := months[|months| - 1];
    var lastMonthData := monthlyData.entries[lastMonth];
    var uniqueSkus := DistinctKeys(historicalData, SkuOf);
    var skuAverages := SkuAverages(monthlyData, months, uniqueSkus, historicalData);
    LastLinesAveraged(skuAverages, historicalData);
    predictions := PredictMonths(lastMonth, lastMonthData, skuAverages, growthRate, historicalData);
  }

  /** In the lines grouped by month, the last of the sorted months is the
      latest month and its list holds the latest month's lines. */
  lemma LatestMonthOf(monthlyData: Record<seq<Order>>, data: seq<Order>)
    requires |data| > 0 && GroupedBy(monthlyData, data, Analysis.OrderMonth)
    ensures var months := SortStrings(monthlyData.keys);
            && months == Months(data) && |months| > 0
            && months[|months| - 1] == LastMonthOf(data)
            && months[|months| - 1] in monthlyData.entries
            && monthlyData.entries[months[|months| - 1]] == LastLines(data)
  {
    MonthsNonEmpty(data);
    var months := Months(data);
    SortStringsSameElements(monthlyData.keys, months[|months| - 1]);
  }

  /** The loop over the next three months, each month's forecast lines
      appended after the previous month's. */
  method PredictMonths(lastMonth: string, lastMonthData: seq<Order>, skuAverages: Record<real>,
                       growthRate: real, ghost data: seq<Order>)
    returns (predictions: seq<Order>)
    requires |data| > 0 && lastMonth == LastMonthOf(data) && lastMonthData == LastLines(data)
    requires forall o :: o in lastMonthData ==> Averaged(skuAverages, data, o.sku)
    ensures predictions == SalesUpTo(data, growthRate, 3)
  {
    predictions := [];
    for i := 1 to 4
      invariant predictions == SalesUpTo(data, growthRate, i - 1)
    {
      var monthKey := Analysis.NextMonthKey(lastMonth, i);
      var monthSales := PredictMonthSales(lastMonthData, skuAverages, growthRate, i, monthKey, data);
      predictions := predictions + monthSales;
    }
  }

  /** Every SKU of the latest month is among the distinct SKUs. */
  lemma LastLinesListed(data: seq<Order>)
    requires |data| > 0
    ensures forall o :: o in LastLines(data) ==> o.sku in DistinctKeys(data, SkuOf)
  {
    LinesWithKey(data, Analysis.OrderMonth, LastMonthOf(data));
    forall o | o in LastLines(data) ensures o.sku in DistinctKeys(data, SkuOf) {
      var i :| 0 <= i < |data| && data[i] == o;
      DistinctKeysHas(data, SkuOf, o.sku);
    }
  }

  /** Every SKU of the latest month has its mean stored. */
  lemma LastLinesAveraged(skuAverages: Record<real>, data: seq<Order>)
    requires |data| > 0
    requires Tabulates(skuAverages, DistinctKeys(data, SkuOf), MeanOf(data))
    ensures forall o :: o in LastLines(data) ==> Averaged(skuAverages, data, o.sku)
  {
    LastLinesListed(data);
  }

  /** The mean of each SKU as a function, for tabulation. */
  function MeanOf(data: seq<Order>): string -> real {
    sku => SkuMean(data, sku)
  }

  /** The `forEach` over the distinct SKUs that stores each one's mean
      monthly quantity. */
  method SkuAverages(monthlyData: Record<seq<Order>>, months: seq<string>, uniqueSkus: seq<string>,
                     ghost data: seq<Order>)
    returns (skuAverages: Record<real>)
    requires GroupedBy(monthlyData, data, Analysis.OrderMonth)
    requires months == Months(data) && |months| > 0
    ensures Tabulates(skuAverages, uniqueSkus, MeanOf(data))
  {
    skuAverages := Record([], map[]);
    for j := 0 to |uniqueSkus|
      invariant Tabulates(skuAverages, uniqueSkus[..j], MeanOf(data))
    {
      var sku := uniqueSkus[j];
      var total := MonthlyTotal(monthlyData, months, sku, data);
      var average := total as real / |months| as real;
      TabulatesStep(skuAverages, uniqueSkus, j, MeanOf(data));
      skuAverages := Put(skuAverages, sku, average);
    }
    assert uniqueSkus[..|uniqueSkus|] == uniqueSkus;
  }

  /** `months.map(...)` of a SKU's monthly quantities, then their sum. */
  method MonthlyTotal(monthlyData: Record<seq<Order>>, months: seq<string>, sku: string,
                      ghost data: seq<Order>)
    returns (total: int)
    requires GroupedBy(monthlyData, data, Analysis.OrderMonth)
    ensures total == SkuTotalAcross(data, months, sku)
  {
    total := 0;
    for m := 0 to |months|
      invariant total == SkuTotalAcross(data, months[..m], sku)
    {
      assert months[..m + 1][..m] == months[..m];
      MonthLinesOf(monthlyData, data, months[m]);
      total := total + SumQuantity(LinesWith(Analysis.MonthLines(monthlyData, months[m]), SkuOf, sku));
    }
    assert months[..|months|] == months;
  }

  /** The `forEach` over the latest month's lines for month `i`: a forecast
      line, numbered by the line's position, for each positive quantity. */
  method PredictMonthSales(lastMonthData: seq<Order>, skuAverages: Record<real>,
                           growthRate: real, i: nat, monthKey: string, ghost data: seq<Order>)
    returns (sales: seq<Order>)
    requires forall o :: o in lastMonthData ==> Averaged(skuAverages, data, o.sku)
    ensures sales == MonthSales(lastMonthData, SaleQuantities(data, lastMonthData, growthRate, i),
                                monthKey, |lastMonthData|)
  {
    ghost var qs := SaleQuantities(data, lastMonthData, growthRate, i);
    sales := [];
    for index := 0 to |lastMonthData|
      invariant sales == MonthSales(lastMonthData, qs, monthKey, index)
    {
      var order := lastMonthData[index];
      var avgQuantity := AverageOr(skuAverages, order);
      AverageLookup(skuAverages, data, order);
      var predictedQuantity := Grown(avgQuantity, growthRate, i);
      assert predictedQuantity == qs[index];
      if predictedQuantity > 0 {
        sales := sales + [Order(Analysis.PredictionId(monthKey, index), order.sku, predictedQuantity,
                                monthKey + "-01")];
      }
    }
  }

  /** The mean of `sku` is stored in `skuAverages`. */
  ghost predicate Averaged(skuAverages: Record<real>, data: seq<Order>, sku: string) {
    sku in skuAverages.entries && skuAverages.entries[sku] == SkuMean(data, sku)
  }

  /** `skuAverages.get(order.sku) || order.quantity`: the stored mean unless
      it is absent or zero, else the line's own quantity. */
  function AverageOr(skuAverages: Record<real>, o: Order): real {
    if o.sku in skuAverages.entries && skuAverages.entries[o.sku] != 0.0
    then skuAverages.entries[o.sku] else o.quantity as real
  }

  /** With the line's mean stored, the lookup yields its base quantity. */
  lemma AverageLookup(skuAverages: Record<real>, data: seq<Order>, o: Order)
    requires Averaged(skuAverages, data, o.sku)
    ensures AverageOr(skuAverages, o) == BaseQuantity(data, o)
  {
  }

  /** Every forecast line of a month is the forecast of one of the lines,
      numbered by that line's position, with a positive quantity. */
  lemma {:induction false} MonthSalesFrom(lines: seq<Order>, qs: seq<int>, monthKey: string, n: nat, j: nat)
    requires n <= |lines| && n <= |qs| && j < |MonthSales(lines, qs, monthKey, n)|
    ensures exists k :: 0 <= k < n && qs[k] > 0
              && MonthSales(lines, qs, monthKey, n)[j] == SaleOrder(lines, qs, monthKey, k)
  {
    var prev := MonthSales(lines, qs, monthKey, n - 1);
    if j < |prev| {
      MonthSalesFrom(lines, qs, monthKey, n - 1, j);
      var k :| 0 <= k < n - 1 && qs[k] > 0 && prev[j] == SaleOrder(lines, qs, monthKey, k);
      assert MonthSales(lines, qs, monthKey, n)[j] == prev[j];
    }
  }

  /** Every line whose forecast quantity is positive has its forecast line. */
  lemma {:induction false} MonthSalesHas(lines: seq<Order>, qs: seq<int>, monthKey: string, n: nat, k: nat)
    requires k < n <= |lines| && n <= |qs| && qs[k] > 0
    ensures SaleOrder(lines, qs, monthKey, k) in MonthSales(lines, qs, monthKey, n)
  {
    if k < n - 1 {
      MonthSalesHas(lines, qs, monthKey, n - 1, k);
    }
  }

  /** A month has at most one forecast line per line. */
  lemma {:induction false} MonthSalesLength(lines: seq<Order>, qs: seq<int>, monthKey: string, n: nat)
    requires n <= |lines| && n <= |qs|
    ensures |MonthSales(lines, qs, monthKey, n)| <= n
  {
    if n > 0 {
      MonthSalesLength(lines, qs, monthKey, n - 1);
    }
  }

  /** The forecast line of the `k`-th line of the latest month, `i`
      months ahead: numbered `k`, of that line's SKU and forecast quantity,
      dated the first of the month. */
  function Forecast(data: seq<Order>, growthRate: real, i: nat, k: nat): Order
    requires |data| > 0 && k < |LastLines(data)|
  {
    var key := Analysis.NextMonthKey(LastMonthOf(data), i);
    Order(Analysis.PredictionId(key, k), LastLines(data)[k].sku,
          SaleQuantity(data, LastLines(data)[k], growthRate, i), key + "-01")
  }

  /** Every forecast line of a month is the forecast of a line of the
      latest month whose forecast quantity is positive. */
  lemma SalesFrom(data: seq<Order>, growthRate: real, i: nat, j: nat)
    requires |data| > 0 && j < |Sales(data, growthRate, i)|
    ensures exists k :: 0 <= k < |LastLines(data)|
              && SaleQuantity(data, LastLines(data)[k], growthRate, i) > 0
              && Sales(data, growthRate, i)[j] == Forecast(data, growthRate, i, k)
  {
    var lines, key := LastLines(data), Analysis.NextMonthKey(LastMonthOf(data), i);
    var qs := SaleQuantities(data, lines, growthRate, i);
    MonthSalesFrom(lines, qs, key, |lines|, j);
    var k :| 0 <= k < |lines| && qs[k] > 0
             && MonthSales(lines, qs, key, |lines|)[j] == SaleOrder(lines, qs, key, k);
    assert qs[k] == SaleQuantity(data, lines[k], growthRate, i);
  }

  /** Every line of the latest month whose forecast quantity is positive
      has its forecast line in that month. */
  lemma SalesHas(data: seq<Order>, growthRate: real, i: nat, k: nat)
    requires |data| > 0 && k < |LastLines(data)|
    requires SaleQuantity(data, LastLines(data)[k], growthRate, i) > 0
    ensures Forecast(data, growthRate, i, k) in Sales(data, growthRate, i)
  {
    var lines, key := LastLines(data), Analysis.NextMonthKey(LastMonthOf(data), i);
    var qs := SaleQuantities(data, lines, growthRate, i);
    assert qs[k] == SaleQuantity(data, lines[k], growthRate, i);
    MonthSalesHas(lines, qs, key, |lines|, k);
  }

  /** A month's forecast has at most one line per line of the latest month. */
  lemma SalesLength(data: seq<Order>, growthRate: real, i: nat)
    requires |data| > 0
    ensures |Sales(data, growthRate, i)| <= |LastLines(data)|
  {
    var lines := LastLines(data);
    MonthSalesLength(lines, SaleQuantities(data, lines, growthRate, i),
                     Analysis.NextMonthKey(LastMonthOf(data), i), |lines|);
  }

  /** One more forecast month adds at most one line per line of the latest
      month. */
  lemma SalesUpToStep(data: seq<Order>, growthRate: real, k: nat)
    requires |data| > 0 && k > 0
    ensures |SalesUpTo(data, growthRate, k)| <= |SalesUpTo(data, growthRate, k - 1)| + |LastLines(data)|
  {
    SalesLength(data, growthRate, k);
  }

  /** The forecast has at most three lines per line of the latest month,
      and none without lines. */
  lemma SalesForecastLength(data: seq<Order>, growthRate: real)
    ensures |data| == 0 ==> SalesForecast(data, growthRate) == []
    ensures |data| > 0 ==> |SalesForecast(data, growthRate)| <= 3 * |LastLines(data)|
  {
    if |data| > 0 {
      SalesUpToStep(data, growthRate, 1);
      SalesUpToStep(data, growthRate, 2);
      SalesUpToStep(data, growthRate, 3);
    }
  }

  /** A SKU's quantity summed month by month over every month is its
      total quantity: a month without the SKU adds nothing, and each line
      falls in exactly one month. */
  lemma SkuTotalAcrossMonths(data: seq<Order>, sku: string)
    ensures SkuTotalAcross(data, Months(data), sku) == SumQuantity(LinesWith(data, SkuOf, sku))
  {
    var ms := Months(data);
    var skuLines := LinesWith(data, SkuOf, sku);
    SkuTotalAcrossFiltered(data, ms, sku);
    SortStringsSorted(DistinctKeys(data, Analysis.OrderMonth));
    if |ms| > 0 {
      StrictlySortedLast(ms);
    }
    LinesWithKey(data, SkuOf, sku);
    forall o | o in skuLines ensures Analysis.OrderMonth(o) in ms {
      var i :| 0 <= i < |data| && data[i] == o;
      DistinctKeysHas(data, Analysis.OrderMonth, Analysis.OrderMonth(o));
      SortStringsSameElements(DistinctKeys(data, Analysis.OrderMonth), Analysis.OrderMonth(o));
    }
    SumOverKeysCovers(skuLines, Analysis.OrderMonth, ms);
  }

  /** Summing a SKU month by month is summing its lines by month. */
  lemma {:induction false} SkuTotalAcrossFiltered(data: seq<Order>, ms: seq<string>, sku: string)
    ensures SkuTotalAcross(data, ms, sku) == SumOverKeys(LinesWith(data, SkuOf, sku), Analysis.OrderMonth, ms)
  {
    if |ms| > 0 {
      SkuTotalAcrossFiltered(data, ms[..|ms| - 1], sku);
      LinesWithCommute(data, Analysis.OrderMonth, ms[|ms| - 1], SkuOf, sku);
    }
  }

  /** At zero growth a forecast line keeps its base quantity, rounded,
      every month. */
  lemma SaleSteady(data: seq<Order>, o: Order, i: nat)
    ensures SaleQuantity(data, o, 0.0, i) == Analysis.Round(BaseQuantity(data, o))
  {
    Analysis.PowerOne(i);
    assert 1.0 + 0.0 / 100.0 == 1.0;
  }
}
